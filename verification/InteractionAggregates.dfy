/** The invariant of one interaction, and the proof that every commit an operation builds from an
    up-to-date reading keeps it. */
module InteractionAggregates {
  import opened Basics
  import opened InteractionModels
  import opened InteractionStore
  import opened InteractionDecisions

  predicate IsPreview(a: Aggregate, id: Id) {
    id in a.facts && a.facts[id].PreviewFact?
  }

  predicate HasPreview(a: Aggregate) {
    a.record.previewId.Some? && IsPreview(a, a.record.previewId.value)
  }

  function CurrentPreview(a: Aggregate): Preview
    requires HasPreview(a)
  {
    a.facts[a.record.previewId.value].preview
  }

  function PreviewCount(a: Aggregate): nat {
    if HasPreview(a) then CurrentPreview(a).revision else 0
  }

  ghost predicate HasRevision(a: Aggregate, k: nat) {
    exists id :: IsPreview(a, id) && a.facts[id].preview.revision == k
  }

  /** Preview revisions are exactly 1..n, one Preview each, the current one at n; only it may be ACTIVE. */
  ghost predicate PreviewsNumbered(a: Aggregate) {
    && (a.record.previewId.Some? ==> HasPreview(a))
    && (forall id | IsPreview(a, id) ::
          && 1 <= a.facts[id].preview.revision <= PreviewCount(a)
          && (a.facts[id].preview.revision == PreviewCount(a) ==> a.record.previewId == Some(id))
          && (a.facts[id].preview.status.Active? ==> a.record.previewId == Some(id)))
    && (forall id, id' | IsPreview(a, id) && IsPreview(a, id') ::
          a.facts[id].preview.revision == a.facts[id'].preview.revision ==> id == id')
    && (forall k: nat | 1 <= k <= PreviewCount(a) :: HasRevision(a, k))
  }

  predicate ConfirmationFor(c: Confirmation, p: Preview) {
    c.previewId == p.id && c.previewRevision == p.revision && c.expires <= p.expires
    && c.actor == p.actor && c.policy == p.policy
  }

  predicate ApprovalFor(v: Approval, p: Preview) {
    v.previewId == p.id && v.previewRevision == p.revision && v.expires <= p.expires && v.policy == p.policy
  }

  predicate HasConfirmation(a: Aggregate) {
    && HasPreview(a)
    && a.record.confirmationId.Some?
    && a.record.confirmationId.value in a.facts
    && a.facts[a.record.confirmationId.value].ConfirmationFact?
    && ConfirmationFor(a.facts[a.record.confirmationId.value].confirmation, CurrentPreview(a))
  }

  predicate HasApproval(a: Aggregate) {
    && HasPreview(a)
    && a.record.approvalId.Some?
    && a.record.approvalId.value in a.facts
    && a.facts[a.record.approvalId.value].ApprovalFact?
    && ApprovalFor(a.facts[a.record.approvalId.value].approval, CurrentPreview(a))
  }

  /** Consent is held by the current Preview, and by it alone. */
  predicate ConsentHeld(a: Aggregate) {
    var r := a.record;
    && !r.state.Previewed?
    && (r.state.Requested? ==> r.previewId.None?)
    && (r.previewId.None? ==> r.state.Requested? || r.state.Cancelled?)
    && (r.confirmationId.Some? ==> HasConfirmation(a))
    && (r.approvalId.Some? ==> HasApproval(a))
    && (HasPreview(a) ==>
          CurrentPreview(a).policy == r.origin.policy && CurrentPreview(a).operation == r.origin.operation)
    && (r.state.AwaitingConfirmation? ==>
          && HasPreview(a)
          && r.approvalId.None?
          && (CurrentPreview(a).plan.requiresConfirmation || CurrentPreview(a).plan.requiresApproval)
          && (r.confirmationId.None? ==> CurrentPreview(a).status.Active?)
          && (r.confirmationId.Some? ==>
                CurrentPreview(a).status.Confirmed? && CurrentPreview(a).plan.requiresApproval))
    && (r.state.Authorized? || AfterAttempt(r.state) ==>
          && HasPreview(a)
          && (CurrentPreview(a).plan.requiresConfirmation ==> r.confirmationId.Some?)
          && (CurrentPreview(a).plan.requiresApproval ==> r.approvalId.Some?))
  }

  predicate HasExecution(a: Aggregate) {
    && a.record.executionId.Some?
    && a.record.executionId.value in a.facts
    && a.facts[a.record.executionId.value].ExecutionFact?
  }

  /** The port said that nothing happened, or that what it tried failed. */
  predicate CameToNothing(s: ExecutionStatus) {
    s.Rejected? || s.ExecutionFailed?
  }

  /** An execution is on record exactly after an attempt, with the status the record tells until verification
      completes it; and FAILED is what came to nothing. */
  predicate ExecutionTracked(a: Aggregate) {
    var r := a.record;
    && (AfterAttempt(r.state) <==> r.executionId.Some?)
    && (r.executionId.Some? ==> HasExecution(a))
    && (!AfterAttempt(r.state) ==> r.execution.NotStarted?)
    && (r.state.Executing? ==> r.execution.Attempted? && a.facts[r.executionId.value].execution.status.Attempted?)
    && (r.executionId.Some? ==>
          && (r.state.Failed? <==> CameToNothing(a.facts[r.executionId.value].execution.status))
          && (!r.state.Succeeded? ==> r.execution == a.facts[r.executionId.value].execution.status))
  }

  predicate HasRecovery(a: Aggregate) {
    && a.record.recoveryId.Some?
    && a.record.recoveryId.value in a.facts
    && a.facts[a.record.recoveryId.value].RecoveryFact?
  }

  /** RECOVERY_REQUIRED holds exactly when a PENDING Recovery is referenced. */
  predicate RecoveryTracked(a: Aggregate) {
    var r := a.record;
    && (r.recoveryId.Some? ==> HasRecovery(a))
    && (r.state.RecoveryRequired? <==> HasRecovery(a) && a.facts[r.recoveryId.value].recovery.status.RecoveryPending?)
    && (r.state.RecoveryRequired? <==> r.recovery.RecoveryPending?)
    && (r.recoveryId.Some? ==> r.state.RecoveryRequired? || r.state.Succeeded?)
    && (r.recoveryId.None? ==> r.recovery.RecoveryNotRequired?)
  }

  /** The stored verification result, when one is referenced, is for this interaction's own execution. */
  predicate HasVerifiedResult(a: Aggregate) {
    && a.record.verifiedResultId.Some?
    && a.record.verifiedResultId.value in a.facts
    && a.facts[a.record.verifiedResultId.value].VerifiedResultFact?
    && var v := a.facts[a.record.verifiedResultId.value].result;
    && v.interactionId == a.record.id
    && a.record.executionId == Some(v.executionId)
    && v.scope == a.record.origin.scope
    && v.digest != ""
  }

  /** The stored commit evidence matches interaction, execution, Preview, scope and policy. */
  predicate HasCommitEvidence(a: Aggregate) {
    && HasPreview(a)
    && a.record.commitEvidenceId.Some?
    && a.record.commitEvidenceId.value in a.facts
    && a.facts[a.record.commitEvidenceId.value].CommitEvidenceFact?
    && var e := a.facts[a.record.commitEvidenceId.value].evidence;
    && e.interactionId == a.record.id
    && a.record.executionId == Some(e.executionId)
    && a.record.previewId == Some(e.previewId)
    && e.scope == a.record.origin.scope
    && e.policy == a.record.origin.policy
    && e.digest != ""
    && e.commitRequired == CurrentPreview(a).plan.commitRequired
    && (if e.commitRequired
        then e.outcome.Committed? && e.objectId.Some? && e.objectId.value != "" && e.revision.Some?
        else e.outcome.CommitNotRequired?)
  }

  predicate SuccessProven(a: Aggregate) {
    && (a.record.verifiedResultId.Some? ==> HasVerifiedResult(a))
    && (a.record.commitEvidenceId.Some? <==> a.record.state.Succeeded?)
    && (a.record.state.Succeeded? ==>
          && a.record.verification.Verified? && a.record.execution.Completed?
          && HasVerifiedResult(a)
          && HasCommitEvidence(a)
          && a.facts[a.record.verifiedResultId.value].result.commitEvidenceId == a.record.commitEvidenceId)
  }

  /** Rows `from` onwards continue a path: each row starts where its predecessor ended. */
  predicate Connected(rows: seq<Audit>) {
    forall i | 0 < i < |rows| ::
      && rows[i].from == Some(rows[i - 1].to)
      && rows[i - 1].revision <= rows[i].revision <= rows[i - 1].revision + 1
  }

  /** The audit rows are one path from REQUESTED to the stored state, gaining the stored revision. */
  predicate Trailed(a: Aggregate) {
    && |a.audits| > 0
    && a.audits[0].from.None? && a.audits[0].to.Requested? && a.audits[0].revision == 1
    && Connected(a.audits)
    && a.audits[|a.audits| - 1].to == a.record.state
    && a.audits[|a.audits| - 1].revision == a.record.revision
  }

  predicate Keyed(a: Aggregate) {
    forall id | id in a.facts :: FactId(a.facts[id]) == id
  }

  /** A REQUESTED interaction is exactly one nothing has been committed to. */
  predicate Counted(a: Aggregate) {
    a.record.revision >= 1 && (a.record.state.Requested? <==> a.record.revision == 1)
  }

  /** The four predicates that tie the record to the facts it references. */
  predicate Bound(a: Aggregate) {
    ConsentHeld(a) && Tracked(a)
  }

  predicate Tracked(a: Aggregate) {
    ExecutionTracked(a) && RecoveryTracked(a) && SuccessProven(a)
  }

  /** The part of the invariant that speaks of the record and the facts it references. */
  predicate CoreOk(a: Aggregate) {
    && Keyed(a)
    && Counted(a)
    && (a.record.previewId.Some? ==> HasPreview(a))
    && Bound(a)
  }

  ghost predicate AggregateOk(a: Aggregate) {
    && CoreOk(a)
    && PreviewsNumbered(a)
    && Trailed(a)
  }

  /** A stored fact keeps its type and its content; a Preview may change status but never becomes ACTIVE again,
      an execution or a recovery may change its outcome. */
  predicate SameFact(f: Fact, g: Fact) {
    match f
    case PreviewFact(p) =>
      g.PreviewFact? && g.preview == p.(status := g.preview.status) && (g.preview.status.Active? ==> p.status.Active?)
    case ConfirmationFact(_) => g == f
    case ApprovalFact(_) => g == f
    case ExecutionFact(x) => g.ExecutionFact? && g.execution.id == x.id && g.execution.key == x.key
    case VerifiedResultFact(_) => g == f
    case CommitEvidenceFact(_) => g == f
    case RecoveryFact(r) => g.RecoveryFact? && g.recovery.id == r.id
  }

  predicate FactsKept(a: Aggregate, b: Aggregate) {
    forall id | id in a.facts :: id in b.facts && SameFact(a.facts[id], b.facts[id])
  }

  /** What one committed transition may do to an interaction. */
  predicate Evolves(a: Aggregate, b: Aggregate) {
    && b.record.id == a.record.id
    && b.record.origin == a.record.origin
    && b.record.revision == a.record.revision + 1
    && !Terminal(a.record.state)
    && Rank(a.record.state) <= Rank(b.record.state)
    && FactsKept(a, b)
    && (a.record.executionId.Some? ==>
          && b.record.previewId == a.record.previewId
          && b.record.confirmationId == a.record.confirmationId
          && b.record.approvalId == a.record.approvalId
          && b.record.executionId == a.record.executionId)
    && (a.record.recoveryId.Some? ==> b.record.recoveryId == a.record.recoveryId)
    && |a.audits| < |b.audits| && b.audits[..|a.audits|] == a.audits
  }

  /** The readings of a stage agree with the stored facts. */
  predicate Accurate(a: Aggregate, seen: Seen) {
    forall id | id in seen :: seen[id] == if id in a.facts then Some(a.facts[id]) else None
  }

  /** New ids name no stored fact of this interaction, and not each other. */
  predicate NewIds(a: Aggregate, env: Env) {
    && env.id0 !in a.facts && env.id1 !in a.facts && env.id2 !in a.facts
    && env.id0 != env.id1 && env.id0 != env.id2 && env.id1 != env.id2
    && (env.commit.Some? ==>
          && env.commit.value.id !in a.facts
          && env.commit.value.id != env.id0 && env.commit.value.id != env.id1 && env.commit.value.id != env.id2)
  }

  /** The situation in which a stage's commit wins its compare-and-swap: what it read is what is stored. */
  predicate Ready(stage: Stage, q: Request, a: Aggregate, seen: Seen, env: Env) {
    && CoreOk(a)
    && Belongs(stage, q)
    && Guard(stage, q, a.record.revision, a.record).None?
    && (stage.Observing? || stage.Reconciling? ==> a.record.state.Executing?)
    && (stage.Observing? ==> Ids(a.record.executionId) <= seen.Keys)
    && Needs(stage, q, a.record) <= seen.Keys
    && Accurate(a, seen)
    && NewIds(a, env)
  }

  /** The audit rows of a commit lead from the stored state to the next one. */
  predicate Continues(a: Aggregate, c: Commit) {
    && |c.audits| > 0
    && Connected(c.audits)
    && c.audits[0].from == Some(a.record.state)
    && c.audits[0].revision == a.record.revision + 1
    && c.audits[|c.audits| - 1].to == c.next.state
    && c.audits[|c.audits| - 1].revision == c.next.revision
  }

  lemma TrailGrows(a: Aggregate, c: Commit)
    requires Trailed(a) && Continues(a, c)
    ensures Trailed(Apply(a, c))
    ensures |a.audits| < |Apply(a, c).audits| && Apply(a, c).audits[..|a.audits|] == a.audits
  {
    var rows := a.audits + c.audits;
    forall i | 0 < i < |rows|
      ensures rows[i].from == Some(rows[i - 1].to)
      ensures rows[i - 1].revision <= rows[i].revision <= rows[i - 1].revision + 1
    {
      if i > |a.audits| {
        assert rows[i] == c.audits[i - |a.audits|] && rows[i - 1] == c.audits[i - |a.audits| - 1];
      }
    }
  }

  /** A fact written under its own id, replacing at most the same fact. */
  predicate FactFits(a: Aggregate, id: Id, f: Fact) {
    FactId(f) == id && (id in a.facts ==> SameFact(a.facts[id], f))
  }

  predicate FactsFit(a: Aggregate, facts: map<Id, Fact>) {
    forall id | id in facts :: FactFits(a, id, facts[id])
  }

  lemma FitOne(a: Aggregate, f: Fact)
    requires FactFits(a, FactId(f), f)
    ensures FactsFit(a, map[FactId(f) := f])
  {
  }

  lemma FitAdded(a: Aggregate, facts: map<Id, Fact>, f: Fact)
    requires FactsFit(a, facts) && FactFits(a, FactId(f), f)
    ensures FactsFit(a, facts[FactId(f) := f])
  {
  }

  lemma SameFactReflexive(f: Fact)
    ensures SameFact(f, f)
  {
  }

  lemma FactsSurvive(a: Aggregate, c: Commit)
    requires FactsFit(a, c.facts)
    ensures FactsKept(a, Apply(a, c))
  {
    forall id | id in a.facts
      ensures id in Apply(a, c).facts && SameFact(a.facts[id], Apply(a, c).facts[id])
    {
      if id in c.facts {
        assert FactFits(a, id, c.facts[id]);
      } else {
        SameFactReflexive(a.facts[id]);
      }
    }
  }

  /** A commit that adds no Preview. */
  predicate NoNewPreview(a: Aggregate, c: Commit) {
    && c.next.previewId == a.record.previewId
    && forall id | id in c.facts && c.facts[id].PreviewFact? :: c.next.previewId == Some(id) && IsPreview(a, id)
  }

  lemma NumberingKept(a: Aggregate, c: Commit)
    requires PreviewsNumbered(a) && NoNewPreview(a, c) && FactsFit(a, c.facts)
    ensures PreviewsNumbered(Apply(a, c))
  {
    var b := Apply(a, c);
    FactsSurvive(a, c);
    assert forall id | IsPreview(b, id) :: IsPreview(a, id) && b.facts[id].preview.revision == a.facts[id].preview.revision;
    assert HasPreview(a) <==> HasPreview(b);
    forall k: nat | 1 <= k <= PreviewCount(b)
      ensures HasRevision(b, k)
    {
      assert HasRevision(a, k);
      var id :| IsPreview(a, id) && a.facts[id].preview.revision == k;
      assert IsPreview(b, id);
    }
  }

  /** A commit that adds one Preview with the next number, and takes the old one out of use. */
  predicate OneNewPreview(a: Aggregate, c: Commit, new_: Id) {
    && new_ !in a.facts
    && new_ in c.facts && c.facts[new_].PreviewFact?
    && c.next.previewId == Some(new_)
    && c.facts[new_].preview.revision == PreviewCount(a) + 1
    && (forall id | id in c.facts && c.facts[id].PreviewFact? && id != new_ :: IsPreview(a, id))
    && (a.record.previewId.Some? ==>
          var o := a.record.previewId.value;
          o in c.facts && c.facts[o].PreviewFact? && !c.facts[o].preview.status.Active?)
    && (forall id | id in c.facts && id != new_ :: a.record.previewId == Some(id))
  }

  lemma NumberingGrows(a: Aggregate, c: Commit, new_: Id)
    requires PreviewsNumbered(a) && OneNewPreview(a, c, new_) && FactsFit(a, c.facts)
    ensures PreviewsNumbered(Apply(a, c))
  {
    var b := Apply(a, c);
    FactsSurvive(a, c);
    assert PreviewCount(b) == PreviewCount(a) + 1;
    assert forall id | IsPreview(b, id) && id != new_ ::
        IsPreview(a, id) && b.facts[id].preview.revision == a.facts[id].preview.revision;
    forall k: nat | 1 <= k <= PreviewCount(b)
      ensures HasRevision(b, k)
    {
      if k <= PreviewCount(a) {
        assert HasRevision(a, k);
        var id :| IsPreview(a, id) && a.facts[id].preview.revision == k;
        assert IsPreview(b, id) && b.facts[id].preview.revision == k;
      } else {
        assert IsPreview(b, new_) && b.facts[new_].preview.revision == k;
      }
    }
  }

  /** The header, the facts and the audit rows of a commit fit the interaction it is for. */
  predicate Fits(a: Aggregate, c: Commit) {
    && FactsFit(a, c.facts)
    && Continues(a, c)
    && c.next.id == a.record.id && c.next.origin == a.record.origin
    && c.next.revision == a.record.revision + 1 && c.expected == a.record.revision
    && !Terminal(a.record.state)
    && !c.next.state.Requested?
    && Rank(a.record.state) <= Rank(c.next.state)
    && (a.record.executionId.Some? ==>
          && c.next.previewId == a.record.previewId
          && c.next.confirmationId == a.record.confirmationId
          && c.next.approvalId == a.record.approvalId
          && c.next.executionId == a.record.executionId)
    && (a.record.recoveryId.Some? ==> c.next.recoveryId == a.record.recoveryId)
  }

  /** A record and its readings are current, and the new ids are new. */
  predicate Informed(a: Aggregate, seen: Seen, env: Env) {
    CoreOk(a) && Accurate(a, seen) && NewIds(a, env)
  }

  predicate Read(seen: Seen, id: Option<Id>) {
    id.Some? ==> id.value in seen
  }

  /** After an attempt no commit touches the consent. */
  lemma ConsentStays(a: Aggregate, c: Commit)
    requires ConsentHeld(a) && Fits(a, c)
    requires AfterAttempt(a.record.state) && a.record.executionId.Some? && Tracked(Apply(a, c))
    ensures Bound(Apply(a, c))
  {
    FactsSurvive(a, c);
  }

  lemma PreviewingFits(q: Request, a: Aggregate, seen: Seen, env: Env, c: Commit)
    requires Informed(a, seen, env)
    requires q.action.PreviewAction?
    requires a.record.state.Requested? || a.record.state.Previewed? || a.record.state.AwaitingConfirmation?
    requires Read(seen, a.record.previewId)
    requires DecidePreview(q, a.record, seen, env) == Ok(c)
    ensures FactsFit(a, c.facts) && OneNewPreview(a, c, env.id0)
  {
    var prior := PreviewIn(seen, a.record.previewId);
    var p := PreviewFact(NewPreview(q, a.record, prior, env));
    FitOne(a, p);
    if prior.Some? {
      var o := PreviewFact(prior.value.(status := Superseded));
      FitOne(a, o);
      FitAdded(a, map[FactId(o) := o], p);
      assert c.facts == map[FactId(o) := o][FactId(p) := p];
    }
  }

  lemma PreviewingBuilds(q: Request, a: Aggregate, seen: Seen, env: Env, c: Commit)
    requires Informed(a, seen, env)
    requires q.action.PreviewAction?
    requires a.record.state.Requested? || a.record.state.Previewed? || a.record.state.AwaitingConfirmation?
    requires Read(seen, a.record.previewId)
    requires DecidePreview(q, a.record, seen, env) == Ok(c)
    ensures Fits(a, c) && OneNewPreview(a, c, env.id0)
  {
    PreviewingFits(q, a, seen, env, c);
    hide FactsFit, OneNewPreview;
  }

  lemma PreviewingBinds(q: Request, a: Aggregate, seen: Seen, env: Env, c: Commit)
    requires Informed(a, seen, env)
    requires q.action.PreviewAction?
    requires a.record.state.Requested? || a.record.state.Previewed? || a.record.state.AwaitingConfirmation?
    requires Read(seen, a.record.previewId)
    requires DecidePreview(q, a.record, seen, env) == Ok(c)
    ensures Bound(Apply(a, c))
  {
  }

  lemma ConfirmingBuilds(q: Request, a: Aggregate, seen: Seen, env: Env, c: Commit)
    requires Informed(a, seen, env)
    requires q.action.ConfirmAction?
    requires a.record.state.AwaitingConfirmation?
    requires Read(seen, Some(q.action.previewId))
    requires DecideConfirm(q, a.record, seen, env) == Ok(c)
    ensures Fits(a, c) && NoNewPreview(a, c)
  {
  }

  lemma ConfirmingBinds(q: Request, a: Aggregate, seen: Seen, env: Env, c: Commit)
    requires Informed(a, seen, env)
    requires q.action.ConfirmAction?
    requires a.record.state.AwaitingConfirmation?
    requires Read(seen, Some(q.action.previewId))
    requires DecideConfirm(q, a.record, seen, env) == Ok(c)
    ensures Bound(Apply(a, c))
  {
  }

  lemma ApprovingBuilds(q: Request, a: Aggregate, seen: Seen, env: Env, c: Commit)
    requires Informed(a, seen, env)
    requires q.action.ApproveAction?
    requires a.record.state.AwaitingConfirmation?
    requires Read(seen, Some(q.action.previewId)) && Read(seen, a.record.confirmationId)
    requires DecideApprove(q, a.record, seen, env) == Ok(c)
    ensures Fits(a, c) && NoNewPreview(a, c)
  {
  }

  lemma ApprovingBinds(q: Request, a: Aggregate, seen: Seen, env: Env, c: Commit)
    requires Informed(a, seen, env)
    requires q.action.ApproveAction?
    requires a.record.state.AwaitingConfirmation?
    requires Read(seen, Some(q.action.previewId)) && Read(seen, a.record.confirmationId)
    requires DecideApprove(q, a.record, seen, env) == Ok(c)
    ensures Bound(Apply(a, c))
  {
  }

  lemma CancellingBuilds(q: Request, a: Aggregate, seen: Seen, env: Env, c: Commit)
    requires Informed(a, seen, env)
    requires Cancellable(a.record)
    requires Read(seen, a.record.previewId)
    requires DecideCancel(q, a.record, seen) == Ok(c)
    ensures Fits(a, c) && NoNewPreview(a, c)
  {
  }

  lemma CancellingBinds(q: Request, a: Aggregate, seen: Seen, env: Env, c: Commit)
    requires Informed(a, seen, env)
    requires Cancellable(a.record)
    requires Read(seen, a.record.previewId)
    requires DecideCancel(q, a.record, seen) == Ok(c)
    ensures Bound(Apply(a, c))
  {
  }

  lemma ExpiringBuilds(q: Request, a: Aggregate, seen: Seen, env: Env, c: Commit)
    requires Informed(a, seen, env)
    requires a.record.state.AwaitingConfirmation?
    requires Read(seen, a.record.previewId)
    requires DecideExpire(q, a.record, seen, env) == Ok(c)
    ensures Fits(a, c) && NoNewPreview(a, c)
  {
  }

  lemma ExpiringBinds(q: Request, a: Aggregate, seen: Seen, env: Env, c: Commit)
    requires Informed(a, seen, env)
    requires a.record.state.AwaitingConfirmation?
    requires Read(seen, a.record.previewId)
    requires DecideExpire(q, a.record, seen, env) == Ok(c)
    ensures Bound(Apply(a, c))
  {
  }

  lemma GateBuilds(q: Request, a: Aggregate, seen: Seen, env: Env, c: Commit)
    requires Informed(a, seen, env)
    requires a.record.state.Authorized?
    requires Read(seen, a.record.previewId) && Read(seen, a.record.confirmationId) && Read(seen, a.record.approvalId)
    requires DecideGate(q, a.record, seen, env) == Ok(c)
    ensures Fits(a, c) && NoNewPreview(a, c)
  {
  }

  lemma GateBinds(q: Request, a: Aggregate, seen: Seen, env: Env, c: Commit)
    requires Informed(a, seen, env)
    requires a.record.state.Authorized?
    requires Read(seen, a.record.previewId) && Read(seen, a.record.confirmationId) && Read(seen, a.record.approvalId)
    requires DecideGate(q, a.record, seen, env) == Ok(c)
    ensures Bound(Apply(a, c))
  {
  }

  /** A commit with one audit row fits if its record and its facts do. */
  lemma SingleStepFits(q: Request, a: Aggregate, next: Interaction, facts: map<Id, Fact>)
    requires FactsFit(a, facts)
    requires next.id == a.record.id && next.origin == a.record.origin && next.revision == a.record.revision + 1
    requires !Terminal(a.record.state) && !next.state.Requested? && Rank(a.record.state) <= Rank(next.state)
    requires next.previewId == a.record.previewId && next.confirmationId == a.record.confirmationId
    requires next.approvalId == a.record.approvalId && next.executionId == a.record.executionId
    requires a.record.recoveryId.Some? ==> next.recoveryId == a.record.recoveryId
    ensures Fits(a, Commit1(q, a.record, next, facts))
  {
    hide FactsFit;
  }

  lemma ObservationFits(q: Request, a: Aggregate, x: Execution, env: Env, c: Commit)
    requires CoreOk(a) && NewIds(a, env)
    requires a.record.state.Executing?
    requires HasExecution(a) && x == a.facts[a.record.executionId.value].execution
    requires c == ObservationCommit(q, a.record, x, env)
    ensures FactsFit(a, c.facts) && NoNewPreview(a, c)
  {
    FitOne(a, ExecutionFact(ObservedExecution(x, env)));
    FitAdded(a, map[x.id := ExecutionFact(ObservedExecution(x, env))], RecoveryFact(Recovery(env.id0, q.actor, RecoveryPending)));
  }

  lemma ObservationBuilds(q: Request, a: Aggregate, x: Execution, env: Env, c: Commit)
    requires CoreOk(a) && NewIds(a, env)
    requires a.record.state.Executing?
    requires HasExecution(a) && x == a.facts[a.record.executionId.value].execution
    requires c == ObservationCommit(q, a.record, x, env)
    ensures Fits(a, c) && NoNewPreview(a, c)
  {
    ObservationFits(q, a, x, env, c);
    hide FactsFit, NoNewPreview, ConsentHeld, SuccessProven, Keyed, NewIds, Fits, Continues, DigestOf;
    SingleStepFits(q, a, c.next, c.facts);
  }

  lemma ObservationTracks(q: Request, a: Aggregate, x: Execution, env: Env, c: Commit)
    requires Tracked(a) && NewIds(a, env)
    requires a.record.state.Executing?
    requires HasExecution(a) && x == a.facts[a.record.executionId.value].execution && x.id == a.record.executionId.value
    requires c == ObservationCommit(q, a.record, x, env)
    ensures Tracked(Apply(a, c))
  {
  }

  lemma ObservingBuilds(q: Request, a: Aggregate, seen: Seen, env: Env, c: Commit)
    requires Informed(a, seen, env)
    requires a.record.state.Executing?
    requires Read(seen, a.record.executionId)
    requires DecideObservation(q, a.record, seen, env) == Ok(c)
    ensures Fits(a, c) && NoNewPreview(a, c) && Tracked(Apply(a, c))
  {
    var x := a.facts[a.record.executionId.value].execution;
    ObservationBuilds(q, a, x, env, c);
    ObservationTracks(q, a, x, env, c);
  }

  lemma ReconcilingFits(q: Request, a: Aggregate, seen: Seen, env: Env, c: Commit)
    requires Informed(a, seen, env)
    requires a.record.state.Executing?
    requires Read(seen, a.record.executionId)
    requires DecideReconcile(q, a.record, seen, env) == Ok(c)
    ensures FactsFit(a, c.facts) && NoNewPreview(a, c)
  {
    var x := ExecutionFact(a.facts[a.record.executionId.value].execution.(status := Uncertain));
    FitOne(a, x);
    FitAdded(a, map[FactId(x) := x], RecoveryFact(Recovery(env.id0, q.actor, RecoveryPending)));
  }

  lemma ReconcilingBuilds(q: Request, a: Aggregate, seen: Seen, env: Env, c: Commit)
    requires Informed(a, seen, env)
    requires a.record.state.Executing?
    requires Read(seen, a.record.executionId)
    requires DecideReconcile(q, a.record, seen, env) == Ok(c)
    ensures Fits(a, c) && NoNewPreview(a, c)
  {
    ReconcilingFits(q, a, seen, env, c);
    hide FactsFit, NoNewPreview;
  }

  lemma ReconcilingTracks(q: Request, a: Aggregate, seen: Seen, env: Env, c: Commit)
    requires Tracked(a) && NewIds(a, env) && Accurate(a, seen)
    requires a.record.state.Executing?
    requires Read(seen, a.record.executionId)
    requires FactId(a.facts[a.record.executionId.value]) == a.record.executionId.value
    requires DecideReconcile(q, a.record, seen, env) == Ok(c)
    ensures Tracked(Apply(a, c))
  {
  }

  function OpenRecovery(a: Aggregate): Option<Recovery> {
    if HasRecovery(a) then Some(a.facts[a.record.recoveryId.value].recovery) else None
  }

  lemma ProofFits(q: Request, a: Aggregate, x: Execution, p: Preview, e: CommitEvidence,
                  open: Option<Recovery>, env: Env, c: Commit)
    requires CoreOk(a) && NewIds(a, env)
    requires a.record.state.Verifying? || a.record.state.RecoveryRequired?
    requires open == OpenRecovery(a)
    requires HasExecution(a) && x == a.facts[a.record.executionId.value].execution
    requires HasPreview(a) && p == CurrentPreview(a)
    requires Proven(env) && CanonicalCommit(a.record, p, x, env) == Some(e)
    requires c == ProofCommit(q, a.record, x, e, open, env)
    ensures FactsFit(a, c.facts) && NoNewPreview(a, c)
  {
    var result := VerifiedResultFact(ResultFor(a.record, x, Some(e.id), env));
    FitOne(a, result);
    FitAdded(a, map[FactId(result) := result], CommitEvidenceFact(e));
    if open.Some? {
      FitAdded(a, map[FactId(result) := result][e.id := CommitEvidenceFact(e)],
               RecoveryFact(open.value.(status := Recovered)));
    }
  }

  lemma ProofBuilds(q: Request, a: Aggregate, x: Execution, p: Preview, e: CommitEvidence,
                    open: Option<Recovery>, env: Env, c: Commit)
    requires CoreOk(a) && NewIds(a, env)
    requires a.record.state.Verifying? || a.record.state.RecoveryRequired?
    requires open == OpenRecovery(a)
    requires HasExecution(a) && x == a.facts[a.record.executionId.value].execution
    requires HasPreview(a) && p == CurrentPreview(a)
    requires Proven(env) && CanonicalCommit(a.record, p, x, env) == Some(e)
    requires c == ProofCommit(q, a.record, x, e, open, env)
    ensures Fits(a, c) && NoNewPreview(a, c)
  {
    ProofFits(q, a, x, p, e, open, env, c);
    hide FactsFit, NoNewPreview, Bound, Keyed;
  }

  lemma ProofTracks(q: Request, a: Aggregate, x: Execution, p: Preview, e: CommitEvidence,
                    open: Option<Recovery>, env: Env, c: Commit)
    requires Tracked(a) && NewIds(a, env)
    requires a.record.state.Verifying? || a.record.state.RecoveryRequired?
    requires open == OpenRecovery(a)
    requires open.Some? ==> open.value.id == a.record.recoveryId.value
    requires HasExecution(a) && x == a.facts[a.record.executionId.value].execution && x.id == a.record.executionId.value
    requires HasPreview(a) && p == CurrentPreview(a) && p.id == a.record.previewId.value
    requires Proven(env) && CanonicalCommit(a.record, p, x, env) == Some(e)
    requires c == ProofCommit(q, a.record, x, e, open, env)
    ensures Tracked(Apply(a, c))
  {
  }

  lemma RetryFits(q: Request, a: Aggregate, x: Execution, env: Env, c: Commit)
    requires CoreOk(a) && NewIds(a, env)
    requires a.record.state.Verifying? || a.record.state.RecoveryRequired?
    requires HasExecution(a) && x == a.facts[a.record.executionId.value].execution
    requires c == RetryCommit(q, a.record, x, env)
    ensures FactsFit(a, c.facts) && NoNewPreview(a, c)
  {
    var recovery := RecoveryFact(Recovery(
      if a.record.recoveryId.Some? then a.record.recoveryId.value else env.id2, q.actor, RecoveryPending));
    FitOne(a, recovery);
    if Proven(env) {
      FitAdded(a, map[FactId(recovery) := recovery], VerifiedResultFact(ResultFor(a.record, x, None, env)));
    }
  }

  lemma RetryBuilds(q: Request, a: Aggregate, x: Execution, env: Env, c: Commit)
    requires CoreOk(a) && NewIds(a, env)
    requires a.record.state.Verifying? || a.record.state.RecoveryRequired?
    requires HasExecution(a) && x == a.facts[a.record.executionId.value].execution
    requires c == RetryCommit(q, a.record, x, env)
    ensures Fits(a, c) && NoNewPreview(a, c)
  {
    RetryFits(q, a, x, env, c);
    hide FactsFit, NoNewPreview, Bound, Keyed;
  }

  lemma RetryTracks(q: Request, a: Aggregate, x: Execution, env: Env, c: Commit)
    requires Tracked(a) && NewIds(a, env)
    requires a.record.state.Verifying? || a.record.state.RecoveryRequired?
    requires HasExecution(a) && x == a.facts[a.record.executionId.value].execution && x.id == a.record.executionId.value
    requires c == RetryCommit(q, a.record, x, env)
    ensures Tracked(Apply(a, c))
  {
  }

  lemma ProvingBuilds(q: Request, a: Aggregate, seen: Seen, env: Env, c: Commit)
    requires Informed(a, seen, env)
    requires a.record.state.Verifying? || a.record.state.RecoveryRequired?
    requires Read(seen, a.record.executionId) && Read(seen, a.record.previewId) && Read(seen, a.record.recoveryId)
    requires DecideProof(q, a.record, seen, env) == Ok(c)
    ensures Fits(a, c) && NoNewPreview(a, c) && Tracked(Apply(a, c))
  {
    hide Fits, NoNewPreview, SuccessProven, Apply, ProofCommit, RetryCommit, CommitMatches;
    var x := a.facts[a.record.executionId.value].execution;
    assert ExecutionIn(seen, a.record.executionId) == Some(x);
    assert PreviewIn(seen, a.record.previewId) == Some(CurrentPreview(a));
    if Proven(env) && CanonicalCommit(a.record, CurrentPreview(a), x, env).Some? {
      var e := CanonicalCommit(a.record, CurrentPreview(a), x, env).value;
      ProofBuilds(q, a, x, CurrentPreview(a), e, OpenRecovery(a), env, c);
      ProofTracks(q, a, x, CurrentPreview(a), e, OpenRecovery(a), env, c);
    } else {
      RetryBuilds(q, a, x, env, c);
      RetryTracks(q, a, x, env, c);
    }
  }

  lemma StageBuilds(stage: Stage, q: Request, a: Aggregate, seen: Seen, env: Env, c: Commit)
    requires Ready(stage, q, a, seen, env)
    requires Decide(stage, q, a.record, seen, env) == Ok(c)
    ensures Fits(a, c) && Bound(Apply(a, c))
    ensures if stage.Previewing? then OneNewPreview(a, c, env.id0) else NoNewPreview(a, c)
  {
    hide Fits, NoNewPreview, OneNewPreview, SuccessProven, Apply, DecidePreview, DecideConfirm, DecideApprove, DecideCancel,
      DecideExpire, DecideGate, DecideObservation, DecideReconcile, DecideProof;
    match stage {
      case Previewing =>
        PreviewingBuilds(q, a, seen, env, c);
        PreviewingBinds(q, a, seen, env, c);
      case Confirming =>
        ConfirmingBuilds(q, a, seen, env, c);
        ConfirmingBinds(q, a, seen, env, c);
      case Approving =>
        ApprovingBuilds(q, a, seen, env, c);
        ApprovingBinds(q, a, seen, env, c);
      case Cancelling =>
        CancellingBuilds(q, a, seen, env, c);
        CancellingBinds(q, a, seen, env, c);
      case Expiring =>
        ExpiringBuilds(q, a, seen, env, c);
        ExpiringBinds(q, a, seen, env, c);
      case Gate =>
        GateBuilds(q, a, seen, env, c);
        GateBinds(q, a, seen, env, c);
      case Observing =>
        ObservingBuilds(q, a, seen, env, c);
        ConsentStays(a, c);
      case Reconciling =>
        ReconcilingBuilds(q, a, seen, env, c);
        ReconcilingTracks(q, a, seen, env, c);
        ConsentStays(a, c);
      case Proving =>
        ProvingBuilds(q, a, seen, env, c);
        ConsentStays(a, c);
    }
  }

  lemma FitKeeps(a: Aggregate, c: Commit)
    requires AggregateOk(a)
    requires Fits(a, c) && Bound(Apply(a, c))
    requires PreviewsNumbered(Apply(a, c))
    ensures AggregateOk(Apply(a, c)) && Evolves(a, Apply(a, c))
  {
    FactsSurvive(a, c);
    TrailGrows(a, c);
  }

  /** Every commit built from an up-to-date reading keeps the invariant and only moves forward. */
  lemma StageKeeps(stage: Stage, q: Request, a: Aggregate, seen: Seen, env: Env, c: Commit)
    requires AggregateOk(a) && Ready(stage, q, a, seen, env)
    requires Decide(stage, q, a.record, seen, env) == Ok(c)
    ensures Fits(a, c)
    ensures AggregateOk(Apply(a, c)) && Evolves(a, Apply(a, c))
  {
    StageBuilds(stage, q, a, seen, env, c);
    if stage.Previewing? {
      NumberingGrows(a, c, env.id0);
    } else {
      NumberingKept(a, c);
    }
    FitKeeps(a, c);
  }
}
