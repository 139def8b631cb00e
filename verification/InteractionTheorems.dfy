/** What the lifecycle promises, over every run of any number of callers. */
module InteractionTheorems {
  import opened Basics
  import opened Texts
  import opened InteractionModels
  import opened InteractionStore
  import opened InteractionDecisions
  import opened InteractionAggregates
  import opened InteractionRuns
  import opened InteractionProtocol
  import opened InteractionSafety

  // ---------- at most one execution ----------

  /** The execution port is called at most once per interaction, whatever callers, retries and crashes do. */
  lemma ExecutedAtMostOnce(w: World, j: nat, k: nat)
    requires Reachable(w)
    requires j < k < |w.log|
    ensures w.log[j].interactionId != w.log[k].interactionId
  {
    hide StoreOk, CallsOk, HistoryOk, Reachable;
    ReachableOk(w);
  }

  /** Only an execute request that won the gate reaches the port: verify and recover never do. */
  lemma OnlyExecuteReachesThePort(w: World, step: Step)
    requires Reachable(w) && Enabled(w, step)
    requires Next(w, step).log != w.log
    ensures step.CallPort?
    ensures w.calls[step.call].request.action.ExecuteAction?
    ensures Next(w, step).log == w.log + [w.calls[step.call].pc.port]
  {
    hide StoreOk, LogOk, HistoryOk, Reachable, CommitStep, OpenStep, AfterReadRow, AfterReadRecord, AfterReadFact,
      Current, PortOk, NewEverywhere, Needs;
    ReachableOk(w);
    CommitStepLogs(w);
    if step.CallPort? {
      assert CallOk(w.store, w.calls[step.call]);
    }
  }

  lemma CommitStepLogs(w: World)
    ensures forall n, env | n in w.calls && w.calls[n].pc.Working? :: CommitStep(w, n, env).log == w.log
    ensures forall origin, key, id :: OpenStep(w, origin, key, id).log == w.log
  {
    hide Decide, Transition, CreateInteraction;
  }

  // ---------- consent ----------

  /** Every port call carried the parameters of the interaction's current Preview; where that Preview asks
      for a confirmation or an approval, one for exactly that Preview and revision was on record, unexpired
      at the gate; and then the Preview itself had not expired at the gate. */
  lemma ExecutedWithConsent(w: World, j: nat)
    requires Reachable(w) && j < |w.log|
    ensures w.log[j].interactionId in w.store.aggregates
    ensures var a := w.store.aggregates[w.log[j].interactionId];
            && HasPreview(a)
            && var p := CurrentPreview(a);
            && w.log[j].parameters == p.plan.parameters
            && w.log[j].operation == a.record.origin.operation == p.operation
            && a.record.executionId == Some(w.log[j].executionId)
            && (p.plan.requiresConfirmation ==>
                  && HasConfirmation(a)
                  && var c := a.facts[a.record.confirmationId.value].confirmation;
                  && c.previewId == p.id && c.previewRevision == p.revision
                  && w.log[j].confirmationCheck < c.expires <= p.expires)
            && (p.plan.requiresApproval ==>
                  && HasApproval(a)
                  && var v := a.facts[a.record.approvalId.value].approval;
                  && v.previewId == p.id && v.previewRevision == p.revision
                  && w.log[j].approvalCheck < v.expires <= p.expires)
  {
    hide CallsOk, HistoryOk, RowsOk, Reachable, PreviewsNumbered, Trailed, SuccessProven, RecoveryTracked;
    ReachableOk(w);
    assert PortOk(w.store, w.log[j]);
    assert AggregateOk(w.store.aggregates[w.log[j].interactionId]);
  }

  /** An AUTHORIZED interaction as the gate reads it. */
  predicate AtGate(a: Aggregate, seen: Seen) {
    && CoreOk(a) && a.record.state.Authorized?
    && Accurate(a, seen)
    && Read(seen, a.record.previewId) && Read(seen, a.record.confirmationId) && Read(seen, a.record.approvalId)
  }

  /** Both gate readings are at or past the expiry of the current Preview. */
  predicate Late(a: Aggregate, env: Env)
    requires HasPreview(a)
  {
    env.confirmationCheck >= CurrentPreview(a).expires && env.approvalCheck >= CurrentPreview(a).expires
  }

  /** The gate refuses every late start exactly when the Preview asks for a confirmation or an approval:
      a Preview that asks for neither is executed however long after its expiry. */
  lemma GateHonoursExpiry(q: Request, a: Aggregate, seen: Seen)
    requires AtGate(a, seen)
    ensures (forall env: Env | Late(a, env) :: DecideGate(q, a.record, seen, env).Err?)
            <==> (CurrentPreview(a).plan.requiresConfirmation || CurrentPreview(a).plan.requiresApproval)
  {
    var p := CurrentPreview(a);
    assert PreviewIn(seen, a.record.previewId) == Some(p);
    if p.plan.requiresConfirmation || p.plan.requiresApproval {
      forall env: Env | Late(a, env)
        ensures DecideGate(q, a.record, seen, env).Err?
      {
        GateRefuses(q, a, seen, env);
      }
    } else {
      var env := Env("", "", "", 0, p.expires, p.expires, None, None, None, None);
      assert Late(a, env) && DecideGate(q, a.record, seen, env).Ok?;
    }
  }

  lemma GateRefuses(q: Request, a: Aggregate, seen: Seen, env: Env)
    requires AtGate(a, seen) && Late(a, env)
    requires CurrentPreview(a).plan.requiresConfirmation || CurrentPreview(a).plan.requiresApproval
    ensures DecideGate(q, a.record, seen, env).Err?
  {
    assert PreviewIn(seen, a.record.previewId) == Some(CurrentPreview(a));
  }

  // ---------- success only with proof ----------

  /** A SUCCEEDED interaction references a stored verification result with a digest, for its own execution,
      and stored commit evidence for its own interaction, execution, Preview, scope and policy; the evidence
      is COMMITTED with an object and a revision when the Preview requires a commit, else NOT_REQUIRED. */
  lemma SuccessIsProven(w: World, i: Id)
    requires Reachable(w) && i in w.store.aggregates
    requires w.store.aggregates[i].record.state.Succeeded?
    ensures var a := w.store.aggregates[i];
            && HasVerifiedResult(a)
            && HasCommitEvidence(a)
            && a.facts[a.record.verifiedResultId.value].result.commitEvidenceId == a.record.commitEvidenceId
            && a.record.verification.Verified? && a.record.execution.Completed?
  {
    hide CallsOk, HistoryOk, LogOk, RowsOk, Reachable, PreviewsNumbered, Trailed;
    ReachableOk(w);
    assert AggregateOk(w.store.aggregates[i]);
  }

  /** FAILED is exactly the end of an interaction whose port call was rejected or failed, and that is on record;
      until a verification completes it, the record tells the stored execution's status. */
  lemma FailedMeansRejected(w: World, i: Id)
    requires Reachable(w) && i in w.store.aggregates
    ensures var a := w.store.aggregates[i];
            && (a.record.state.Failed? <==>
                  && HasExecution(a)
                  && var x := a.facts[a.record.executionId.value].execution.status;
                  x.Rejected? || x.ExecutionFailed?)
            && (HasExecution(a) && !a.record.state.Succeeded? ==>
                  a.record.execution == a.facts[a.record.executionId.value].execution.status)
  {
    hide CallsOk, HistoryOk, LogOk, RowsOk, Reachable, PreviewsNumbered, Trailed, ConsentHeld, RecoveryTracked, SuccessProven;
    ReachableOk(w);
    assert AggregateOk(w.store.aggregates[i]);
  }

  // ---------- cancellation, expiry and terminal states ----------

  /** An interaction that is CANCELLED or EXPIRED never had the port called, and nobody is about to. */
  lemma CancelExcludesExecution(w: World, i: Id)
    requires Reachable(w) && i in w.store.aggregates
    requires w.store.aggregates[i].record.state.Cancelled? || w.store.aggregates[i].record.state.Expired?
    ensures forall j | 0 <= j < |w.log| :: w.log[j].interactionId != i
    ensures forall n :: !ArmedFor(w, n, i)
  {
    hide HistoryOk, RowsOk, Reachable, PreviewsNumbered, Trailed, SuccessProven, RecoveryTracked, ConsentHeld,
      CallsOk, LogOk;
    ReachableOk(w);
    assert AggregateOk(w.store.aggregates[i]);
    AttemptIsFree(w, i);
  }

  /** Between two worlds of a run: no interaction is lost, revisions and ranks never fall, and an
      interaction in a terminal state is never touched again. */
  predicate Advances(a: Aggregate, b: Aggregate) {
    && b.record.id == a.record.id && b.record.origin == a.record.origin
    && a.record.revision <= b.record.revision
    && Rank(a.record.state) <= Rank(b.record.state)
    && (a.record.revision == b.record.revision ==> a == b)
    && (Terminal(a.record.state) ==> a == b)
    && FactsKept(a, b)
  }

  predicate StoreAdvances(s: Store, t: Store) {
    && (forall i | i in s.aggregates :: i in t.aggregates && Advances(s.aggregates[i], t.aggregates[i]))
    && (forall k | k in s.rows ::
          && k in t.rows
          && t.rows[k].digest == s.rows[k].digest && t.rows[k].interactionId == s.rows[k].interactionId
          && (!k.operation.Execute? ==> t.rows[k] == s.rows[k]))
  }

  lemma SameAdvances(a: Aggregate)
    ensures Advances(a, a)
  {
    forall id | id in a.facts
      ensures SameFact(a.facts[id], a.facts[id])
    {
      SameFactReflexive(a.facts[id]);
    }
  }

  lemma SameFactTransitive(f: Fact, g: Fact, h: Fact)
    requires SameFact(f, g) && SameFact(g, h)
    ensures SameFact(f, h)
  {
  }

  lemma AdvancesTransitive(a: Aggregate, b: Aggregate, c: Aggregate)
    requires Advances(a, b) && Advances(b, c)
    ensures Advances(a, c)
  {
    forall id | id in a.facts
      ensures id in c.facts && SameFact(a.facts[id], c.facts[id])
    {
      SameFactTransitive(a.facts[id], b.facts[id], c.facts[id]);
    }
  }

  lemma EvolvedAdvances(a: Aggregate, b: Aggregate)
    requires Evolves(a, b)
    ensures Advances(a, b)
  {
  }

  lemma StepAdvances(w: World, step: Step)
    requires Inv(w) && Enabled(w, step)
    ensures StoreAdvances(w.store, Next(w, step).store)
  {
    hide Inv, Next, Enabled, Evolves, Advances;
    StepKeeps(w, step);
    var s, t := w.store, Next(w, step).store;
    forall i | i in s.aggregates
      ensures i in t.aggregates && Advances(s.aggregates[i], t.aggregates[i])
    {
      SameAdvances(s.aggregates[i]);
      if s != t && t.aggregates[i] != s.aggregates[i] {
        EvolvedAdvances(s.aggregates[i], t.aggregates[i]);
      }
    }
  }

  lemma StoreAdvancesTransitive(s: Store, t: Store, u: Store)
    requires StoreAdvances(s, t) && StoreAdvances(t, u)
    ensures StoreAdvances(s, u)
  {
    hide Advances;
    forall i | i in s.aggregates
      ensures i in u.aggregates && Advances(s.aggregates[i], u.aggregates[i])
    {
      AdvancesTransitive(s.aggregates[i], t.aggregates[i], u.aggregates[i]);
    }
  }

  /** Whatever happens after a reachable world, it only advances: terminal states absorb, no rank falls,
      no fact disappears or changes its content, and no answered key changes its answer. */
  lemma {:induction false} RunAdvances(w: World, steps: seq<Step>)
    requires Inv(w) && Valid(w, steps)
    ensures StoreAdvances(w.store, Run(w, steps).store)
    decreases |steps|
  {
    hide Inv, Enabled, Next, StoreAdvances;
    if steps == [] {
      SameStoreAdvances(w.store);
    } else {
      StepKeeps(w, steps[0]);
      StepAdvances(w, steps[0]);
      RunAdvances(Next(w, steps[0]), steps[1..]);
      StoreAdvancesTransitive(w.store, Next(w, steps[0]).store, Run(w, steps).store);
    }
  }

  lemma SameStoreAdvances(s: Store)
    ensures StoreAdvances(s, s)
  {
    hide Advances;
    forall i | i in s.aggregates
      ensures Advances(s.aggregates[i], s.aggregates[i])
    {
      SameAdvances(s.aggregates[i]);
    }
  }

  // ---------- the audit trail ----------

  /** In insertion order the audit rows are one connected path from REQUESTED to the stored state, and the
      stored revision counts the committed transactions, the opening one included. */
  lemma AuditTrailIsAPath(w: World, i: Id)
    requires Reachable(w) && i in w.store.aggregates
    ensures var a := w.store.aggregates[i];
            && |a.audits| > 0
            && a.audits[0].from.None? && a.audits[0].to.Requested?
            && (forall k | 0 < k < |a.audits| :: a.audits[k].from == Some(a.audits[k - 1].to))
            && a.audits[|a.audits| - 1].to == a.record.state
            && a.audits[|a.audits| - 1].revision == a.record.revision
            && a.record.revision == Count(w.history, i)
  {
    hide CallsOk, LogOk, RowsOk, Reachable, PreviewsNumbered, CoreOk, EventOk;
    ReachableOk(w);
    assert AggregateOk(w.store.aggregates[i]);
  }

  // ---------- structure ----------

  /** Preview revisions are exactly 1..n with the current one at n, and only the current one may be ACTIVE. */
  lemma PreviewsAreNumbered(w: World, i: Id)
    requires Reachable(w) && i in w.store.aggregates
    ensures var a := w.store.aggregates[i];
            && (forall k: nat :: HasRevision(a, k) <==> 1 <= k <= PreviewCount(a))
            && (forall id, id' | IsPreview(a, id) && IsPreview(a, id') ::
                  a.facts[id].preview.revision == a.facts[id'].preview.revision ==> id == id')
            && (forall id | IsPreview(a, id) && a.facts[id].preview.status.Active? :: a.record.previewId == Some(id))
  {
    hide CallsOk, LogOk, RowsOk, HistoryOk, Reachable, CoreOk, Trailed;
    ReachableOk(w);
    var a := w.store.aggregates[i];
    assert AggregateOk(a);
    forall k: nat
      ensures HasRevision(a, k) <==> 1 <= k <= PreviewCount(a)
    {
      if HasRevision(a, k) {
        var id :| IsPreview(a, id) && a.facts[id].preview.revision == k;
      }
    }
  }

  /** Every fact id on the record resolves to a stored fact of the right type, and RECOVERY_REQUIRED holds
      exactly when the referenced Recovery is PENDING. */
  lemma ReferencesResolve(w: World, i: Id)
    requires Reachable(w) && i in w.store.aggregates
    ensures var a := w.store.aggregates[i];
            && (a.record.previewId.Some? ==> HasPreview(a))
            && (a.record.confirmationId.Some? ==> HasConfirmation(a))
            && (a.record.approvalId.Some? ==> HasApproval(a))
            && (a.record.executionId.Some? ==> HasExecution(a))
            && (a.record.verifiedResultId.Some? ==> HasVerifiedResult(a))
            && (a.record.commitEvidenceId.Some? ==> HasCommitEvidence(a))
            && (a.record.recoveryId.Some? ==> HasRecovery(a))
            && (a.record.state.RecoveryRequired? <==>
                  HasRecovery(a) && a.facts[a.record.recoveryId.value].recovery.status.RecoveryPending?)
            && !a.record.state.Previewed?
  {
    hide CallsOk, LogOk, RowsOk, HistoryOk, Reachable, PreviewsNumbered, Trailed;
    ReachableOk(w);
    assert AggregateOk(w.store.aggregates[i]);
  }

  // ---------- what the view offers ----------

  datatype Offer = OfferStatus | OfferView | OfferPreview | OfferModify | OfferCancel | OfferConfirm
                 | OfferApprove | OfferExecute | OfferVerify | OfferRecover

  /** The operations `view` lists for an interaction. */
  function Offered(a: Aggregate): set<Offer> {
    var s := a.record.state;
    {OfferStatus, OfferView}
    + (if s.Requested? || s.Previewed? || s.AwaitingConfirmation? then {OfferPreview, OfferModify, OfferCancel} else {})
    + (if s.AwaitingConfirmation? then (if HasConfirmation(a) then {OfferApprove} else {OfferConfirm}) else {})
    + (if s.Authorized? then {OfferExecute, OfferCancel} else {})
    + (if s.Verifying? then {OfferVerify} else if s.RecoveryRequired? then {OfferRecover} else {})
  }

  /** The stage an offered operation starts with; recover starts at verification when nothing is open. */
  function StageOffered(o: Offer): Option<Stage> {
    match o
    case OfferPreview => Some(Previewing)
    case OfferModify => Some(Previewing)
    case OfferCancel => Some(Cancelling)
    case OfferConfirm => Some(Confirming)
    case OfferApprove => Some(Approving)
    case OfferExecute => Some(Gate)
    case OfferVerify => Some(Proving)
    case OfferRecover => Some(Proving)
    case _ => None
  }

  lemma OfferedGuards(a: Aggregate, o: Offer, q: Request)
    requires ConsentHeld(a) && ExecutionTracked(a)
    requires o in Offered(a) && StageOffered(o).Some? && q.actor == a.record.origin.actor
    ensures Guard(StageOffered(o).value, q, a.record.revision, a.record).None?
  {
  }

  /** Every mutating operation the view offers its owner passes that operation's guard at the viewed revision. */
  lemma OffersPassTheirGuards(w: World, i: Id, o: Offer, q: Request)
    requires Reachable(w) && i in w.store.aggregates
    requires o in Offered(w.store.aggregates[i]) && StageOffered(o).Some?
    requires q.actor == w.store.aggregates[i].record.origin.actor
    ensures var r := w.store.aggregates[i].record; Guard(StageOffered(o).value, q, r.revision, r).None?
  {
    hide CallsOk, LogOk, RowsOk, HistoryOk, Reachable, PreviewsNumbered, Trailed, ConsentHeld, ExecutionTracked,
      RecoveryTracked, SuccessProven, Keyed, Offered, Guard;
    ReachableOk(w);
    assert AggregateOk(w.store.aggregates[i]);
    OfferedGuards(w.store.aggregates[i], o, q);
  }

  /** What an offered confirm, approve or recover finds. */
  predicate OfferFits(a: Aggregate) {
    && (OfferConfirm in Offered(a) ==> HasPreview(a) && CurrentPreview(a).status.Active?)
    && (OfferApprove in Offered(a) ==>
          HasPreview(a) && CurrentPreview(a).status.Confirmed? && CurrentPreview(a).plan.requiresApproval)
    && (OfferRecover in Offered(a) ==> HasRecovery(a) && HasExecution(a))
  }

  lemma OfferedFits(a: Aggregate)
    requires Bound(a)
    ensures OfferFits(a)
  {
    hide SuccessProven;
  }

  /** An offered confirm or approve is for a Preview in the matching condition, an offered recover for an
      open Recovery. */
  lemma OffersMatchTheFacts(w: World, i: Id)
    requires Reachable(w) && i in w.store.aggregates
    ensures OfferFits(w.store.aggregates[i])
  {
    hide CallsOk, LogOk, RowsOk, HistoryOk, Reachable, PreviewsNumbered, Trailed, Bound, OfferFits, Keyed;
    ReachableOk(w);
    assert AggregateOk(w.store.aggregates[i]);
    OfferedFits(w.store.aggregates[i]);
  }

  /** What the owner sees offered is exactly what the lifecycle is waiting for: nothing that could be done is kept
      back, and nothing else is offered. */
  predicate OffersAreComplete(a: Aggregate) {
    var s, os := a.record.state, Offered(a);
    && OfferStatus in os && OfferView in os
    && (OfferPreview in os <==> s.Requested? || s.AwaitingConfirmation?)
    && (OfferModify in os <==> s.Requested? || s.AwaitingConfirmation?)
    && (OfferCancel in os <==> s.Requested? || s.AwaitingConfirmation? || s.Authorized?)
    && (OfferConfirm in os <==> s.AwaitingConfirmation? && HasPreview(a) && CurrentPreview(a).status.Active?)
    && (OfferApprove in os <==>
          s.AwaitingConfirmation? && HasPreview(a) && CurrentPreview(a).status.Confirmed?
          && CurrentPreview(a).plan.requiresApproval)
    && (OfferExecute in os <==> s.Authorized?)
    && (OfferVerify in os <==> s.Verifying?)
    && (OfferRecover in os <==> HasRecovery(a) && a.facts[a.record.recoveryId.value].recovery.status.RecoveryPending?)
  }

  lemma CompleteOffers(a: Aggregate)
    requires Bound(a)
    ensures OffersAreComplete(a)
  {
    hide SuccessProven, ExecutionTracked;
  }

  lemma OffersAreWhatIsAwaited(w: World, i: Id)
    requires Reachable(w) && i in w.store.aggregates
    ensures OffersAreComplete(w.store.aggregates[i])
  {
    hide CallsOk, LogOk, RowsOk, HistoryOk, Reachable, PreviewsNumbered, Trailed, Bound, OffersAreComplete, Keyed;
    ReachableOk(w);
    assert AggregateOk(w.store.aggregates[i]);
    CompleteOffers(w.store.aggregates[i]);
  }

  // ---------- replay ----------

  function ReplayedId(q: Request, r: Interaction): Option<Id> {
    if q.action.PreviewAction? then r.previewId
    else if q.action.ConfirmAction? then r.confirmationId else r.approvalId
  }

  predicate YieldsFact(q: Request) {
    q.action.PreviewAction? || q.action.ConfirmAction? || q.action.ApproveAction?
  }

  /** The caller whose commit won is answered with what every repetition will be answered with. */
  lemma FirstAnswerIsStored(w: World, n: nat, env: Env)
    requires Inv(w) && n in w.calls && w.calls[n].pc.Working?
    requires Needs(w.calls[n].pc.stage, w.calls[n].request, w.calls[n].pc.cur) <= w.calls[n].pc.seen.Keys
    requires NewEverywhere(w.store, env)
    requires CommitStep(w, n, env).calls[n].pc.Finished?
    requires CommitStep(w, n, env).calls[n].pc.answer.FactAnswer?
    ensures YieldsFact(w.calls[n].request)
    ensures var v, q := CommitStep(w, n, env), w.calls[n].request;
            && KeyOf(q) in v.store.rows && v.store.rows[KeyOf(q)].digest == DigestOf(q)
            && ReplayedId(q, v.store.rows[KeyOf(q)].result) == Some(v.calls[n].pc.answer.id)
  {
    hide StoreOk, LogOk, HistoryOk, Committable, Accurate, DecideCancel, DecideExpire, DecideGate, DecideObservation,
      DecideReconcile, DecideProof;
    var q, pc := w.calls[n].request, w.calls[n].pc;
    var d := Decide(pc.stage, q, pc.cur, pc.seen, env);
    WorkingCall(w.store, w.calls[n]);
    DecidedHeader(pc.stage, q, pc.cur, pc.seen, env, d.value);
  }

  /** A step that only reads changes no stored state, calls no port and commits nothing. */
  lemma ReadsChangeNothing(w: World, step: Step)
    requires Enabled(w, step) && (step.ReadRow? || step.ReadRecord? || step.ReadFact?)
    ensures Next(w, step).store == w.store && Next(w, step).log == w.log && Next(w, step).history == w.history
  {
    hide CommitStep, OpenStep, AfterReadRow, AfterReadRecord, AfterReadFact, NewEverywhere, Needs;
  }

  /** Repeating a request whose key has been used: the lookup finds the stored snapshot, and the fact it
      names is there; the internal assertion holds. */
  lemma RepetitionIsAnswered(s: Store, q: Request)
    requires RowsOk(s) && !Blank(q.key) && YieldsFact(q)
    requires KeyOf(q) in s.rows && s.rows[KeyOf(q)].digest == DigestOf(q)
    ensures AfterReadRow(s, q, Begin) == Replaying(s.rows[KeyOf(q)].result)
    ensures ReplayedId(q, s.rows[KeyOf(q)].result).Some?
    ensures ReplayAnswer(s, q, s.rows[KeyOf(q)].result) == FactAnswer(ReplayedId(q, s.rows[KeyOf(q)].result).value)
  {
    assert RowOk(s, KeyOf(q), s.rows[KeyOf(q)]);
  }

  /** Once a preview, confirmation or approval has been committed under a key, a repetition after any run
      is answered with the fact id the first caller got. */
  lemma SameAnswerForever(w: World, steps: seq<Step>, q: Request)
    requires Inv(w) && Valid(w, steps)
    requires !Blank(q.key) && YieldsFact(q)
    requires KeyOf(q) in w.store.rows && w.store.rows[KeyOf(q)].digest == DigestOf(q)
    ensures var s, r := Run(w, steps).store, w.store.rows[KeyOf(q)].result;
            && AfterReadRow(s, q, Begin) == Replaying(r)
            && ReplayedId(q, r).Some?
            && ReplayAnswer(s, q, r) == FactAnswer(ReplayedId(q, r).value)
  {
    hide Inv, Next, Enabled, Advances, RowsOk, AfterReadRow, ReplayAnswer;
    RunKeeps(w, steps);
    RunAdvances(w, steps);
    InvRows(Run(w, steps));
    RepetitionIsAnswered(Run(w, steps).store, q);
  }

  /** A used key stays used, for the same payload; of every operation but execute with the same snapshot. */
  lemma UsedForever(w: World, steps: seq<Step>, k: IdempotencyKey)
    requires Inv(w) && Valid(w, steps) && k in w.store.rows
    ensures var t := Run(w, steps).store;
            && k in t.rows && t.rows[k].digest == w.store.rows[k].digest
            && (!k.operation.Execute? ==> t.rows[k] == w.store.rows[k])
  {
    hide Inv, Next, Enabled, Advances;
    RunAdvances(w, steps);
  }

  /** The other operations answer a repetition, after any run, from the stored row in one lookup: cancel and
      expire with the snapshot that was stored first. */
  lemma RepetitionIsRecalled(w: World, steps: seq<Step>, q: Request, pc: Pc)
    requires Inv(w) && Valid(w, steps)
    requires pc.Begin? || pc.VerifyBegin?
    requires !Blank(q.key) && !YieldsFact(q)
    requires KeyOf(q) in w.store.rows && w.store.rows[KeyOf(q)].digest == DigestOf(q)
    ensures AfterReadRow(Run(w, steps).store, q, pc) == Finished(
              if q.action.CancelAction? || q.action.ExpireAction?
              then SnapshotAnswer(w.store.rows[KeyOf(q)].result) else StatusAnswer)
  {
    hide Inv, Next, Enabled, Run, Valid, DigestOf;
    UsedForever(w, steps, KeyOf(q));
  }

  /** Once a key was used, a different payload under it is refused for ever: at the lookup, and at the commit of
      a caller that looked before the key was used. */
  lemma OtherPayloadIsRefused(w: World, steps: seq<Step>, q: Request, pc: Pc, c: Commit)
    requires Inv(w) && Valid(w, steps)
    requires pc.Begin? || pc.VerifyBegin?
    requires !Blank(q.key)
    requires KeyOf(q) in w.store.rows && w.store.rows[KeyOf(q)].digest != DigestOf(q)
    requires RowKey(c) == KeyOf(q) && c.digest == DigestOf(q)
    ensures AfterReadRow(Run(w, steps).store, q, pc) == Finished(Failure(IdempotencyConflict))
    ensures Transition(Run(w, steps).store, c).Err?
  {
    hide Inv, Next, Enabled, Run, Valid, DigestOf, KeyOf, RowKey;
    UsedForever(w, steps, KeyOf(q));
  }

  /** What a request is remembered by: workspace, operation and key. */
  lemma KeysTellRequests(q: Request, r: Request)
    ensures KeyOf(q) == KeyOf(r) <==>
              && q.scope == r.scope && q.key == r.key
              && (q.action.PreviewAction? <==> r.action.PreviewAction?)
              && (q.action.ConfirmAction? <==> r.action.ConfirmAction?)
              && (q.action.ApproveAction? <==> r.action.ApproveAction?)
              && (q.action.CancelAction? <==> r.action.CancelAction?)
              && (q.action.ExpireAction? <==> r.action.ExpireAction?)
              && (q.action.ExecuteAction? <==> r.action.ExecuteAction?)
              && (q.action.VerifyAction? <==> r.action.VerifyAction?)
              && (q.action.RecoverAction? <==> r.action.RecoverAction?)
    ensures GapRowKey(q) == IdempotencyKey(q.scope, ReconcileExecution, q.key + ":execution-gap")
    ensures KeyOf(q).operation == match q.action
                                  case PreviewAction(_) => PreviewOp
                                  case ConfirmAction(_, _, _, _) => Confirm
                                  case ApproveAction(_, _, _, _, _) => Approve
                                  case CancelAction => Cancel
                                  case ExpireAction => Expire
                                  case ExecuteAction => Execute
                                  case VerifyAction => Verify
                                  case RecoverAction => Recover
  {
  }

  /** And by what its digest is of. A preview's: interaction, revision and the whole plan. A confirmation's: also
      who, where and for how long. An approval's: who, in which role, on what authority and for how long. The others':
      interaction and revision. */
  lemma DigestsTellPayloads(q: Request, r: Request)
    requires KeyOf(q) == KeyOf(r)
    ensures DigestOf(q) == DigestOf(r) <==>
              && q.interactionId == r.interactionId && q.expected == r.expected
              && match q.action
                 case PreviewAction(plan) => r.action == PreviewAction(plan)
                 case ConfirmAction(id, revision, ttl, _) =>
                   && q.actor == r.actor && q.scope == r.scope && r.action.ConfirmAction?
                   && r.action.previewId == id && r.action.previewRevision == revision && r.action.ttl == ttl
                 case ApproveAction(id, revision, role, presented, ttl) =>
                   q.actor == r.actor && r.action == ApproveAction(id, revision, role, presented, ttl)
                 case _ => true
  {
    KeysTellRequests(q, r);
  }

  lemma InvRows(w: World)
    requires Inv(w)
    ensures RowsOk(w.store)
  {
  }

  /** No key of any operation but execute commits twice, and an execution's key commits its gate and its
      observation, in consecutive revisions. */
  lemma OneCommitPerKey(w: World, j: nat, k: nat)
    requires Reachable(w)
    requires j < k < |w.history| && w.history[j].key == w.history[k].key
    ensures w.history[j].key.operation.Execute?
    ensures w.history[k].interactionId == w.history[j].interactionId
    ensures w.history[k].revision == w.history[j].revision + 1
  {
    hide StoreOk, CallsOk, LogOk, Reachable;
    ReachableOk(w);
    assert EventOk(w.store, w.history[j]) && EventOk(w.store, w.history[k]);
  }

  /** No caller ever trips the internal assertion that a replayed fact exists. */
  lemma AssertionsNeverFail(w: World, n: nat)
    requires Reachable(w) && n in w.calls && w.calls[n].pc.Finished?
    ensures !w.calls[n].pc.answer.AssertionFailed?
  {
    hide StoreOk, LogOk, HistoryOk, Reachable;
    ReachableOk(w);
    assert CallOk(w.store, w.calls[n]);
  }
}
