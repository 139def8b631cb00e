/** Consent is given once and on authority: no Preview is confirmed twice, and every Approval rests on matching
    evidence of the approval authority. */
module InteractionConsent {
  import opened Basics
  import opened InteractionModels
  import opened InteractionStore
  import opened InteractionDecisions
  import opened InteractionAggregates
  import opened InteractionRuns
  import opened InteractionProtocol
  import opened InteractionSafety

  /** The committed confirmation of a Preview. */
  predicate Confirms(e: Event, i: Id, previewId: Id) {
    e.key.operation.Confirm? && e.interactionId == i && e.digest.ConfirmDigest? && e.digest.previewId == previewId
  }

  /** The Preview an event confirmed is stored and no longer ACTIVE. */
  predicate NoLongerActive(s: Store, e: Event) {
    e.key.operation.Confirm? ==>
      && e.digest.ConfirmDigest? && e.interactionId in s.aggregates
      && IsPreview(s.aggregates[e.interactionId], e.digest.previewId)
      && !s.aggregates[e.interactionId].facts[e.digest.previewId].preview.status.Active?
  }

  ghost predicate ConfirmedOnce(s: Store, h: seq<Event>) {
    && (forall j | 0 <= j < |h| :: NoLongerActive(s, h[j]))
    && (forall j, k, i, p | 0 <= j < k < |h| && Confirms(h[j], i, p) :: !Confirms(h[k], i, p))
  }

  lemma StaysInactive(s: Store, t: Store, e: Event)
    requires NoLongerActive(s, e) && (s == t || StoreEvolves(s, t))
    ensures NoLongerActive(t, e)
  {
    if e.key.operation.Confirm? {
      var a, b := s.aggregates[e.interactionId], t.aggregates[e.interactionId];
      if a != b {
        assert SameFact(a.facts[e.digest.previewId], b.facts[e.digest.previewId]);
      }
    }
  }

  /** What a confirming commit finds and leaves: an ACTIVE Preview, then a CONFIRMED one. */
  lemma ConfirmingTurns(s: Store, q: Request, cur: Interaction, seen: Seen, env: Env, c: Commit)
    requires Decide(Confirming, q, cur, seen, env) == Ok(c) && Committable(s, c)
    requires cur.id in s.aggregates && Accurate(s.aggregates[cur.id], seen) && Keyed(s.aggregates[cur.id])
    requires NewIds(s.aggregates[cur.id], env)
    ensures c.operation.Confirm? && c.digest.ConfirmDigest? && c.next.id == cur.id
    ensures var a, p := s.aggregates[cur.id], c.digest.previewId;
            && IsPreview(a, p) && a.facts[p].preview.status.Active?
            && NoLongerActive(Written(s, c), EventOf(c))
  {
    var p := q.action.previewId;
    assert PreviewIn(seen, Some(p)).Some?;
    assert FactId(s.aggregates[cur.id].facts[p]) == p;
  }

  /** Only a confirming stage commits under a confirm key. */
  lemma OnlyConfirmingConfirms(stage: Stage, q: Request, cur: Interaction, seen: Seen, env: Env, c: Commit)
    requires Decide(stage, q, cur, seen, env) == Ok(c) && c.operation.Confirm?
    ensures stage.Confirming?
  {
    DecidedHeader(stage, q, cur, seen, env, c);
  }

  lemma QuietAppend(s: Store, t: Store, h: seq<Event>, e: Event)
    requires ConfirmedOnce(s, h) && !e.key.operation.Confirm? && (s == t || StoreEvolves(s, t))
    ensures ConfirmedOnce(t, h + [e])
  {
    hide StoreEvolves;
    forall j | 0 <= j < |h|
      ensures NoLongerActive(t, h[j])
    {
      StaysInactive(s, t, h[j]);
    }
  }

  lemma Later(s: Store, t: Store, h: seq<Event>)
    requires ConfirmedOnce(s, h) && (s == t || StoreEvolves(s, t))
    ensures ConfirmedOnce(t, h)
  {
    hide StoreEvolves;
    forall j | 0 <= j < |h|
      ensures NoLongerActive(t, h[j])
    {
      StaysInactive(s, t, h[j]);
    }
  }

  lemma ConfirmAppend(s: Store, t: Store, h: seq<Event>, e: Event)
    requires ConfirmedOnce(s, h) && (s == t || StoreEvolves(s, t)) && NoLongerActive(t, e)
    requires e.key.operation.Confirm? && e.digest.ConfirmDigest? && e.interactionId in s.aggregates
    requires IsPreview(s.aggregates[e.interactionId], e.digest.previewId)
    requires s.aggregates[e.interactionId].facts[e.digest.previewId].preview.status.Active?
    ensures ConfirmedOnce(t, h + [e])
  {
    Later(s, t, h);
    hide StoreEvolves;
    forall j, i, p | 0 <= j < |h| && Confirms(h[j], i, p)
      ensures !Confirms(e, i, p)
    {
      assert NoLongerActive(s, h[j]);
    }
  }

  lemma CommitKeepsOnce(w: World, n: nat, env: Env)
    requires Inv(w) && n in w.calls && w.calls[n].pc.Working?
    requires Needs(w.calls[n].pc.stage, w.calls[n].request, w.calls[n].pc.cur) <= w.calls[n].pc.seen.Keys
    requires NewEverywhere(w.store, env) && ConfirmedOnce(w.store, w.history)
    ensures ConfirmedOnce(CommitStep(w, n, env).store, CommitStep(w, n, env).history)
  {
    hide Inv, ConfirmedOnce, Committable, Written, Decide, StoreEvolves, Needs, NewEverywhere;
    var q, pc := w.calls[n].request, w.calls[n].pc;
    var d := Decide(pc.stage, q, pc.cur, pc.seen, env);
    if d.Ok? && Committable(w.store, d.value) {
      var c := d.value;
      WinnerKeeps(w, n, env, c);
      if c.operation.Confirm? {
        OnlyConfirmingConfirms(pc.stage, q, pc.cur, pc.seen, env, c);
        ConfirmerIsCurrent(w, n, env, c);
        ConfirmingTurns(w.store, q, pc.cur, pc.seen, env, c);
        ConfirmAppend(w.store, Written(w.store, c), w.history, EventOf(c));
      } else {
        QuietAppend(w.store, Written(w.store, c), w.history, EventOf(c));
      }
    }
  }

  /** Who wins a commit read what is stored. */
  lemma ConfirmerIsCurrent(w: World, n: nat, env: Env, c: Commit)
    requires Inv(w) && n in w.calls && w.calls[n].pc.Working? && NewEverywhere(w.store, env)
    requires Needs(w.calls[n].pc.stage, w.calls[n].request, w.calls[n].pc.cur) <= w.calls[n].pc.seen.Keys
    requires Decide(w.calls[n].pc.stage, w.calls[n].request, w.calls[n].pc.cur, w.calls[n].pc.seen, env) == Ok(c)
    requires Committable(w.store, c)
    ensures var cur := w.calls[n].pc.cur;
            && cur.id in w.store.aggregates
            && Accurate(w.store.aggregates[cur.id], w.calls[n].pc.seen) && Keyed(w.store.aggregates[cur.id])
            && NewIds(w.store.aggregates[cur.id], env)
  {
    hide Decide, LogOk, HistoryOk, RowsOk, PreviewsNumbered, Trailed, Bound;
    var q, pc := w.calls[n].request, w.calls[n].pc;
    assert CallOk(w.store, w.calls[n]);
    DecidedHeader(pc.stage, q, pc.cur, pc.seen, env, c);
    WinnerIsReady(w.store, q, pc.stage, pc.cur, pc.seen, env, c);
  }

  lemma StepKeepsOnce(w: World, step: Step)
    requires Inv(w) && Enabled(w, step) && ConfirmedOnce(w.store, w.history)
    ensures ConfirmedOnce(Next(w, step).store, Next(w, step).history)
  {
    hide Inv, ConfirmedOnce, CommitStep, AfterReadRow, AfterReadRecord, AfterReadFact, NewEverywhere, Needs, StoreEvolves;
    if step.Commits? {
      CommitKeepsOnce(w, step.call, step.env);
    } else {
      StepKeeps(w, step);
      if step.Open? && OpenStep(w, step.origin, step.key, step.id) != w {
        QuietAppend(w.store, Next(w, step).store, w.history, OpenEvent(step.origin, step.key, step.id));
      } else {
        Later(w.store, Next(w, step).store, w.history);
      }
    }
  }

  lemma {:induction false} RunKeepsOnce(w: World, steps: seq<Step>)
    requires Inv(w) && Valid(w, steps) && ConfirmedOnce(w.store, w.history)
    ensures ConfirmedOnce(Run(w, steps).store, Run(w, steps).history)
    decreases |steps|
  {
    hide Inv, Enabled, Next, ConfirmedOnce;
    if steps == [] {
    } else {
      StepKeeps(w, steps[0]);
      StepKeepsOnce(w, steps[0]);
      RunKeepsOnce(Next(w, steps[0]), steps[1..]);
    }
  }

  /** Over every run a Preview is confirmed at most once, by whichever callers and keys. */
  lemma PreviewConfirmedOnce(w: World, i: Id, p: Id, j: nat, k: nat)
    requires Reachable(w) && j < |w.history| && k < |w.history|
    requires Confirms(w.history[j], i, p) && Confirms(w.history[k], i, p)
    ensures j == k
  {
    hide Inv, Valid, Run;
    StartOk();
    assert ConfirmedOnce(START.store, START.history);
    var steps :| Valid(START, steps) && Run(START, steps) == w;
    RunKeepsOnce(START, steps);
  }

  /** The Approval a commit stores, and the evidence it rests on. */
  predicate RestsOn(v: Approval, e: AuthorityEvidence, i: Id, origin: Origin) {
    && e.interactionId == i && e.previewId == v.previewId && e.previewRevision == v.previewRevision
    && e.scope == origin.scope && e.policy == origin.policy == v.policy
    && e.approver == v.approver && e.role == v.role && e.id == v.authorityId
    && e.digest != "" && v.created < e.expires && v.expires <= e.expires
  }

  /** An approval that commits stores an Approval of the current Preview that rests on evidence the authority gave
      for exactly this interaction, Preview, scope, approver, role and policy, was given while Preview and
      Confirmation were unexpired, and outlives neither. */
  lemma ApprovalRestsOnAuthority(w: World, n: nat, env: Env)
    requires Inv(w) && n in w.calls && w.calls[n].pc.Working? && w.calls[n].pc.stage.Approving?
    requires Needs(Approving, w.calls[n].request, w.calls[n].pc.cur) <= w.calls[n].pc.seen.Keys
    requires NewEverywhere(w.store, env)
    requires CommitStep(w, n, env).store != w.store
    ensures w.calls[n].pc.cur.id in w.store.aggregates && env.authority.Some?
    ensures var i := w.calls[n].pc.cur.id; var a := w.store.aggregates[i];
            && i in CommitStep(w, n, env).store.aggregates
            && var b := CommitStep(w, n, env).store.aggregates[i];
            && HasPreview(a) && HasConfirmation(a) && HasApproval(b)
            && var v := b.facts[b.record.approvalId.value].approval;
            && RestsOn(v, env.authority.value, i, a.record.origin)
            && v.approver == w.calls[n].request.actor
            && CurrentPreview(a).plan.requiresApproval
            && v.created < CurrentPreview(a).expires
            && v.created < a.facts[a.record.confirmationId.value].confirmation.expires
  {
    hide Inv, Decide, Committable, StoreEvolves, NewEverywhere, Needs, Written;
    var q, pc := w.calls[n].request, w.calls[n].pc;
    var d := Decide(pc.stage, q, pc.cur, pc.seen, env);
    assert d.Ok? && Committable(w.store, d.value);
    ApproverIsReady(w, n, env, d.value);
    ApprovingStores(w.store, q, pc.cur, pc.seen, env, d.value);
  }

  lemma ApproverIsReady(w: World, n: nat, env: Env, c: Commit)
    requires Inv(w) && n in w.calls && w.calls[n].pc.Working? && NewEverywhere(w.store, env)
    requires Needs(w.calls[n].pc.stage, w.calls[n].request, w.calls[n].pc.cur) <= w.calls[n].pc.seen.Keys
    requires Decide(w.calls[n].pc.stage, w.calls[n].request, w.calls[n].pc.cur, w.calls[n].pc.seen, env) == Ok(c)
    requires Committable(w.store, c)
    ensures var pc := w.calls[n].pc;
            && pc.cur.id in w.store.aggregates && pc.cur == w.store.aggregates[pc.cur.id].record
            && pc.cur.id == w.calls[n].request.interactionId
            && Ready(pc.stage, w.calls[n].request, w.store.aggregates[pc.cur.id], pc.seen, env)
  {
    hide Decide, LogOk, HistoryOk, RowsOk, PreviewsNumbered, Trailed, CoreOk;
    var q, pc := w.calls[n].request, w.calls[n].pc;
    assert CallOk(w.store, w.calls[n]);
    DecidedHeader(pc.stage, q, pc.cur, pc.seen, env, c);
    WinnerIsReady(w.store, q, pc.stage, pc.cur, pc.seen, env, c);
  }

  lemma ApprovingStores(s: Store, q: Request, cur: Interaction, seen: Seen, env: Env, c: Commit)
    requires Decide(Approving, q, cur, seen, env) == Ok(c) && Committable(s, c)
    requires cur.id in s.aggregates && cur == s.aggregates[cur.id].record && cur.id == q.interactionId
    requires Ready(Approving, q, s.aggregates[cur.id], seen, env)
    ensures env.authority.Some? && cur.id in Written(s, c).aggregates
    ensures var a, b := s.aggregates[cur.id], Written(s, c).aggregates[cur.id];
            && HasPreview(a) && HasConfirmation(a) && HasApproval(b)
            && var v := b.facts[b.record.approvalId.value].approval;
            && RestsOn(v, env.authority.value, cur.id, a.record.origin)
            && v.approver == q.actor && CurrentPreview(a).plan.requiresApproval
            && v.created < CurrentPreview(a).expires
            && v.created < a.facts[a.record.confirmationId.value].confirmation.expires
  {
    ApprovingBinds(q, s.aggregates[cur.id], seen, env, c);
    assert c.next.id == cur.id;
    assert Written(s, c).aggregates[cur.id] == Apply(s.aggregates[cur.id], c);
    hide Committable, Written, RecoveryTracked, SuccessProven, ExecutionTracked;
  }
}
