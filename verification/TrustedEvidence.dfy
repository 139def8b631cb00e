/** Trusted ingress evidence and confirmation challenges: each is spent at most once, both together,
    and only by the committed confirmation they were spent on. */
module TrustedEvidence {
  import opened Basics
  import opened InteractionModels
  import opened InteractionStore
  import opened InteractionDecisions
  import opened InteractionAggregates
  import opened InteractionRuns
  import opened InteractionProtocol
  import opened InteractionSafety

  predicate Spends(e: Event, id: Id) {
    e.consumption.Some? && e.consumption.value.evidenceId == id
  }

  predicate Answers(e: Event, id: Id) {
    e.consumption.Some? && e.consumption.value.challengeId == id
  }

  /** How often an evidence row was spent. */
  function TimesSpent(h: seq<Event>, id: Id): nat {
    if h == [] then 0 else TimesSpent(h[..|h| - 1], id) + if Spends(h[|h| - 1], id) then 1 else 0
  }

  /** How often a challenge was answered. */
  function TimesAnswered(h: seq<Event>, id: Id): nat {
    if h == [] then 0 else TimesAnswered(h[..|h| - 1], id) + if Answers(h[|h| - 1], id) then 1 else 0
  }

  /** A spending event is a confirmation, and both rows it spent say so. */
  predicate SpentTogether(s: Store, e: Event) {
    e.consumption.Some? ==>
      var u := e.consumption.value;
      && e.key.operation.Confirm?
      && u.evidenceId in s.evidence
      && s.evidence[u.evidenceId].consumed == Some((e.interactionId, u.previewId, u.previewRevision))
      && u.challengeId in s.challenges
      && var h := s.challenges[u.challengeId];
      && !h.active
      && h.interactionId == e.interactionId && h.previewId == u.previewId
      && h.previewRevision == u.previewRevision && h.interactionRevision + 1 == e.revision
  }

  /** The rows say exactly how often, and on what, they were spent. */
  ghost predicate Ledger(s: Store, h: seq<Event>) {
    && (forall id | id in s.evidence ::
          && TimesSpent(h, id) == (if s.evidence[id].consumed.Some? then 1 else 0)
          && s.evidence[id].revision == 1 + TimesSpent(h, id))
    && (forall id | id in s.challenges :: TimesAnswered(h, id) == if s.challenges[id].active then 0 else 1)
    && (forall j | 0 <= j < |h| :: SpentTogether(s, h[j]))
  }

  /** The Confirmation a spending event committed is for the Preview the evidence was spent on. */
  predicate ConfirmationRecorded(s: Store, e: Event) {
    e.consumption.Some? ==>
      var u := e.consumption.value;
      && e.key in s.rows && e.interactionId in s.aggregates
      && var a, id := s.aggregates[e.interactionId], s.rows[e.key].result.confirmationId;
      && IsFact(a, id) && a.facts[id.value].ConfirmationFact?
      && a.facts[id.value].confirmation.previewId == u.previewId
      && a.facts[id.value].confirmation.previewRevision == u.previewRevision
  }

  lemma SpentAppend(h: seq<Event>, e: Event, id: Id)
    ensures TimesSpent(h + [e], id) == TimesSpent(h, id) + if Spends(e, id) then 1 else 0
    ensures TimesAnswered(h + [e], id) == TimesAnswered(h, id) + if Answers(e, id) then 1 else 0
  {
    assert (h + [e])[..|h|] == h;
  }

  lemma {:induction false} NeverSpent(h: seq<Event>, id: Id)
    requires forall j | 0 <= j < |h| :: !Spends(h[j], id)
    ensures TimesSpent(h, id) == 0
  {
    if h == [] {
    } else {
      NeverSpent(h[..|h| - 1], id);
    }
  }

  lemma {:induction false} NeverAnswered(h: seq<Event>, id: Id)
    requires forall j | 0 <= j < |h| :: !Answers(h[j], id)
    ensures TimesAnswered(h, id) == 0
  {
    if h == [] {
    } else {
      NeverAnswered(h[..|h| - 1], id);
    }
  }

  // ---------- the ledger is kept ----------

  lemma CommitKeepsLedger(s: Store, h: seq<Event>, c: Commit)
    requires Ledger(s, h) && Committable(s, c)
    requires c.consumption.Some? ==> c.operation.Confirm?
    requires c.next.revision == c.expected + 1
    ensures Ledger(Written(s, c), h + [EventOf(c)])
  {
    var t, e := Written(s, c), EventOf(c);
    forall id | id in t.evidence
      ensures TimesSpent(h + [e], id) == (if t.evidence[id].consumed.Some? then 1 else 0)
      ensures t.evidence[id].revision == 1 + TimesSpent(h + [e], id)
    {
      SpentAppend(h, e, id);
    }
    forall id | id in t.challenges
      ensures TimesAnswered(h + [e], id) == if t.challenges[id].active then 0 else 1
    {
      SpentAppend(h, e, id);
    }
    forall j | 0 <= j < |h|
      ensures SpentTogether(t, h[j])
    {
      assert SpentTogether(s, h[j]);
    }
    assert SpentTogether(t, e);
  }

  lemma QuietEventKeepsLedger(s: Store, t: Store, h: seq<Event>, e: Event)
    requires Ledger(s, h) && e.consumption.None?
    requires t.evidence == s.evidence && t.challenges == s.challenges
    ensures Ledger(t, h + [e])
  {
    forall id
      ensures TimesSpent(h + [e], id) == TimesSpent(h, id)
      ensures TimesAnswered(h + [e], id) == TimesAnswered(h, id)
    {
      SpentAppend(h, e, id);
    }
    forall j | 0 <= j < |h|
      ensures SpentTogether(t, h[j])
    {
      assert SpentTogether(s, h[j]);
    }
  }

  lemma AcceptKeepsLedger(s: Store, h: seq<Event>, id: Id, payload: string, now: Time)
    requires Ledger(s, h) && AcceptEvidence(s, id, payload, now).Ok?
    ensures Ledger(AcceptEvidence(s, id, payload, now).value, h)
  {
    var t := AcceptEvidence(s, id, payload, now).value;
    forall j | 0 <= j < |h|
      ensures SpentTogether(t, h[j]) && (id !in s.evidence ==> !Spends(h[j], id))
    {
      assert SpentTogether(s, h[j]);
    }
    if id !in s.evidence {
      NeverSpent(h, id);
    }
  }

  lemma ChallengeKeepsLedger(s: Store, h: seq<Event>, id: Id, row: ChallengeRow)
    requires Ledger(s, h) && IssueChallenge(s, id, row).Ok?
    ensures Ledger(IssueChallenge(s, id, row).value, h)
  {
    var t := IssueChallenge(s, id, row).value;
    forall j | 0 <= j < |h|
      ensures SpentTogether(t, h[j]) && !Answers(h[j], id)
    {
      assert SpentTogether(s, h[j]);
    }
    NeverAnswered(h, id);
  }

  lemma CommitStepKeepsLedger(w: World, n: nat, env: Env)
    requires n in w.calls && w.calls[n].pc.Working?
    requires Ledger(w.store, w.history)
    ensures Ledger(CommitStep(w, n, env).store, CommitStep(w, n, env).history)
  {
    hide Ledger, Committable, Written, Decide;
    var q, pc := w.calls[n].request, w.calls[n].pc;
    var d := Decide(pc.stage, q, pc.cur, pc.seen, env);
    if d.Ok? && Committable(w.store, d.value) {
      DecidedHeader(pc.stage, q, pc.cur, pc.seen, env, d.value);
      CommitKeepsLedger(w.store, w.history, d.value);
    }
  }

  lemma StepKeepsLedger(w: World, step: Step)
    requires Enabled(w, step) && Ledger(w.store, w.history)
    ensures Ledger(Next(w, step).store, Next(w, step).history)
  {
    hide Ledger, CommitStep, AfterReadRow, AfterReadRecord, AfterReadFact, NewEverywhere, Needs;
    match step
    case Open(origin, key, id) =>
      if OpenStep(w, origin, key, id) != w {
        QuietEventKeepsLedger(w.store, OpenedStore(w.store, origin, key, id), w.history, OpenEvent(origin, key, id));
      }
    case Commits(n, env) => CommitStepKeepsLedger(w, n, env);
    case Accept(id, payload, now) =>
      if AcceptEvidence(w.store, id, payload, now).Ok? {
        AcceptKeepsLedger(w.store, w.history, id, payload, now);
      }
    case Challenge(id, row) =>
      if IssueChallenge(w.store, id, row).Ok? {
        ChallengeKeepsLedger(w.store, w.history, id, row);
      }
    case _ =>
  }

  // ---------- the confirmation that was committed ----------

  /** A commit that spends evidence stores a Confirmation for the very Preview the evidence is spent on. */
  lemma SpendingConfirms(stage: Stage, q: Request, cur: Interaction, seen: Seen, env: Env, c: Commit)
    requires Decide(stage, q, cur, seen, env) == Ok(c) && c.consumption.Some?
    ensures c.next.confirmationId == Some(env.id0)
    ensures env.id0 in c.facts && c.facts[env.id0].ConfirmationFact?
    ensures c.facts[env.id0].confirmation.previewId == c.consumption.value.previewId
    ensures c.facts[env.id0].confirmation.previewRevision == c.consumption.value.previewRevision
  {
    DecidedHeader(stage, q, cur, seen, env, c);
  }

  lemma RecordLasts(s: Store, t: Store, e: Event)
    requires ConfirmationRecorded(s, e) && StoreEvolves(s, t)
    requires e.consumption.Some? ==> e.key.operation.Confirm?
    ensures ConfirmationRecorded(t, e)
  {
    if e.consumption.Some? {
      var a, b, id := s.aggregates[e.interactionId], t.aggregates[e.interactionId], s.rows[e.key].result.confirmationId;
      if a != b {
        assert SameFact(a.facts[id.value], b.facts[id.value]);
      }
    }
  }

  ghost predicate Recorded(s: Store, h: seq<Event>) {
    forall j | 0 <= j < |h| :: ConfirmationRecorded(s, h[j])
  }

  lemma RecordsLast(s: Store, t: Store, h: seq<Event>)
    requires Recorded(s, h) && Ledger(s, h)
    requires s == t || StoreEvolves(s, t)
    ensures Recorded(t, h)
  {
    hide ConfirmationRecorded, StoreEvolves;
    forall j | 0 <= j < |h|
      ensures ConfirmationRecorded(t, h[j])
    {
      assert SpentTogether(s, h[j]);
      if s != t {
        RecordLasts(s, t, h[j]);
      }
    }
  }

  lemma NewRecord(s: Store, stage: Stage, q: Request, cur: Interaction, seen: Seen, env: Env, c: Commit)
    requires Decide(stage, q, cur, seen, env) == Ok(c) && Committable(s, c)
    ensures ConfirmationRecorded(Written(s, c), EventOf(c))
  {
    hide Decide;
    if c.consumption.Some? {
      SpendingConfirms(stage, q, cur, seen, env, c);
    }
  }

  lemma CommitStepRecords(w: World, n: nat, env: Env)
    requires Inv(w) && n in w.calls && w.calls[n].pc.Working?
    requires Needs(w.calls[n].pc.stage, w.calls[n].request, w.calls[n].pc.cur) <= w.calls[n].pc.seen.Keys
    requires NewEverywhere(w.store, env)
    requires Ledger(w.store, w.history) && Recorded(w.store, w.history)
    ensures Recorded(CommitStep(w, n, env).store, CommitStep(w, n, env).history)
  {
    hide Ledger, Committable, Written, Decide, Inv, StoreEvolves, Needs, NewEverywhere, ConfirmationRecorded;
    var q, pc := w.calls[n].request, w.calls[n].pc;
    var d := Decide(pc.stage, q, pc.cur, pc.seen, env);
    if d.Ok? && Committable(w.store, d.value) {
      WinnerKeeps(w, n, env, d.value);
      RecordsLast(w.store, Written(w.store, d.value), w.history);
      NewRecord(w.store, pc.stage, q, pc.cur, pc.seen, env, d.value);
    }
  }

  lemma StepRecords(w: World, step: Step)
    requires Inv(w) && Enabled(w, step) && Ledger(w.store, w.history) && Recorded(w.store, w.history)
    ensures Recorded(Next(w, step).store, Next(w, step).history)
  {
    hide Inv, Ledger, CommitStep, AfterReadRow, AfterReadRecord, AfterReadFact, NewEverywhere, Needs,
      StoreEvolves, ConfirmationRecorded;
    if step.Commits? {
      CommitStepRecords(w, step.call, step.env);
    } else {
      StepKeeps(w, step);
      RecordsLast(w.store, Next(w, step).store, w.history);
      if step.Open? {
        QuietRecord(Next(w, step).store, OpenEvent(step.origin, step.key, step.id));
      }
    }
  }

  lemma QuietRecord(s: Store, e: Event)
    requires e.consumption.None?
    ensures ConfirmationRecorded(s, e)
  {
  }

  lemma {:induction false} RunKeepsLedger(w: World, steps: seq<Step>)
    requires Inv(w) && Valid(w, steps) && Ledger(w.store, w.history) && Recorded(w.store, w.history)
    ensures Ledger(Run(w, steps).store, Run(w, steps).history)
    ensures Recorded(Run(w, steps).store, Run(w, steps).history)
    decreases |steps|
  {
    hide Inv, Enabled, Next, Ledger, Recorded;
    if steps == [] {
    } else {
      StepKeeps(w, steps[0]);
      StepKeepsLedger(w, steps[0]);
      StepRecords(w, steps[0]);
      RunKeepsLedger(Next(w, steps[0]), steps[1..]);
    }
  }

  /** In every reachable world an evidence row and a challenge are each spent at most once, by committed
      confirmations of the interaction and Preview they name, and always together. */
  lemma EvidenceSpentOnce(w: World)
    requires Reachable(w)
    ensures Ledger(w.store, w.history) && Recorded(w.store, w.history)
  {
    hide Inv, Valid, Run, Ledger, Recorded;
    StartOk();
    StartLedger();
    var steps :| Valid(START, steps) && Run(START, steps) == w;
    RunKeepsLedger(START, steps);
  }

  lemma StartLedger()
    ensures Ledger(START.store, START.history) && Recorded(START.store, START.history)
  {
  }

  /** Two different committed confirmations never share an evidence row or a challenge. */
  lemma {:induction false} SpentByOne(h: seq<Event>, id: Id, j: nat, k: nat)
    requires j < k < |h| && Spends(h[j], id) && Spends(h[k], id)
    ensures TimesSpent(h, id) >= 2
  {
    var p := h[..|h| - 1];
    if k == |h| - 1 {
      SpentAtLeastOnce(p, id, j);
    } else {
      SpentByOne(p, id, j, k);
    }
  }

  lemma {:induction false} SpentAtLeastOnce(h: seq<Event>, id: Id, j: nat)
    requires j < |h| && Spends(h[j], id)
    ensures TimesSpent(h, id) >= 1
  {
    if j == |h| - 1 {
    } else {
      SpentAtLeastOnce(h[..|h| - 1], id, j);
    }
  }

  /** An attempt that does not commit leaves the evidence, the challenge and the interaction as they were. */
  lemma FailedAttemptSpendsNothing(w: World, n: nat, env: Env)
    requires n in w.calls && w.calls[n].pc.Working?
    requires CommitStep(w, n, env).calls[n].pc.Finished? && CommitStep(w, n, env).calls[n].pc.answer.Failure?
    ensures CommitStep(w, n, env).store == w.store
    ensures CommitStep(w, n, env).history == w.history
  {
    hide Decide, Committable, Written;
  }

  // ---------- what comes in ----------

  /** Evidence under a new id is stored as it came, unused; under a known id nothing changes, whatever its text. A
      challenge under a new id is open; and neither touches an interaction. */
  lemma ComesInUnused(w: World, id: Id, payload: string, now: Time, row: ChallengeRow)
    ensures var u := Next(w, Accept(id, payload, now));
            u == w.(store := w.store.(evidence :=
                   if id in w.store.evidence then w.store.evidence
                   else w.store.evidence[id := EvidenceRow(payload, now, 1, None)]))
    ensures AcceptEvidence(w.store, id, payload, now).Ok? <==>
              (id in w.store.evidence ==> w.store.evidence[id].payload == payload)
    ensures var u := Next(w, Challenge(id, row));
            u == w.(store := w.store.(challenges :=
                   if id in w.store.challenges then w.store.challenges
                   else w.store.challenges[id := ChallengeRow(
                          row.interactionId, row.previewId, row.previewRevision, row.interactionRevision, row.text,
                          row.created, row.expires, true)]))
  {
    hide CommitStep, AfterReadRow, AfterReadRecord, AfterReadFact, OpenStep;
  }
}
