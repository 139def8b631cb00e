/** What each operation answers, and what it stores, when nobody disturbs it: told on the request, the clock
    readings, the answers of the ports and the stored facts. */
module InteractionAnswers {
  import opened Basics
  import opened Texts
  import opened InteractionModels
  import opened InteractionStore
  import opened InteractionDecisions
  import opened InteractionAggregates
  import opened InteractionRuns
  import opened InteractionProtocol
  import opened InteractionSafety
  import opened InteractionRetries

  /** A request under a new key for an interaction of its workspace, from its lookup on. */
  ghost predicate Asked(w: World, n: nat, q: Request, env: Env) {
    && Inv(w) && n in w.calls
    && w.calls[n] == Call(q, if q.action.VerifyAction? then VerifyBegin(q.expected) else Begin)
    && !Blank(q.key) && KeyOf(q) !in w.store.rows
    && q.interactionId in w.store.aggregates
    && w.store.aggregates[q.interactionId].record.origin.scope == q.scope
    && NewEverywhere(w.store, env)
  }

  /** The call has ended with this answer, and the port was not called. */
  predicate Answered(w: World, n: nat, v: World, answer: Answer) {
    n in v.calls && v.calls[n].pc == Finished(answer) && v.log == w.log
  }

  predicate RefusedWith(w: World, n: nat, v: World, e: Error) {
    Answered(w, n, v, Failure(e)) && v.store == w.store
  }

  /** This record is stored, these facts were written and these audit rows added; no other interaction changed. */
  predicate Stored(s: Store, t: Store, i: Id, r: Interaction, facts: map<Id, Fact>, rows: seq<Audit>) {
    && i in s.aggregates && i in t.aggregates && t.aggregates.Keys == s.aggregates.Keys
    && (forall j | j in s.aggregates && j != i :: t.aggregates[j] == s.aggregates[j])
    && t.aggregates[i].record == r
    && t.aggregates[i].facts == s.aggregates[i].facts + facts
    && t.aggregates[i].audits == s.aggregates[i].audits + rows
  }

  /** And no evidence was used up. */
  predicate Became(s: Store, t: Store, i: Id, r: Interaction, facts: map<Id, Fact>, rows: seq<Audit>) {
    Stored(s, t, i, r, facts, rows) && t.evidence == s.evidence && t.challenges == s.challenges
  }

  /** The one audit row of a change, under the key that was used. */
  function Entry(before: Interaction, after: Interaction, key: string): seq<Audit> {
    [Audit(Some(before.state), after.state, after.revision, key)]
  }

  // ---------- one stage, undisturbed ----------

  /** What the store says of these ids. */
  function Readings(a: Aggregate, ids: set<Id>): Seen {
    map id | id in ids :: if id in a.facts then Some(a.facts[id]) else None
  }

  lemma ReadsOne(w: World, n: nat, q: Request, stage: Stage, a: Aggregate, done: set<Id>, id: Id, v: World)
    requires n in w.calls && w.calls[n] == Call(q, Working(stage, a.record, Readings(a, done)))
    requires q.interactionId in w.store.aggregates && w.store.aggregates[q.interactionId] == a
    requires Alone(Moved(w, n, Working(stage, a.record, Readings(a, done + {id}))), n, v)
    ensures Alone(w, n, v)
  {
    hide Alone;
    assert Readings(a, done)[id := Lookup(w.store, q.interactionId, id)] == Readings(a, done + {id});
    AloneReadsFact(w, n, id, Working(stage, a.record, Readings(a, done + {id})), v);
  }

  lemma SameMove(w: World, n: nat, pc: Pc, pc': Pc)
    requires n in w.calls
    ensures Moved(Moved(w, n, pc), n, pc') == Moved(w, n, pc')
    ensures Moved(w, n, pc).store == w.store && n in Moved(w, n, pc).calls
    ensures Moved(w, n, pc).calls[n] == Call(w.calls[n].request, pc)
    ensures w.calls[n].pc == pc ==> Moved(w, n, pc) == w
  {
  }

  lemma {:induction false} ReadsFacts(w: World, n: nat, q: Request, stage: Stage, a: Aggregate,
                                done: set<Id>, todo: set<Id>, v: World)
    requires n in w.calls && w.calls[n] == Call(q, Working(stage, a.record, Readings(a, done)))
    requires q.interactionId in w.store.aggregates && w.store.aggregates[q.interactionId] == a
    requires Alone(Moved(w, n, Working(stage, a.record, Readings(a, done + todo))), n, v)
    ensures Alone(w, n, v)
    decreases |todo|
  {
    hide *;
    if todo == {} {
      assert done + todo == done;
      SameMove(w, n, Working(stage, a.record, Readings(a, done)), Begin);
    } else {
      var id :| id in todo;
      var pc := Working(stage, a.record, Readings(a, done + {id}));
      assert (done + {id}) + (todo - {id}) == done + todo;
      SameMove(w, n, pc, Working(stage, a.record, Readings(a, done + todo)));
      ReadsFacts(Moved(w, n, pc), n, q, stage, a, done + {id}, todo - {id}, v);
      ReadsOne(w, n, q, stage, a, done, id, v);
    }
  }

  /** The facts are read and the commit is tried. */
  lemma StageEnds(w: World, n: nat, q: Request, stage: Stage, a: Aggregate, env: Env) returns (v: World)
    requires n in w.calls && w.calls[n] == Call(q, Working(stage, a.record, map[]))
    requires q.interactionId in w.store.aggregates && w.store.aggregates[q.interactionId] == a
    requires NewEverywhere(w.store, env)
    ensures Alone(w, n, v)
    ensures v == CommitStep(Moved(w, n, Working(stage, a.record, Readings(a, Needs(stage, q, a.record)))), n, env)
  {
    hide Alone, NewEverywhere, Needs, CommitStep;
    var seen := Readings(a, Needs(stage, q, a.record));
    var u := Moved(w, n, Working(stage, a.record, seen));
    v := CommitStep(u, n, env);
    AloneHere(v, n);
    AloneStep(u, n, Commits(n, env), v);
    assert Readings(a, {}) == map[] && {} + Needs(stage, q, a.record) == Needs(stage, q, a.record);
    ReadsFacts(w, n, q, stage, a, {}, Needs(stage, q, a.record), v);
  }

  lemma CommitStepTells(w: World, n: nat, q: Request, stage: Stage, a: Aggregate, seen: Seen, env: Env)
    requires n in w.calls && q.interactionId in w.store.aggregates && w.store.aggregates[q.interactionId] == a
    requires w.calls[n].request == q && a.record.id == q.interactionId && a.record.origin.scope == q.scope
    requires !stage.Reconciling?
    requires KeyOf(q) in w.store.rows ==>
               w.store.rows[KeyOf(q)].digest == DigestOf(q) && w.store.rows[KeyOf(q)].interactionId == q.interactionId
    ensures var v, d := CommitStep(Moved(w, n, Working(stage, a.record, seen)), n, env), Decide(stage, q, a.record, seen, env);
            && v.log == w.log && n in v.calls && v.calls[n].request == q
            && (d.Err? ==> RefusedWith(w, n, v, d.error))
            && (d.Ok? && d.value.consumption.Some? && !Spendable(w.store, d.value) ==>
                  RefusedWith(w, n, v, RevisionConflict))
            && (d.Ok? && (d.value.consumption.Some? ==> Spendable(w.store, d.value)) ==>
                  && v.calls[n].pc == AfterCommit(stage, q, a.record, seen, env, d.value)
                  && KeyOf(q) in v.store.rows && v.store.rows.Keys == w.store.rows.Keys + {KeyOf(q)}
                  && v.store.rows[KeyOf(q)].digest == DigestOf(q)
                  && v.store.rows[KeyOf(q)].interactionId == q.interactionId
                  && Stored(w.store, v.store, q.interactionId, d.value.next, d.value.facts, d.value.audits)
                  && v.store == Spend(w.store, d.value).(aggregates := v.store.aggregates, rows := v.store.rows)
                  && (d.value.consumption.None? ==>
                        Became(w.store, v.store, q.interactionId, d.value.next, d.value.facts, d.value.audits)))
  {
    hide Decide, AfterCommit;
    var d := Decide(stage, q, a.record, seen, env);
    if d.Ok? {
      DecidedHeader(stage, q, a.record, seen, env, d.value);
    }
  }

  /** A request that passes its first checks. */
  lemma Goes(w: World, n: nat, q: Request, a: Aggregate, env: Env) returns (v: World)
    requires Asked(w, n, q, env) && a == w.store.aggregates[q.interactionId]
    requires !q.action.RecoverAction? && !q.action.VerifyAction?
    requires Guard(StageOf(q), q, q.expected, a.record).None?
    ensures Alone(w, n, v)
    ensures v == CommitStep(Moved(w, n, Working(StageOf(q), a.record, Readings(a, Needs(StageOf(q), q, a.record)))), n, env)
    ensures a.record.id == q.interactionId
  {
    hide Alone, NewEverywhere, Needs, CommitStep, Guard, CallsOk, LogOk, HistoryOk, AggregateOk, RowsOk;
    var pc := Working(StageOf(q), a.record, map[]);
    var w1, w2 := Moved(w, n, Checked), Moved(w, n, pc);
    assert Moved(w1, n, pc) == w2;
    v := StageEnds(w2, n, q, StageOf(q), a, env);
    SameMove(w, n, pc, Working(StageOf(q), a.record, Readings(a, Needs(StageOf(q), q, a.record))));
    AloneReadsRecord(w1, n, pc, v);
    AloneReadsRow(w, n, Checked, v);
  }

  /** A request that does not. */
  lemma Stops(w: World, n: nat, q: Request, a: Aggregate, env: Env) returns (v: World)
    requires Asked(w, n, q, env) && a == w.store.aggregates[q.interactionId]
    requires !q.action.RecoverAction? && !q.action.VerifyAction?
    requires Guard(StageOf(q), q, q.expected, a.record).Some?
    ensures Alone(w, n, v) && RefusedWith(w, n, v, Guard(StageOf(q), q, q.expected, a.record).value)
  {
    hide Alone, NewEverywhere, Guard, Inv;
    var pc := Finished(Failure(Guard(StageOf(q), q, q.expected, a.record).value));
    var w1 := Moved(w, n, Checked);
    v := Moved(w, n, pc);
    assert Moved(w1, n, pc) == v;
    AloneHere(v, n);
    AloneReadsRecord(w1, n, pc, v);
    AloneReadsRow(w, n, Checked, v);
  }

  lemma Here(w: World, n: nat, q: Request, env: Env)
    requires Asked(w, n, q, env)
    ensures AggregateOk(w.store.aggregates[q.interactionId])
    ensures w.store.aggregates[q.interactionId].record.id == q.interactionId
  {
  }

  // ---------- expire ----------

  /** What expiring does, decided by the one clock reading. */
  predicate ExpireOutcome(w: World, n: nat, q: Request, env: Env, v: World)
    requires q.interactionId in w.store.aggregates
  {
    var a := w.store.aggregates[q.interactionId];
    if a.record.revision != q.expected then RefusedWith(w, n, v, RevisionConflict)
    else if !a.record.state.Previewed? && !a.record.state.AwaitingConfirmation? then RefusedWith(w, n, v, InvalidState)
    else
      && HasPreview(a)
      && var p := CurrentPreview(a);
      if env.now < p.expires then RefusedWith(w, n, v, PreviewNotExpired)
      else
        var r := a.record.(state := Expired, revision := a.record.revision + 1);
        && Answered(w, n, v, SnapshotAnswer(r))
        && Became(w.store, v.store, q.interactionId, r, map[p.id := PreviewFact(p.(status := PreviewLapsed))],
                  Entry(a.record, r, q.key))
  }

  /** Expiring ends an interaction, and its Preview, exactly when the Preview's time is over. */
  lemma ExpireGoes(w: World, n: nat, q: Request, a: Aggregate, env: Env) returns (v: World)
    requires Asked(w, n, q, env) && q.action.ExpireAction? && a == w.store.aggregates[q.interactionId]
    requires Guard(Expiring, q, q.expected, a.record).None?
    ensures Alone(w, n, v) && ExpireOutcome(w, n, q, env, v)
  {
    hide Alone, CommitStep, Inv, NewEverywhere, AggregateOk, Became, Decide;
    Here(w, n, q, env);
    v := Goes(w, n, q, a, env);
    var seen := Readings(a, Needs(Expiring, q, a.record));
    CommitStepTells(w, n, q, Expiring, a, seen, env);
    PreviewRead(a, seen);
    ExpireDecides(q, a, seen, env);
  }

  lemma ExpireStops(w: World, n: nat, q: Request, a: Aggregate, env: Env) returns (v: World)
    requires Asked(w, n, q, env) && q.action.ExpireAction? && a == w.store.aggregates[q.interactionId]
    requires Guard(Expiring, q, q.expected, a.record).Some?
    ensures Alone(w, n, v) && ExpireOutcome(w, n, q, env, v)
  {
    hide Alone, Asked, HasPreview, HasConfirmation, Became, Blank;
    v := Stops(w, n, q, a, env);
  }

  lemma ExpireAnswers(w: World, n: nat, q: Request, env: Env) returns (v: World)
    requires Asked(w, n, q, env) && q.action.ExpireAction?
    ensures Alone(w, n, v) && ExpireOutcome(w, n, q, env, v)
  {
    hide Alone, Inv, NewEverywhere, Guard, ExpireOutcome;
    var a := w.store.aggregates[q.interactionId];
    if Guard(Expiring, q, q.expected, a.record).Some? {
      v := ExpireStops(w, n, q, a, env);
    } else {
      v := ExpireGoes(w, n, q, a, env);
    }
  }

  lemma PreviewRead(a: Aggregate, seen: Seen)
    requires AggregateOk(a) && Accurate(a, seen) && Ids(a.record.previewId) <= seen.Keys
    ensures PreviewIn(seen, a.record.previewId) == if HasPreview(a) then Some(CurrentPreview(a)) else None
    ensures a.record.previewId.Some? <==> HasPreview(a)
    ensures HasPreview(a) ==> CurrentPreview(a).id == a.record.previewId.value
    ensures a.record.state.AwaitingConfirmation? || a.record.state.Authorized? ==> HasPreview(a)
    ensures !a.record.state.Previewed?
  {
    hide PreviewsNumbered, Trailed, RecoveryTracked, SuccessProven;
    if HasPreview(a) { assert FactId(a.facts[a.record.previewId.value]) == a.record.previewId.value; }
  }

  lemma ExpireDecides(q: Request, a: Aggregate, seen: Seen, env: Env)
    requires q.action.ExpireAction? && HasPreview(a) && PreviewIn(seen, a.record.previewId) == Some(CurrentPreview(a))
    ensures var d, p := Decide(Expiring, q, a.record, seen, env), CurrentPreview(a);
            var r := a.record.(state := Expired, revision := a.record.revision + 1);
            if env.now < p.expires then d == Err(PreviewNotExpired)
            else
              && d.Ok? && d.value.consumption.None? && d.value.next == r
              && d.value.facts == map[p.id := PreviewFact(p.(status := PreviewLapsed))]
              && d.value.audits == Entry(a.record, r, q.key)
  {
    hide HasPreview;
  }

  // ---------- cancel ----------

  /** What cancelling does, decided by how far the interaction has come. */
  predicate CancelOutcome(w: World, n: nat, q: Request, v: World)
    requires q.interactionId in w.store.aggregates
  {
    var a := w.store.aggregates[q.interactionId];
    var s := a.record.state;
    if a.record.revision != q.expected then RefusedWith(w, n, v, RevisionConflict)
    else if s.Succeeded? || s.Failed? || s.Cancelled? || s.Expired? then RefusedWith(w, n, v, InvalidState)
    else if s.Executing? || s.Verifying? || s.RecoveryRequired? then RefusedWith(w, n, v, CancelOutcomeUncertain)
    else
      var r := a.record.(state := Cancelled, revision := a.record.revision + 1);
      && Answered(w, n, v, SnapshotAnswer(r))
      && Became(w.store, v.store, q.interactionId, r,
                if HasPreview(a) && CurrentPreview(a).status.Active?
                then map[CurrentPreview(a).id := PreviewFact(CurrentPreview(a).(status := Superseded))] else map[],
                Entry(a.record, r, q.key))
  }

  /** Cancelling ends every interaction that has not been attempted, and no other. */
  lemma CancelAnswers(w: World, n: nat, q: Request, env: Env) returns (v: World)
    requires Asked(w, n, q, env) && q.action.CancelAction?
    ensures Alone(w, n, v) && CancelOutcome(w, n, q, v)
  {
    hide Alone, CommitStep, Inv, NewEverywhere, AggregateOk, Became, Decide;
    var a := w.store.aggregates[q.interactionId];
    Here(w, n, q, env);
    ExecutionRead(a);
    if Guard(Cancelling, q, q.expected, a.record).Some? {
      v := Stops(w, n, q, a, env);
    } else {
      v := Goes(w, n, q, a, env);
      var seen := Readings(a, Needs(Cancelling, q, a.record));
      CommitStepTells(w, n, q, Cancelling, a, seen, env);
      PreviewRead(a, seen);
      CancelDecides(q, a, seen, env);
    }
  }

  lemma CancelDecides(q: Request, a: Aggregate, seen: Seen, env: Env)
    requires q.action.CancelAction?
    requires PreviewIn(seen, a.record.previewId) == if HasPreview(a) then Some(CurrentPreview(a)) else None
    ensures var d, r := Decide(Cancelling, q, a.record, seen, env), a.record.(state := Cancelled, revision := a.record.revision + 1);
            && d.Ok? && d.value.consumption.None? && d.value.next == r
            && d.value.facts == (if HasPreview(a) && CurrentPreview(a).status.Active?
                                 then map[CurrentPreview(a).id := PreviewFact(CurrentPreview(a).(status := Superseded))]
                                 else map[])
            && d.value.audits == Entry(a.record, r, q.key)
  {
    hide HasPreview;
  }

  lemma ExecutionRead(a: Aggregate)
    requires AggregateOk(a)
    ensures !AfterAttempt(a.record.state) ==> a.record.execution.NotStarted? && a.record.executionId.None?
  {
    hide PreviewsNumbered, Trailed, ConsentHeld, RecoveryTracked, SuccessProven, Keyed;
  }

  // ---------- confirm ----------

  /** The evidence and the challenge a confirmation is to use up are as it read them, and still unused. */
  predicate Available(s: Store, q: Request)
    requires q.action.ConfirmAction?
  {
    match q.action.spend
    case None => true
    case Some((evidence, revision, challenge)) =>
      && evidence in s.evidence && s.evidence[evidence].consumed.None? && s.evidence[evidence].revision == revision
      && challenge in s.challenges
      && var h := s.challenges[challenge];
      && h.active && h.interactionId == q.interactionId && h.interactionRevision == q.expected
      && h.previewId == q.action.previewId && h.previewRevision == q.action.previewRevision
  }

  /** Evidence and challenge, if any are named, are used up for the Preview that is named, and nothing else is. */
  predicate UsedUp(s: Store, t: Store, q: Request)
    requires q.action.ConfirmAction? && Available(s, q)
  {
    match q.action.spend
    case None => t.evidence == s.evidence && t.challenges == s.challenges
    case Some((evidence, revision, challenge)) =>
      && t.evidence == s.evidence[evidence := s.evidence[evidence].(
           revision := revision + 1, consumed := Some((q.interactionId, q.action.previewId, q.action.previewRevision)))]
      && t.challenges == s.challenges[challenge := s.challenges[challenge].(active := false)]
  }

  /** What confirming does: the Confirmation is for the current, ACTIVE, unexpired Preview of the same actor, and
      lasts as long as was asked, but no longer than the Preview. */
  predicate ConfirmOutcome(w: World, n: nat, q: Request, env: Env, v: World)
    requires q.interactionId in w.store.aggregates && q.action.ConfirmAction?
  {
    var a := w.store.aggregates[q.interactionId];
    if a.record.revision != q.expected then RefusedWith(w, n, v, ConfirmationConflict)
    else if !a.record.state.AwaitingConfirmation? then RefusedWith(w, n, v, InvalidState)
    else
      && HasPreview(a)
      && var p, until := CurrentPreview(a), env.now + q.action.ttl;
      if q.action.previewId != p.id || !p.status.Active? || p.revision != q.action.previewRevision
      then RefusedWith(w, n, v, PreviewStale)
      else if p.actor != q.actor then RefusedWith(w, n, v, ConfirmationActorMismatch)
      else if env.now >= p.expires then RefusedWith(w, n, v, PreviewExpired)
      else if q.action.ttl <= 0 then RefusedWith(w, n, v, ConfirmationExpiryInvalid)
      else if !Available(w.store, q) then RefusedWith(w, n, v, RevisionConflict)
      else
        var r := a.record.(state := if p.plan.requiresApproval then AwaitingConfirmation else Authorized,
                           confirmationId := Some(env.id0), revision := a.record.revision + 1);
        var c := Confirmation(env.id0, p.id, p.revision, q.actor, a.record.origin.policy, env.now,
                              if p.expires < until then p.expires else until);
        && Answered(w, n, v, FactAnswer(env.id0))
        && Stored(w.store, v.store, q.interactionId, r,
                  map[p.id := PreviewFact(p.(status := Confirmed)), env.id0 := ConfirmationFact(c)],
                  Entry(a.record, r, q.key))
        && UsedUp(w.store, v.store, q)
  }

  lemma ConfirmAnswers(w: World, n: nat, q: Request, env: Env) returns (v: World)
    requires Asked(w, n, q, env) && q.action.ConfirmAction?
    ensures Alone(w, n, v) && ConfirmOutcome(w, n, q, env, v)
  {
    hide Alone, CommitStep, Inv, NewEverywhere, AggregateOk, Stored, Decide, Needs, Spend, Spendable, UsedUp, Available;
    var a := w.store.aggregates[q.interactionId];
    Here(w, n, q, env);
    if Guard(Confirming, q, q.expected, a.record).Some? {
      v := Stops(w, n, q, a, env);
    } else {
      v := Goes(w, n, q, a, env);
      ConfirmNeeds(q, a);
      var seen := Readings(a, Needs(Confirming, q, a.record));
      CommitStepTells(w, n, q, Confirming, a, seen, env);
      NamedPreviewRead(a, seen, q.action.previewId);
      ConfirmDecides(w.store, q, a, seen, env);
      var d := Decide(Confirming, q, a.record, seen, env);
      if d.Ok? && Available(w.store, q) {
        SameLedger(w.store, v.store, q, d.value);
      }
    }
  }

  lemma ConfirmNeeds(q: Request, a: Aggregate)
    requires q.action.ConfirmAction?
    ensures Needs(Confirming, q, a.record) == {q.action.previewId}
  {
  }

  lemma SameLedger(s: Store, t: Store, q: Request, c: Commit)
    requires q.action.ConfirmAction? && Available(s, q) && (c.consumption.Some? ==> Spendable(s, c))
    requires UsedUp(s, Spend(s, c), q) && t == Spend(s, c).(aggregates := t.aggregates, rows := t.rows)
    ensures UsedUp(s, t, q)
  {
    hide Spend, Spendable, Available;
  }

  lemma NamedPreviewRead(a: Aggregate, seen: Seen, id: Id)
    requires AggregateOk(a) && Accurate(a, seen) && id in seen
    ensures a.record.state.AwaitingConfirmation? ==>
              HasPreview(a) && CurrentPreview(a).policy == a.record.origin.policy
    ensures HasPreview(a) ==> CurrentPreview(a).id == a.record.previewId.value
    ensures PreviewIn(seen, Some(id)).Some? ==> PreviewIn(seen, Some(id)).value.id == id
    ensures HasPreview(a) && a.record.previewId == Some(id) ==> PreviewIn(seen, Some(id)) == Some(CurrentPreview(a))
  {
    hide PreviewsNumbered, Trailed, RecoveryTracked, SuccessProven;
    if HasPreview(a) { assert FactId(a.facts[a.record.previewId.value]) == a.record.previewId.value; }
    if id in a.facts { assert FactId(a.facts[id]) == id; }
  }

  lemma ConfirmDecides(s: Store, q: Request, a: Aggregate, seen: Seen, env: Env)
    requires q.action.ConfirmAction? && a.record.state.AwaitingConfirmation? && HasPreview(a)
    requires a.record.id == q.interactionId && a.record.revision == q.expected
    requires CurrentPreview(a).policy == a.record.origin.policy
    requires CurrentPreview(a).id == a.record.previewId.value
    requires PreviewIn(seen, Some(q.action.previewId)).Some? ==>
               PreviewIn(seen, Some(q.action.previewId)).value.id == q.action.previewId
    requires a.record.previewId == Some(q.action.previewId) ==>
               PreviewIn(seen, Some(q.action.previewId)) == Some(CurrentPreview(a))
    ensures var d, p, until := Decide(Confirming, q, a.record, seen, env), CurrentPreview(a), env.now + q.action.ttl;
            if q.action.previewId != p.id || !p.status.Active? || p.revision != q.action.previewRevision
            then d == Err(PreviewStale)
            else if p.actor != q.actor then d == Err(ConfirmationActorMismatch)
            else if env.now >= p.expires then d == Err(PreviewExpired)
            else if q.action.ttl <= 0 then d == Err(ConfirmationExpiryInvalid)
            else
              && d.Ok?
              && d.value.next == a.record.(state := if p.plan.requiresApproval then AwaitingConfirmation else Authorized,
                                           confirmationId := Some(env.id0), revision := a.record.revision + 1)
              && d.value.facts == map[p.id := PreviewFact(p.(status := Confirmed)),
                                      env.id0 := ConfirmationFact(Confirmation(
                                        env.id0, p.id, p.revision, q.actor, a.record.origin.policy, env.now,
                                        if p.expires < until then p.expires else until))]
              && d.value.audits == Entry(a.record, d.value.next, q.key)
              && ((d.value.consumption.Some? ==> Spendable(s, d.value)) <==> Available(s, q))
              && (Available(s, q) ==> UsedUp(s, Spend(s, d.value), q))
              && AfterCommit(Confirming, q, a.record, seen, env, d.value) == Finished(FactAnswer(env.id0))
  {
  }

  // ---------- approve ----------

  /** The authority vouches, for the time being, for this approver in this role and for exactly this Preview. */
  predicate Vouches(e: AuthorityEvidence, q: Request, a: Aggregate, now: Time)
    requires q.action.ApproveAction? && HasPreview(a)
  {
    && e.interactionId == a.record.id
    && e.previewId == CurrentPreview(a).id && e.previewRevision == CurrentPreview(a).revision
    && e.scope == a.record.origin.scope && e.policy == a.record.origin.policy
    && e.approver == q.actor && e.role == q.action.role
    && |e.digest| > 0
    && now < e.expires
  }

  /** What approving does: the Approval is for the current, confirmed Preview, and lasts as long as was asked, but
      no longer than the Preview or the authority's evidence. */
  predicate ApproveOutcome(w: World, n: nat, q: Request, env: Env, v: World)
    requires q.interactionId in w.store.aggregates && q.action.ApproveAction?
  {
    var a := w.store.aggregates[q.interactionId];
    if a.record.revision != q.expected then RefusedWith(w, n, v, ApprovalConflict)
    else if !a.record.state.AwaitingConfirmation? || a.record.confirmationId.None? then RefusedWith(w, n, v, InvalidState)
    else
      && HasConfirmation(a)
      && var p, c, until :=
        CurrentPreview(a), a.facts[a.record.confirmationId.value].confirmation, env.now + q.action.ttl;
      if q.action.previewId != p.id || p.revision != q.action.previewRevision
         || env.now >= p.expires || env.now >= c.expires
      then RefusedWith(w, n, v, ApprovalConflict)
      else if Blank(q.action.role) || q.action.ttl <= 0 then RefusedWith(w, n, v, ApprovalInvalid)
      else if |q.action.presented| == 0 then RefusedWith(w, n, v, ApprovalAuthorityMissing)
      else if env.authority.None? || !Vouches(env.authority.value, q, a, env.now)
      then RefusedWith(w, n, v, ApprovalAuthorityInvalid)
      else
        var r := a.record.(state := Authorized, approvalId := Some(env.id0), revision := a.record.revision + 1);
        && Answered(w, n, v, FactAnswer(env.id0))
        && Became(w.store, v.store, q.interactionId, r,
                  map[env.id0 := ApprovalFact(NewApproval(p, q, a, env))], Entry(a.record, r, q.key))
  }

  function Earliest(a: Time, b: Time, c: Time): (r: Time)
    ensures (r == a || r == b || r == c) && r <= a && r <= b && r <= c
  {
    if a <= b && a <= c then a else if b <= c then b else c
  }

  function NewApproval(p: Preview, q: Request, a: Aggregate, env: Env): Approval
    requires q.action.ApproveAction? && env.authority.Some?
  {
    Approval(env.id0, p.id, p.revision, q.actor, q.action.role, env.authority.value.id, a.record.origin.policy, env.now,
             Earliest(p.expires, env.authority.value.expires, env.now + q.action.ttl))
  }

  lemma ApproveGoes(w: World, n: nat, q: Request, a: Aggregate, env: Env) returns (v: World)
    requires Asked(w, n, q, env) && q.action.ApproveAction? && a == w.store.aggregates[q.interactionId]
    requires Guard(Approving, q, q.expected, a.record).None?
    ensures Alone(w, n, v) && ApproveOutcome(w, n, q, env, v)
  {
    hide Alone, CommitStep, Inv, NewEverywhere, AggregateOk, Became, Vouches, NewApproval, Decide, Needs, HasPreview;
    Here(w, n, q, env);
    v := Goes(w, n, q, a, env);
    ApproveNeeds(q, a);
    var seen := Readings(a, Needs(Approving, q, a.record));
    CommitStepTells(w, n, q, Approving, a, seen, env);
    NamedPreviewRead(a, seen, q.action.previewId);
    ConfirmationRead(a, seen);
    ApproveDecides(q, a, seen, env);
  }

  lemma ApproveStops(w: World, n: nat, q: Request, a: Aggregate, env: Env) returns (v: World)
    requires Asked(w, n, q, env) && q.action.ApproveAction? && a == w.store.aggregates[q.interactionId]
    requires Guard(Approving, q, q.expected, a.record).Some?
    ensures Alone(w, n, v) && ApproveOutcome(w, n, q, env, v)
  {
    hide Alone, Asked, HasPreview, HasConfirmation, Became, Blank;
    v := Stops(w, n, q, a, env);
  }

  lemma ApproveAnswers(w: World, n: nat, q: Request, env: Env) returns (v: World)
    requires Asked(w, n, q, env) && q.action.ApproveAction?
    ensures Alone(w, n, v) && ApproveOutcome(w, n, q, env, v)
  {
    hide Alone, Inv, NewEverywhere, Guard, ApproveOutcome;
    var a := w.store.aggregates[q.interactionId];
    if Guard(Approving, q, q.expected, a.record).Some? {
      v := ApproveStops(w, n, q, a, env);
    } else {
      v := ApproveGoes(w, n, q, a, env);
    }
  }

  lemma ApproveNeeds(q: Request, a: Aggregate)
    requires q.action.ApproveAction?
    ensures Needs(Approving, q, a.record) == {q.action.previewId} + Ids(a.record.confirmationId)
  {
  }

  lemma ConfirmationRead(a: Aggregate, seen: Seen)
    requires AggregateOk(a) && Accurate(a, seen) && Ids(a.record.confirmationId) <= seen.Keys
    ensures a.record.confirmationId.Some? <==> HasConfirmation(a)
    ensures HasConfirmation(a) ==>
              ConfirmationIn(seen, a.record.confirmationId) == Some(a.facts[a.record.confirmationId.value].confirmation)
    ensures a.record.state.AwaitingConfirmation? && HasConfirmation(a) ==> CurrentPreview(a).plan.requiresApproval
  {
    hide PreviewsNumbered, Trailed, RecoveryTracked, SuccessProven, Keyed;
  }

  lemma ApproveDecides(q: Request, a: Aggregate, seen: Seen, env: Env)
    requires q.action.ApproveAction? && HasConfirmation(a) && CurrentPreview(a).plan.requiresApproval
    requires a.record.id == q.interactionId && a.record.revision == q.expected
    requires CurrentPreview(a).id == a.record.previewId.value
    requires PreviewIn(seen, Some(q.action.previewId)).Some? ==>
               PreviewIn(seen, Some(q.action.previewId)).value.id == q.action.previewId
    requires a.record.previewId == Some(q.action.previewId) ==>
               PreviewIn(seen, Some(q.action.previewId)) == Some(CurrentPreview(a))
    requires ConfirmationIn(seen, a.record.confirmationId) == Some(a.facts[a.record.confirmationId.value].confirmation)
    ensures var d, p, c := Decide(Approving, q, a.record, seen, env), CurrentPreview(a),
                           a.facts[a.record.confirmationId.value].confirmation;
            if q.action.previewId != p.id || p.revision != q.action.previewRevision
               || env.now >= p.expires || env.now >= c.expires
            then d == Err(ApprovalConflict)
            else if Blank(q.action.role) || q.action.ttl <= 0 then d == Err(ApprovalInvalid)
            else if |q.action.presented| == 0 then d == Err(ApprovalAuthorityMissing)
            else if env.authority.None? || !Vouches(env.authority.value, q, a, env.now)
            then d == Err(ApprovalAuthorityInvalid)
            else
              && d.Ok? && d.value.consumption.None?
              && d.value.next == a.record.(state := Authorized, approvalId := Some(env.id0),
                                           revision := a.record.revision + 1)
              && d.value.facts == map[env.id0 := ApprovalFact(NewApproval(p, q, a, env))]
              && d.value.audits == Entry(a.record, d.value.next, q.key)
              && AfterCommit(Approving, q, a.record, seen, env, d.value) == Finished(FactAnswer(env.id0))
  {
  }

  // ---------- preview ----------

  function NextPreview(q: Request, a: Aggregate, env: Env): Preview
    requires q.action.PreviewAction?
  {
    Preview(env.id0, q.actor, a.record.origin.operation, a.record.origin.policy, a.record.origin.risk, PreviewCount(a) + 1,
            q.action.plan, Active, env.now, env.now + q.action.plan.ttl)
  }

  function WithPreview(q: Request, a: Aggregate, env: Env): Interaction
    requires q.action.PreviewAction?
  {
    var plan := q.action.plan;
    a.record.(
      state := if plan.requiresConfirmation || plan.requiresApproval then AwaitingConfirmation else Authorized,
      revision := a.record.revision + 1, previewId := Some(env.id0), confirmationId := None, approvalId := None,
      objectId := plan.targetObject)
  }

  function FactsOfPreview(q: Request, a: Aggregate, env: Env): map<Id, Fact>
    requires q.action.PreviewAction?
  {
    var before: map<Id, Fact> :=
      if HasPreview(a) then map[CurrentPreview(a).id := PreviewFact(CurrentPreview(a).(status := Superseded))] else map[];
    before + map[env.id0 := PreviewFact(NextPreview(q, a, env))]
  }

  function FourEntries(a: Aggregate, r: Interaction, key: string): seq<Audit> {
    var s := a.record.state;
    [Audit(Some(s), s, r.revision, key), Audit(Some(s), s, r.revision, key),
     Audit(Some(s), Previewed, r.revision, key), Audit(Some(Previewed), r.state, r.revision, key)]
  }

  /** What previewing does: the next Preview is put up for the interaction as it was opened, for as long as was
      asked, and what was there before no longer counts. */
  predicate PreviewOutcome(w: World, n: nat, q: Request, env: Env, v: World)
    requires q.interactionId in w.store.aggregates && q.action.PreviewAction?
  {
    var a := w.store.aggregates[q.interactionId];
    var s := a.record.state;
    if a.record.origin.actor != q.actor then RefusedWith(w, n, v, ActorMismatch)
    else if a.record.revision != q.expected then RefusedWith(w, n, v, RevisionConflict)
    else if !s.Requested? && !s.Previewed? && !s.AwaitingConfirmation? then RefusedWith(w, n, v, InvalidState)
    else if q.action.plan.ttl <= 0 then RefusedWith(w, n, v, PreviewExpiryInvalid)
    else
      var r := WithPreview(q, a, env);
      && Answered(w, n, v, FactAnswer(env.id0))
      && Became(w.store, v.store, q.interactionId, r, FactsOfPreview(q, a, env), FourEntries(a, r, q.key))
  }

  lemma PreviewDecides(q: Request, a: Aggregate, seen: Seen, env: Env)
    requires q.action.PreviewAction?
    requires PreviewIn(seen, a.record.previewId) == if HasPreview(a) then Some(CurrentPreview(a)) else None
    ensures var d, r := Decide(Previewing, q, a.record, seen, env), WithPreview(q, a, env);
            if q.action.plan.ttl <= 0 then d == Err(PreviewExpiryInvalid)
            else
              && d.Ok? && d.value.consumption.None? && d.value.next == r
              && d.value.facts == FactsOfPreview(q, a, env)
              && d.value.audits == FourEntries(a, r, q.key)
  {
    hide HasPreview;
  }

  lemma PreviewAnswers(w: World, n: nat, q: Request, env: Env) returns (v: World)
    requires Asked(w, n, q, env) && q.action.PreviewAction?
    ensures Alone(w, n, v) && PreviewOutcome(w, n, q, env, v)
  {
    hide Alone, CommitStep, Inv, NewEverywhere, AggregateOk, Became, Decide;
    var a := w.store.aggregates[q.interactionId];
    Here(w, n, q, env);
    if Guard(Previewing, q, q.expected, a.record).Some? {
      v := Stops(w, n, q, a, env);
    } else {
      v := Goes(w, n, q, a, env);
      var seen := Readings(a, Needs(Previewing, q, a.record));
      CommitStepTells(w, n, q, Previewing, a, seen, env);
      PreviewRead(a, seen);
      PreviewDecides(q, a, seen, env);
    }
  }

  // ---------- execute ----------

  lemma {:induction false} RunsOn(w: World, first: seq<Step>, then_: seq<Step>)
    requires Valid(w, first) && Valid(Run(w, first), then_)
    ensures Valid(w, first + then_) && Run(w, first + then_) == Run(Run(w, first), then_)
    decreases |first|
  {
    hide Enabled, Next;
    if first == [] {
      assert first + then_ == then_;
    } else {
      RunsOn(Next(w, first[0]), first[1..], then_);
      assert (first + then_)[1..] == first[1..] + then_;
    }
  }

  lemma AloneThen(w: World, n: nat, u: World, v: World)
    requires Alone(w, n, u) && Alone(u, n, v)
    ensures Alone(w, n, v)
  {
    hide Valid, Run, By;
    var first :| Valid(w, first) && Run(w, first) == u && forall j | 0 <= j < |first| :: By(first[j], n);
    var then_ :| Valid(u, then_) && Run(u, then_) == v && forall j | 0 <= j < |then_| :: By(then_[j], n);
    RunsOn(w, first, then_);
    var steps := first + then_;
    assert forall j | 0 <= j < |steps| :: By(steps[j], n);
  }

  /** The ids drawn after the gate are new too. */
  predicate DrawnAfter(env: Env, after: Env) {
    && env.id0 != after.id0 && env.id0 != after.id1 && env.id0 != after.id2
    && (after.commit.Some? ==> env.id0 != after.commit.value.id)
  }

  /** Why the gate does not open: a consent the Preview asks for has expired. */
  function Overdue(a: Aggregate, env: Env): Option<Error>
    requires HasPreview(a)
  {
    var plan := CurrentPreview(a).plan;
    if plan.requiresConfirmation && HasConfirmation(a)
       && env.confirmationCheck >= a.facts[a.record.confirmationId.value].confirmation.expires then Some(ConfirmationExpired)
    else if plan.requiresApproval && HasApproval(a)
            && env.approvalCheck >= a.facts[a.record.approvalId.value].approval.expires then Some(ApprovalExpired)
    else None
  }

  /** What starting an execution does. Where the consents are timely the port is called, once, with the Preview's
      parameters, and the interaction goes where the port's answer sends it: to FAILED when it was rejected or
      failed, to RECOVERY_REQUIRED when nobody knows, and to VERIFYING otherwise. */
  predicate ExecuteOutcome(w: World, n: nat, q: Request, env: Env, after: Env, v: World)
    requires q.interactionId in w.store.aggregates
  {
    var a := w.store.aggregates[q.interactionId];
    if a.record.revision != q.expected then RefusedWith(w, n, v, RevisionConflict)
    else if !a.record.state.Authorized? then RefusedWith(w, n, v, InvalidState)
    else
      && HasPreview(a)
      && if Overdue(a, env).Some? then RefusedWith(w, n, v, Overdue(a, env).value)
      else
        && n in v.calls && v.calls[n].pc == Finished(StatusAnswer)
        && v.log == w.log + [PortCall(a.record.id, env.id0, a.record.origin.operation, CurrentPreview(a).plan.parameters,
                                      q.key, env.confirmationCheck, env.approvalCheck)]
        && Executed(w.store, v.store, q, env.id0, after)
  }

  /** The attempt and what the port answered are on record. */
  predicate Executed(s: Store, t: Store, q: Request, execution: Id, after: Env)
    requires q.interactionId in s.aggregates
  {
    var a := s.aggregates[q.interactionId];
    var status := if after.execution.None? then Uncertain else after.execution.value.status;
    var reference := if after.execution.None? then None else after.execution.value.externalReference;
    var x := ExecutionFact(Execution(execution, q.actor, q.key, status, reference));
    var next := a.record.(execution := status, executionId := Some(execution), revision := a.record.revision + 2);
    match status
    case Rejected => Became(s, t, q.interactionId, Fruitless(next), map[execution := x], TwoEntries(a, Failed, q.key))
    case ExecutionFailed => Became(s, t, q.interactionId, Fruitless(next), map[execution := x], TwoEntries(a, Failed, q.key))
    case Uncertain =>
      Became(s, t, q.interactionId,
             next.(state := RecoveryRequired, verification := VerificationUncertain, recovery := RecoveryPending,
                   recoveryId := Some(after.id0)),
             map[execution := x, after.id0 := RecoveryFact(Recovery(after.id0, q.actor, RecoveryPending))],
             TwoEntries(a, RecoveryRequired, q.key))
    case _ =>
      Became(s, t, q.interactionId,
             next.(state := Verifying, verification := VerificationPending, recovery := RecoveryNotRequired),
             map[execution := x], TwoEntries(a, Verifying, q.key))
  }

  /** Into execution, and out of it. */
  function TwoEntries(a: Aggregate, end: Lifecycle, key: string): seq<Audit> {
    [Audit(Some(a.record.state), Executing, a.record.revision + 1, key),
     Audit(Some(Executing), end, a.record.revision + 2, key)]
  }

  function Fruitless(r: Interaction): Interaction {
    r.(state := Failed, verification := VerificationNotRequired, recovery := RecoveryNotRequired)
  }

  lemma BecameThen(s: Store, t: Store, u: Store, i: Id, r: Interaction, first: map<Id, Fact>, rows: seq<Audit>,
                   r': Interaction, then_: map<Id, Fact>, more: seq<Audit>)
    requires Became(s, t, i, r, first, rows) && Became(t, u, i, r', then_, more) && first.Keys <= then_.Keys
    ensures Became(s, u, i, r', then_, rows + more)
  {
    assert s.aggregates[i].audits + rows + more == s.aggregates[i].audits + (rows + more);
    assert s.aggregates[i].facts + first + then_ == s.aggregates[i].facts + then_;
  }

  lemma GateDecides(q: Request, a: Aggregate, seen: Seen, env: Env)
    requires q.action.ExecuteAction? && AggregateOk(a) && a.record.state.Authorized?
    requires Accurate(a, seen) && Needs(Gate, q, a.record) <= seen.Keys
    ensures HasPreview(a)
    ensures var d := Decide(Gate, q, a.record, seen, env);
            if Overdue(a, env).Some? then d == Err(Overdue(a, env).value)
            else
              && d.Ok? && d.value.consumption.None?
              && d.value.facts == map[env.id0 := ExecutionFact(NewAttempt(q, env.id0))]
              && d.value.audits == Entry(a.record, d.value.next, q.key)
              && d.value.next == Attempting(a.record, env.id0)
    ensures PortCallFor(q, a.record, seen, env)
            == PortCall(a.record.id, env.id0, a.record.origin.operation, CurrentPreview(a).plan.parameters,
                        q.key, env.confirmationCheck, env.approvalCheck)
  {
    hide PreviewsNumbered, Trailed, RecoveryTracked, SuccessProven, Keyed;
    assert PreviewIn(seen, a.record.previewId) == Some(CurrentPreview(a));
  }

  lemma ObservationDecides(q: Request, a: Aggregate, seen: Seen, i: Id, s: Store, t: Store, after: Env)
    requires q.action.ExecuteAction? && q.interactionId in s.aggregates
    requires a.record == Attempting(s.aggregates[q.interactionId].record, i)
    requires seen == map[i := Some(ExecutionFact(NewAttempt(q, i)))]
    requires s.aggregates[q.interactionId].record.recovery.RecoveryNotRequired? && i != after.id0
    ensures var d := Decide(Observing, q, a.record, seen, after);
            && d.Ok? && d.value.consumption.None? && i in d.value.facts
            && AfterCommit(Observing, q, a.record, seen, after, d.value) == Finished(StatusAnswer)
            && (Became(s, t, q.interactionId, d.value.next, d.value.facts,
                       Entry(s.aggregates[q.interactionId].record, a.record, q.key) + d.value.audits) ==>
                  Executed(s, t, q, i, after))
  {
    hide Became;
    var x, d := s.aggregates[q.interactionId], Decide(Observing, q, a.record, seen, after);
    assert Entry(x.record, a.record, q.key) + d.value.audits == TwoEntries(x, d.value.next.state, q.key);
  }

  lemma NewAfter(s: Store, t: Store, i: Id, r: Interaction, facts: map<Id, Fact>, rows: seq<Audit>, env: Env, after: Env)
    requires Became(s, t, i, r, facts, rows) && facts.Keys == {env.id0}
    requires NewEverywhere(s, after) && DrawnAfter(env, after)
    ensures NewEverywhere(t, after) && env.id0 != after.id0
  {
  }

  function Attempting(r: Interaction, i: Id): Interaction {
    r.(state := Executing, execution := Attempted, verification := VerificationPending,
       executionId := Some(i), revision := r.revision + 1)
  }

  function NewAttempt(q: Request, i: Id): Execution {
    Execution(i, q.actor, q.key, Attempted, None)
  }

  /** The caller stands before the port, with the attempt on record. */
  predicate StandsBeforePort(w: World, u: World, n: nat, q: Request, i: Id)
    requires q.interactionId in w.store.aggregates
  {
    var next, x := Attempting(w.store.aggregates[q.interactionId].record, i), NewAttempt(q, i);
    && Became(w.store, u.store, q.interactionId, next, map[i := ExecutionFact(x)],
              Entry(w.store.aggregates[q.interactionId].record, next, q.key))
    && n in u.calls && u.calls[n].request == q
    && u.calls[n].pc.Armed? && u.calls[n].pc.executing == next && u.calls[n].pc.execution == x
    && KeyOf(q) in u.store.rows && u.store.rows[KeyOf(q)].digest == DigestOf(q)
    && u.store.rows[KeyOf(q)].interactionId == q.interactionId
  }

  lemma PortIsCalled(w: World, u: World, n: nat, q: Request, i: Id) returns (b: Aggregate, seen: Seen)
    requires q.interactionId in w.store.aggregates && StandsBeforePort(w, u, n, q, i)
    ensures seen == map[i := Some(ExecutionFact(NewAttempt(q, i)))]
    ensures b.record == Attempting(w.store.aggregates[q.interactionId].record, i)
    ensures Became(w.store, u.store, q.interactionId, b.record, map[i := ExecutionFact(NewAttempt(q, i))],
                   Entry(w.store.aggregates[q.interactionId].record, b.record, q.key))
    ensures n in u.calls && u.calls[n].pc.Armed?
    ensures var port := PortStep(u, n);
            && port.store == u.store && port.log == u.log + [u.calls[n].pc.port]
            && n in port.calls && port.calls[n] == Call(q, Working(Observing, b.record, seen))
            && q.interactionId in port.store.aggregates && port.store.aggregates[q.interactionId] == b
            && KeyOf(q) in port.store.rows && port.store.rows[KeyOf(q)].digest == DigestOf(q)
            && port.store.rows[KeyOf(q)].interactionId == q.interactionId
  {
    hide KeyOf, DigestOf, Attempting;
    b := u.store.aggregates[q.interactionId];
    seen := map[i := Some(ExecutionFact(NewAttempt(q, i)))];
  }

  lemma PortIsTried(u: World, n: nat, v: World)
    requires n in u.calls && u.calls[n].pc.Armed? && Alone(PortStep(u, n), n, v)
    ensures Alone(u, n, v)
  {
    hide Alone, PortStep;
    AloneStep(u, n, CallPort(n), v);
  }

  /** The port's answer is stored. */
  lemma PortAnswers(w: World, n: nat, q: Request, u: World, env: Env, after: Env) returns (v: World)
    requires q.action.ExecuteAction? && q.interactionId in w.store.aggregates && StandsBeforePort(w, u, n, q, env.id0)
    requires var a := w.store.aggregates[q.interactionId];
             a.record.id == q.interactionId && a.record.origin.scope == q.scope && a.record.recovery.RecoveryNotRequired?
    requires NewEverywhere(w.store, after) && DrawnAfter(env, after)
    ensures Alone(u, n, v) && n in v.calls && v.calls[n].pc == Finished(StatusAnswer)
    ensures v.log == u.log + [u.calls[n].pc.port]
    ensures Executed(w.store, v.store, q, env.id0, after)
  {
    hide *;
    var b, seen := PortIsCalled(w, u, n, q, env.id0);
    var x: map<Id, Fact> := map[env.id0 := ExecutionFact(NewAttempt(q, env.id0))];
    var port := PortStep(u, n);
    var rows := Entry(w.store.aggregates[q.interactionId].record, b.record, q.key);
    NewAfter(w.store, u.store, q.interactionId, b.record, x, rows, env, after);
    SameMove(port, n, Working(Observing, b.record, seen), Begin);
    v := CommitStep(port, n, after);
    AttemptFits(w.store.aggregates[q.interactionId], b, q, env.id0);
    CommitStepTells(port, n, q, Observing, b, seen, after);
    ObservationIsTried(port, n, q, b, seen, after);
    PortIsTried(u, n, v);
    var d := Decide(Observing, q, b.record, seen, after);
    ObservationDecides(q, b, seen, env.id0, w.store, v.store, after);
    BecameThen(w.store, u.store, v.store, q.interactionId, b.record, x, rows, d.value.next, d.value.facts, d.value.audits);
  }

  lemma AttemptFits(a: Aggregate, b: Aggregate, q: Request, i: Id)
    requires a.record.id == q.interactionId && a.record.origin.scope == q.scope && b.record == Attempting(a.record, i)
    ensures b.record.id == q.interactionId && b.record.origin.scope == q.scope
  {
  }

  lemma ObservationIsTried(port: World, n: nat, q: Request, b: Aggregate, seen: Seen, after: Env)
    requires n in port.calls && port.calls[n] == Call(q, Working(Observing, b.record, seen))
    requires NewEverywhere(port.store, after)
    ensures Alone(port, n, CommitStep(port, n, after))
  {
    hide Alone, CommitStep, NewEverywhere;
    AloneHere(CommitStep(port, n, after), n);
    AloneStep(port, n, Commits(n, after), CommitStep(port, n, after));
  }

  lemma ExecuteAnswers(w: World, n: nat, q: Request, env: Env, after: Env) returns (v: World)
    requires Asked(w, n, q, env) && q.action.ExecuteAction?
    requires NewEverywhere(w.store, after) && DrawnAfter(env, after)
    ensures Alone(w, n, v) && ExecuteOutcome(w, n, q, env, after, v)
  {
    hide Alone, CommitStep, Inv, NewEverywhere, AggregateOk, Became, DrawnAfter, Decide, Needs, Executed, PortCallFor;
    var a := w.store.aggregates[q.interactionId];
    Here(w, n, q, env);
    if Guard(Gate, q, q.expected, a.record).Some? {
      v := Stops(w, n, q, a, env);
    } else {
      var u := Goes(w, n, q, a, env);
      var seen := Readings(a, Needs(Gate, q, a.record));
      CommitStepTells(w, n, q, Gate, a, seen, env);
      GateDecides(q, a, seen, env);
      v := u;
      if Overdue(a, env).None? {
        RecoveryRead(a);
        v := PortAnswers(w, n, q, u, env, after);
        AloneThen(w, n, u, v);
      }
    }
  }

  lemma RecoveryRead(a: Aggregate)
    requires AggregateOk(a)
    ensures a.record.state.Authorized? || a.record.state.Verifying? ==> a.record.recovery.RecoveryNotRequired?
    ensures a.record.state.Verifying? ==> a.record.recoveryId.None?
    ensures a.record.state.RecoveryRequired? ==> HasRecovery(a) && a.record.recovery.RecoveryPending?
  {
    hide PreviewsNumbered, Trailed, ConsentHeld, ExecutionTracked, SuccessProven, Keyed;
  }

  // ---------- verify and recover ----------

  /** The evidence a success rests on: the authority's where the Preview asks for a commit, else a local one. */
  function EvidenceOf(a: Aggregate, env: Env): CommitEvidence
    requires HasPreview(a) && HasExecution(a) && (CurrentPreview(a).plan.commitRequired ==> env.commit.Some?)
  {
    var plan := CurrentPreview(a).plan;
    if plan.commitRequired then env.commit.value
    else CommitEvidence(env.id1, a.record.id, a.record.executionId.value, a.record.previewId.value, a.record.origin.scope,
                        a.record.origin.policy, false, CommitNotRequired, plan.targetObject, plan.targetRevision,
                        "not-required")
  }

  predicate Vouched(env: Env) {
    env.verification.Some? && env.verification.value.status.Verified? && |env.verification.value.digest| > 0
  }

  /** The verifier's result, for this interaction's own execution. */
  function ResultOf(a: Aggregate, env: Env, evidence: Option<Id>): Fact
    requires HasExecution(a) && Vouched(env)
  {
    VerifiedResultFact(VerifiedResult(env.id0, a.record.id, a.record.executionId.value, a.record.origin.scope,
                                      env.verification.value.digest, evidence))
  }

  function Succeeding(a: Aggregate, e: CommitEvidence, env: Env): Interaction {
    a.record.(
      state := Succeeded, execution := Completed, verification := Verified,
      recovery := if a.record.state.RecoveryRequired? then Recovered else RecoveryNotRequired,
      verifiedResultId := Some(env.id0), commitEvidenceId := Some(e.id), objectId := e.objectId,
      revision := a.record.revision + 1)
  }

  /** Result and evidence; and the open Recovery is closed. */
  function FactsOfSuccess(a: Aggregate, e: CommitEvidence, env: Env): map<Id, Fact>
    requires HasExecution(a) && Vouched(env)
  {
    var proof: map<Id, Fact> := map[env.id0 := ResultOf(a, env, Some(e.id)), e.id := CommitEvidenceFact(e)];
    if HasRecovery(a)
    then proof[a.record.recoveryId.value :=
                 RecoveryFact(a.facts[a.record.recoveryId.value].recovery.(status := Recovered))]
    else proof
  }

  function RecoveryIdOf(a: Aggregate, env: Env): Id {
    if a.record.recoveryId.Some? then a.record.recoveryId.value else env.id2
  }

  function Requiring(a: Aggregate, env: Env): Interaction {
    a.record.(
      state := RecoveryRequired, recovery := RecoveryPending, recoveryId := Some(RecoveryIdOf(a, env)),
      verification := if env.verification.Some? then env.verification.value.status else VerificationUncertain,
      verifiedResultId := if Vouched(env) then Some(env.id0) else None, revision := a.record.revision + 1)
  }

  /** One open Recovery; and a result, if there is one, that rests on no evidence. */
  function FactsOfDoubt(q: Request, a: Aggregate, env: Env): map<Id, Fact>
    requires HasExecution(a)
  {
    var id := RecoveryIdOf(a, env);
    var open: map<Id, Fact> := map[id := RecoveryFact(Recovery(id, q.actor, RecoveryPending))];
    if Vouched(env) then open[env.id0 := ResultOf(a, env, None)] else open
  }

  /** What verification does with an interaction that is to be verified. It succeeds, with result and evidence, and
      closes the open Recovery, exactly when `ProofState` says so; else recovery is required under one Recovery. */
  predicate ProofOutcome(s: Store, t: Store, q: Request, env: Env)
    requires q.interactionId in s.aggregates
  {
    var a := s.aggregates[q.interactionId];
    && HasPreview(a) && HasExecution(a)
    && if ProofState(a, env).Succeeded? then
         var e := EvidenceOf(a, env);
         Became(s, t, q.interactionId, Succeeding(a, e, env), FactsOfSuccess(a, e, env),
                Entry(a.record, Succeeding(a, e, env), q.key))
       else
         Became(s, t, q.interactionId, Requiring(a, env), FactsOfDoubt(q, a, env), Entry(a.record, Requiring(a, env), q.key))
  }

  /** What a verification does that was asked for at revision `expected`. */
  predicate VerifyOutcome(w: World, n: nat, q: Request, expected: nat, env: Env, v: World)
    requires q.interactionId in w.store.aggregates
  {
    var r := w.store.aggregates[q.interactionId].record;
    if r.revision != expected then RefusedWith(w, n, v, RevisionConflict)
    else if !r.state.Verifying? && !r.state.RecoveryRequired? then RefusedWith(w, n, v, InvalidState)
    else Answered(w, n, v, StatusAnswer) && ProofOutcome(w.store, v.store, q, env)
  }

  lemma ProofDecidesSo(q: Request, a: Aggregate, seen: Seen, env: Env)
    requires AggregateOk(a) && (a.record.state.Verifying? || a.record.state.RecoveryRequired?)
    requires q.action.VerifyAction? || q.action.RecoverAction?
    requires Accurate(a, seen) && Needs(Proving, q, a.record) <= seen.Keys && NewIds(a, env)
    ensures HasPreview(a) && HasExecution(a)
    ensures var d := Decide(Proving, q, a.record, seen, env);
            && d.Ok? && d.value.consumption.None? && d.value.audits == Entry(a.record, d.value.next, q.key)
            && if ProofState(a, env).Succeeded? then
                 var e := EvidenceOf(a, env);
                 d.value.next == Succeeding(a, e, env) && d.value.facts == FactsOfSuccess(a, e, env)
               else d.value.next == Requiring(a, env) && d.value.facts == FactsOfDoubt(q, a, env)
  {
    ProofRead(a, seen);
    hide AggregateOk, NewIds, Accurate;
    if ProofState(a, env).Succeeded? {
      SuccessDecides(q, a, seen, env);
    } else {
      DoubtDecides(q, a, seen, env);
    }
  }

  predicate ReadForProof(a: Aggregate, seen: Seen) {
    && HasPreview(a) && HasExecution(a)
    && PreviewIn(seen, a.record.previewId) == Some(CurrentPreview(a))
    && CurrentPreview(a).id == a.record.previewId.value
    && ExecutionIn(seen, a.record.executionId) == Some(a.facts[a.record.executionId.value].execution)
    && a.facts[a.record.executionId.value].execution.id == a.record.executionId.value
    && RecoveryIn(seen, a.record.recoveryId)
       == (if HasRecovery(a) then Some(a.facts[a.record.recoveryId.value].recovery) else None)
    && (HasRecovery(a) ==> a.facts[a.record.recoveryId.value].recovery.id == a.record.recoveryId.value)
    && (a.record.recoveryId.Some? <==> HasRecovery(a))
    && (a.record.state.RecoveryRequired? <==> HasRecovery(a))
    && a.record.recovery == (if HasRecovery(a) then RecoveryPending else RecoveryNotRequired)
  }

  lemma SuccessDecides(q: Request, a: Aggregate, seen: Seen, env: Env)
    requires ReadForProof(a, seen) && ProofState(a, env).Succeeded?
    requires q.action.VerifyAction? || q.action.RecoverAction?
    ensures var d, e := Decide(Proving, q, a.record, seen, env), EvidenceOf(a, env);
            && d.Ok? && d.value.consumption.None? && d.value.audits == Entry(a.record, d.value.next, q.key)
            && d.value.next == Succeeding(a, e, env) && d.value.facts == FactsOfSuccess(a, e, env)
  {
    hide HasRecovery, PreviewIn, ExecutionIn, RecoveryIn;
  }

  lemma DoubtDecides(q: Request, a: Aggregate, seen: Seen, env: Env)
    requires ReadForProof(a, seen) && !ProofState(a, env).Succeeded?
    requires q.action.VerifyAction? || q.action.RecoverAction?
    ensures var d := Decide(Proving, q, a.record, seen, env);
            && d.Ok? && d.value.consumption.None? && d.value.audits == Entry(a.record, d.value.next, q.key)
            && d.value.next == Requiring(a, env) && d.value.facts == FactsOfDoubt(q, a, env)
  {
    hide HasRecovery, PreviewIn, ExecutionIn, RecoveryIn;
  }

  lemma ProofRead(a: Aggregate, seen: Seen)
    requires AggregateOk(a) && (a.record.state.Verifying? || a.record.state.RecoveryRequired?)
    requires Accurate(a, seen) && Ids(a.record.executionId) + Ids(a.record.previewId) + Ids(a.record.recoveryId) <= seen.Keys
    ensures ReadForProof(a, seen)
  {
    hide PreviewsNumbered, Trailed, SuccessProven;
    assert FactId(a.facts[a.record.previewId.value]) == a.record.previewId.value;
    assert FactId(a.facts[a.record.executionId.value]) == a.record.executionId.value;
    if HasRecovery(a) { assert FactId(a.facts[a.record.recoveryId.value]) == a.record.recoveryId.value; }
  }

  /** A verification, from its lookup on. */
  lemma VerificationAnswers(w: World, n: nat, q: Request, expected: nat, env: Env) returns (v: World)
    requires Inv(w) && n in w.calls && w.calls[n] == Call(q, VerifyBegin(expected))
    requires q.action.VerifyAction? || q.action.RecoverAction?
    requires !Blank(q.key) && KeyOf(q) !in w.store.rows && NewEverywhere(w.store, env)
    requires q.interactionId in w.store.aggregates
    requires w.store.aggregates[q.interactionId].record.origin.scope == q.scope
    ensures Alone(w, n, v) && VerifyOutcome(w, n, q, expected, env, v)
  {
    hide Alone, NewEverywhere, AggregateOk, CallsOk, LogOk, HistoryOk, RowsOk, ProofOutcome, Decide, Needs, Became;
    var a := w.store.aggregates[q.interactionId];
    assert AggregateOk(a) && a.record.id == q.interactionId;
    var pc := AfterReadRecord(w.store, q, VerifyChecked(expected));
    var w1 := Moved(w, n, VerifyChecked(expected));
    var w2 := Moved(w, n, pc);
    assert Moved(w1, n, pc) == w2;
    if pc.Working? {
      New(w.store, q.interactionId, env);
      v := ProofAnswers(w, w2, n, q, a, env);
    } else {
      v := w2;
      AloneHere(v, n);
    }
    AloneReadsRecord(w1, n, pc, v);
    AloneReadsRow(w, n, VerifyChecked(expected), v);
  }

  lemma ProofAnswers(w: World, u: World, n: nat, q: Request, a: Aggregate, env: Env) returns (v: World)
    requires n in w.calls && w.calls[n].request == q && u == Moved(w, n, Working(Proving, a.record, map[]))
    requires q.action.VerifyAction? || q.action.RecoverAction?
    requires KeyOf(q) !in w.store.rows && NewEverywhere(w.store, env) && NewIds(a, env)
    requires q.interactionId in w.store.aggregates && w.store.aggregates[q.interactionId] == a
    requires AggregateOk(a) && a.record.id == q.interactionId && a.record.origin.scope == q.scope
    requires a.record.state.Verifying? || a.record.state.RecoveryRequired?
    ensures Alone(u, n, v) && Answered(w, n, v, StatusAnswer) && ProofOutcome(w.store, v.store, q, env)
  {
    hide Alone, NewEverywhere, AggregateOk, CommitStep, Decide, Needs, Became, NewIds, KeyOf, EvidenceOf, Succeeding,
      FactsOfSuccess, Requiring, FactsOfDoubt, ProofState;
    var seen := Readings(a, Needs(Proving, q, a.record));
    v := StageEnds(u, n, q, Proving, a, env);
    SameMove(w, n, Working(Proving, a.record, map[]), Working(Proving, a.record, seen));
    CommitStepTells(w, n, q, Proving, a, seen, env);
    ProofDecidesSo(q, a, seen, env);
  }

  lemma New(s: Store, i: Id, env: Env)
    requires NewEverywhere(s, env) && i in s.aggregates
    ensures NewIds(s.aggregates[i], env)
  {
  }

  lemma VerifyAnswers(w: World, n: nat, q: Request, env: Env) returns (v: World)
    requires Asked(w, n, q, env) && q.action.VerifyAction?
    ensures Alone(w, n, v) && VerifyOutcome(w, n, q, q.expected, env, v)
  {
    hide Alone, VerifyOutcome, NewEverywhere, Inv;
    v := VerificationAnswers(w, n, q, q.expected, env);
  }

  function Uncertainty(r: Interaction, id: Id): Interaction {
    r.(state := RecoveryRequired, execution := Uncertain, verification := VerificationUncertain,
       recovery := RecoveryPending, recoveryId := Some(id), revision := r.revision + 1)
  }

  /** An attempt nobody knows the outcome of is on record as uncertain, with a Recovery open. */
  predicate Reconciled(s: Store, t: Store, q: Request, recovery: Id)
    requires q.interactionId in s.aggregates
  {
    var a := s.aggregates[q.interactionId];
    && HasExecution(a)
    && Became(s, t, q.interactionId, Uncertainty(a.record, recovery),
              map[a.record.executionId.value :=
                    ExecutionFact(a.facts[a.record.executionId.value].execution.(status := Uncertain)),
                  recovery := RecoveryFact(Recovery(recovery, q.actor, RecoveryPending))],
              Entry(a.record, Uncertainty(a.record, recovery), q.key + ":execution-gap"))
    && IdempotencyKey(q.scope, ReconcileExecution, q.key + ":execution-gap") in t.rows
  }

  /** What recovering does at the stored revision: an open attempt is reconciled first; whatever then is to be
      verified is verified, and nothing else is touched. `mid` is the store in between. */
  predicate RecoverOutcome(w: World, n: nat, q: Request, env: Env, after: Env, mid: Store, v: World)
    requires q.interactionId in w.store.aggregates
  {
    var a := w.store.aggregates[q.interactionId];
    if a.record.state.Executing? then
      if GapRowKey(q) in w.store.rows then RefusedWith(w, n, v, RevisionConflict)
      else
        && Reconciled(w.store, mid, q, env.id0) && q.interactionId in mid.aggregates
        && Answered(w, n, v, StatusAnswer) && ProofOutcome(mid, v.store, q, after)
    else VerifyOutcome(w, n, q, a.record.revision, after, v)
  }

  lemma ReconcileDecides(q: Request, a: Aggregate, seen: Seen, env: Env)
    requires AggregateOk(a) && a.record.state.Executing? && q.action.RecoverAction?
    requires Accurate(a, seen) && Ids(a.record.executionId) <= seen.Keys
    ensures HasExecution(a)
    ensures var d := Decide(Reconciling, q, a.record, seen, env);
            && d.Ok? && d.value.consumption.None?
            && d.value.next == Uncertainty(a.record, env.id0)
            && d.value.facts == map[a.record.executionId.value :=
                                      ExecutionFact(a.facts[a.record.executionId.value].execution.(status := Uncertain)),
                                    env.id0 := RecoveryFact(Recovery(env.id0, q.actor, RecoveryPending))]
            && d.value.audits == Entry(a.record, d.value.next, q.key + ":execution-gap")
  {
    hide PreviewsNumbered, Trailed, SuccessProven, ConsentHeld;
    assert FactId(a.facts[a.record.executionId.value]) == a.record.executionId.value;
  }

  lemma ReconcileTells(w: World, n: nat, q: Request, a: Aggregate, seen: Seen, env: Env)
    requires n in w.calls && q.interactionId in w.store.aggregates && w.store.aggregates[q.interactionId] == a
    requires w.calls[n].request == q && a.record.id == q.interactionId && a.record.origin.scope == q.scope
    requires Decide(Reconciling, q, a.record, seen, env).Ok?
    requires Decide(Reconciling, q, a.record, seen, env).value.consumption.None?
    requires GapRowKey(q) in w.store.rows ==> w.store.rows[GapRowKey(q)].interactionId != q.interactionId
    requires q.action.RecoverAction?
    ensures var v, c := CommitStep(Moved(w, n, Working(Reconciling, a.record, seen)), n, env),
                        Decide(Reconciling, q, a.record, seen, env).value;
            if GapRowKey(q) in w.store.rows then RefusedWith(w, n, v, RevisionConflict)
            else
              && v.log == w.log && n in v.calls && v.calls[n] == Call(q, VerifyBegin(c.next.revision))
              && v.store.rows.Keys == w.store.rows.Keys + {GapRowKey(q)}
              && Became(w.store, v.store, q.interactionId, c.next, c.facts, c.audits)
  {
    hide Decide;
    DecidedHeader(Reconciling, q, a.record, seen, env, Decide(Reconciling, q, a.record, seen, env).value);
  }

  lemma AloneKeeps(w: World, n: nat, v: World)
    requires Inv(w) && Alone(w, n, v)
    ensures Inv(v)
  {
    hide Inv, Valid, Run, By;
    var steps :| Valid(w, steps) && Run(w, steps) == v && forall j | 0 <= j < |steps| :: By(steps[j], n);
    RunKeeps(w, steps);
  }

  /** A gap row of this interaction would mean that its attempt was reconciled already. */
  lemma OpenAttemptHasNoGapRow(w: World, q: Request)
    requires Inv(w) && q.interactionId in w.store.aggregates
    requires w.store.aggregates[q.interactionId].record.state.Executing?
    ensures GapRowKey(q) in w.store.rows ==> w.store.rows[GapRowKey(q)].interactionId != q.interactionId
  {
    hide CallsOk, LogOk, HistoryOk, AggregateOk;
    if GapRowKey(q) in w.store.rows { assert RowOk(w.store, GapRowKey(q), w.store.rows[GapRowKey(q)]); }
  }

  lemma Reconciles(w: World, n: nat, q: Request, env: Env) returns (u: World)
    requires Asked(w, n, q, env) && q.action.RecoverAction?
    requires w.store.aggregates[q.interactionId].record.state.Executing?
    requires w.store.aggregates[q.interactionId].record.revision == q.expected
    ensures Alone(w, n, u) && Inv(u) && u.log == w.log
    ensures if GapRowKey(q) in w.store.rows then RefusedWith(w, n, u, RevisionConflict)
            else
              && Reconciled(w.store, u.store, q, env.id0)
              && n in u.calls && u.calls[n] == Call(q, VerifyBegin(q.expected + 1)) && KeyOf(q) !in u.store.rows
  {
    hide Alone, Inv, NewEverywhere, AggregateOk, CommitStep, Became, Decide;
    var a := w.store.aggregates[q.interactionId];
    Here(w, n, q, env);
    OpenAttempt(a);
    OpenAttemptHasNoGapRow(w, q);
    var pc, seen := Working(Reconciling, a.record, map[]), Readings(a, Needs(Reconciling, q, a.record));
    var w1, w2 := Moved(w, n, Checked), Moved(w, n, pc);
    assert Moved(w1, n, pc) == w2;
    u := StageEnds(w2, n, q, Reconciling, a, env);
    SameMove(w, n, pc, Working(Reconciling, a.record, seen));
    ReconcileDecides(q, a, seen, env);
    ReconcileTells(w, n, q, a, seen, env);
    AloneReadsRecord(w1, n, pc, u);
    AloneReadsRow(w, n, Checked, u);
    AloneKeeps(w, n, u);
  }

  lemma OpenAttempt(a: Aggregate)
    requires AggregateOk(a) && a.record.state.Executing?
    ensures a.record.execution.Attempted?
  {
    hide PreviewsNumbered, Trailed, ConsentHeld, RecoveryTracked, SuccessProven, Keyed;
  }

  /** The ids drawn for verification are new beside the Recovery that reconciling opened. */
  lemma NewAfterReconciling(s: Store, t: Store, q: Request, env: Env, after: Env)
    requires q.interactionId in s.aggregates && Reconciled(s, t, q, env.id0)
    requires NewEverywhere(s, after) && DrawnAfter(env, after)
    ensures NewEverywhere(t, after)
  {
  }

  lemma RecoverAnswers(w: World, n: nat, q: Request, env: Env, after: Env) returns (mid: Store, v: World)
    requires Asked(w, n, q, env) && q.action.RecoverAction?
    requires w.store.aggregates[q.interactionId].record.revision == q.expected
    requires NewEverywhere(w.store, after) && DrawnAfter(env, after)
    ensures Alone(w, n, v) && RecoverOutcome(w, n, q, env, after, mid, v)
  {
    hide Alone, Inv, NewEverywhere, AggregateOk, CommitStep, Became, Decide, DrawnAfter, ProofOutcome;
    var a := w.store.aggregates[q.interactionId];
    Here(w, n, q, env);
    mid := w.store;
    if a.record.state.Executing? {
      var u := Reconciles(w, n, q, env);
      v := u;
      if GapRowKey(q) !in w.store.rows {
        mid := u.store;
        NewAfterReconciling(w.store, mid, q, env, after);
        ReconciledRecord(w.store, mid, q, env.id0);
        v := VerificationAnswers(u, n, q, q.expected + 1, after);
        AloneThen(w, n, u, v);
      }
    } else {
      var pc := VerifyBegin(a.record.revision);
      var w1, w2 := Moved(w, n, Checked), Moved(w, n, pc);
      assert Moved(w1, n, pc) == w2;
      AloneHere(w2, n);
      AloneReadsRecord(w1, n, pc, w2);
      AloneReadsRow(w, n, Checked, w2);
      AloneKeeps(w, n, w2);
      v := VerificationAnswers(w2, n, q, a.record.revision, after);
      AloneThen(w, n, w2, v);
    }
  }

  lemma ReconciledRecord(s: Store, t: Store, q: Request, id: Id)
    requires q.interactionId in s.aggregates && Reconciled(s, t, q, id)
    ensures q.interactionId in t.aggregates
    ensures var r := t.aggregates[q.interactionId].record;
            && r.state.RecoveryRequired? && r.revision == s.aggregates[q.interactionId].record.revision + 1
            && r.origin == s.aggregates[q.interactionId].record.origin
  {
  }

  function StaleError(s: Store, q: Request): Error {
    if GapRowKey(q) in s.rows && s.rows[GapRowKey(q)].digest != DigestOf(q) then IdempotencyConflict else RevisionConflict
  }

  lemma StaleReads(w: World, q: Request)
    requires Inv(w) && q.action.RecoverAction? && !Blank(q.key) && KeyOf(q) !in w.store.rows
    requires !Interrupted(w.store, q) && q.interactionId in w.store.aggregates
    requires var r := w.store.aggregates[q.interactionId].record; r.origin.scope == q.scope && r.revision != q.expected
    ensures AfterReadRow(w.store, q, Begin) == Checked && AfterReadRecord(w.store, q, Checked) == GapCheck
    ensures AfterReadRow(w.store, q, GapCheck) == Finished(Failure(StaleError(w.store, q)))
  {
    hide AggregateOk, CallsOk, LogOk, HistoryOk, DigestOf, AggregatesOk;
    if GapRowKey(q) in w.store.rows { assert RowOk(w.store, GapRowKey(q), w.store.rows[GapRowKey(q)]); }
  }

  /** A recovery at a revision that has passed goes on only from its own reconciliation; see `RecoveryResumes`. */
  lemma StaleRecoveryIsRefused(w: World, n: nat, q: Request, env: Env) returns (v: World)
    requires Asked(w, n, q, env) && q.action.RecoverAction? && !Interrupted(w.store, q)
    requires w.store.aggregates[q.interactionId].record.revision != q.expected
    ensures Alone(w, n, v) && RefusedWith(w, n, v, StaleError(w.store, q))
  {
    hide *;
    AskedHere(w, n, q, env);
    StaleReads(w, q);
    var e := StaleError(w.store, q);
    var w1, w2 := Moved(w, n, Checked), Moved(w, n, GapCheck);
    v := Moved(w, n, Finished(Failure(e)));
    SameMove(w, n, Checked, GapCheck);
    SameMove(w, n, GapCheck, Finished(Failure(e)));
    MovedRefuses(w, n, e);
    AloneHere(v, n);
    AloneReadsRow(w2, n, Finished(Failure(e)), v);
    AloneReadsRecord(w1, n, GapCheck, v);
    AloneReadsRow(w, n, Checked, v);
  }

  lemma AskedHere(w: World, n: nat, q: Request, env: Env)
    requires Asked(w, n, q, env)
    ensures Inv(w) && n in w.calls && !Blank(q.key) && KeyOf(q) !in w.store.rows
    ensures q.action.VerifyAction? || w.calls[n] == Call(q, Begin)
    ensures q.interactionId in w.store.aggregates
    ensures w.store.aggregates[q.interactionId].record.origin.scope == q.scope
  {
  }

  lemma MovedRefuses(w: World, n: nat, e: Error)
    requires n in w.calls
    ensures RefusedWith(w, n, Moved(w, n, Finished(Failure(e))), e)
  {
  }

  // ---------- requests for nothing, and new interactions ----------

  /** Without a key nothing is looked at; and an interaction is found only in its own workspace. */
  lemma NothingIsFound(w: World, n: nat, q: Request) returns (v: World)
    requires n in w.calls && w.calls[n] == Call(q, if q.action.VerifyAction? then VerifyBegin(q.expected) else Begin)
    requires if Blank(q.key) then true
             else
               && KeyOf(q) !in w.store.rows
               && (q.interactionId in w.store.aggregates ==>
                     w.store.aggregates[q.interactionId].record.origin.scope != q.scope)
    ensures Alone(w, n, v) && RefusedWith(w, n, v, if Blank(q.key) then IdempotencyKeyMissing else NotFound)
  {
    hide Alone, KeyOf, DigestOf;
    if Blank(q.key) {
      var pc := Finished(Failure(IdempotencyKeyMissing));
      v := Moved(w, n, pc);
      AloneHere(v, n);
      AloneReadsRow(w, n, pc, v);
    } else {
      var pc := Finished(Failure(NotFound));
      var pc1 := if q.action.VerifyAction? then VerifyChecked(q.expected) else Checked;
      var w1 := Moved(w, n, pc1);
      v := Moved(w, n, pc);
      assert Moved(w1, n, pc) == v;
      AloneHere(v, n);
      AloneReadsRecord(w1, n, pc, v);
      AloneReadsRow(w, n, pc1, v);
    }
  }

  /** What opening does: under a new key the interaction begins at revision 1, REQUESTED, with nothing attempted,
      nothing to verify or recover, and no facts; its first audit row says so. */
  lemma OpenAnswers(w: World, origin: Origin, key: string, id: Id)
    requires id !in w.store.aggregates && !Blank(key) && IdempotencyKey(origin.scope, Create, key) !in w.store.rows
    ensures var v := OpenStep(w, origin, key, id);
            && v.log == w.log && v.calls == w.calls
            && v.store.aggregates.Keys == w.store.aggregates.Keys + {id}
            && (forall i | i in w.store.aggregates :: v.store.aggregates[i] == w.store.aggregates[i])
            && var a := v.store.aggregates[id];
            && a.record.id == id && a.record.origin == origin && a.record.revision == 1
            && a.record.state.Requested? && a.record.execution.NotStarted?
            && a.record.verification.VerificationNotRequired? && a.record.recovery.RecoveryNotRequired?
            && a.record.previewId.None? && a.record.objectId.None?
            && a.facts == map[] && a.audits == [Audit(None, Requested, 1, key)]
  {
  }
}
