/** Every step of every caller keeps the protocol invariant, so it holds after every run. */
module InteractionSafety {
  import opened Basics
  import opened InteractionModels
  import opened InteractionStore
  import opened InteractionDecisions
  import opened InteractionAggregates
  import opened InteractionRuns
  import opened InteractionProtocol

  // ---------- steps that only move the caller ----------

  lemma MoveKeeps(w: World, n: nat, pc: Pc)
    requires Inv(w) && n in w.calls
    requires !pc.Armed? && CallOk(w.store, w.calls[n].(pc := pc))
    ensures Inv(Moved(w, n, pc))
  {
    var v := Moved(w, n, pc);
    assert forall m, i | ArmedFor(v, m, i) :: ArmedFor(w, m, i);
  }

  lemma ReadKeyRowOk(s: Store, q: Request, pc: Pc)
    requires KeyOf(q) in s.rows ==> RowOk(s, KeyOf(q), s.rows[KeyOf(q)])
    requires CallOk(s, Call(q, pc)) && (pc.Begin? || pc.VerifyBegin?)
    ensures CallOk(s, Call(q, AfterReadRow(s, q, pc)))
  {
    hide DigestOf, GapKey;
  }

  lemma ReadGapRowOk(s: Store, q: Request)
    requires GapRowKey(q) in s.rows ==> RowOk(s, GapRowKey(q), s.rows[GapRowKey(q)])
    requires CallOk(s, Call(q, GapCheck))
    ensures CallOk(s, Call(q, AfterReadRow(s, q, GapCheck)))
  {
    hide Resolved;
    ExpectedOf(q);
  }

  lemma ReadRowOk(s: Store, q: Request, pc: Pc)
    requires RowsOk(s) && CallOk(s, Call(q, pc))
    requires pc.Begin? || pc.VerifyBegin? || pc.GapCheck?
    ensures CallOk(s, Call(q, AfterReadRow(s, q, pc)))
  {
    hide CallOk, RowOk, AfterReadRow, KeyOf, GapRowKey;
    if pc.GapCheck? {
      ReadGapRowOk(s, q);
    } else {
      ReadKeyRowOk(s, q, pc);
    }
  }

  lemma ReadRecordOk(s: Store, q: Request, pc: Pc)
    requires CallOk(s, Call(q, pc))
    requires forall i | i in s.aggregates :: s.aggregates[i].record.id == i
    requires pc.Checked? || pc.VerifyChecked? || pc.Reload?
    ensures CallOk(s, Call(q, AfterReadRecord(s, q, pc)))
  {
    hide KeyOf, Needs, Resolved;
  }

  lemma ReadFactOk(s: Store, q: Request, pc: Pc, id: Id)
    requires CallOk(s, Call(q, pc))
    requires pc.Working? || pc.Replaying?
    ensures CallOk(s, Call(q, AfterReadFact(s, q, pc, id)))
  {
  }

  lemma ReadRowStays(s: Store, q: Request, pc: Pc)
    requires pc.Begin? || pc.VerifyBegin? || pc.GapCheck?
    ensures !AfterReadRow(s, q, pc).Armed?
  {
  }

  lemma ReadRecordStays(s: Store, q: Request, pc: Pc)
    requires pc.Checked? || pc.VerifyChecked? || pc.Reload?
    ensures !AfterReadRecord(s, q, pc).Armed?
  {
  }

  lemma ReadRowKeeps(w: World, n: nat)
    requires Inv(w) && n in w.calls && (w.calls[n].pc.Begin? || w.calls[n].pc.VerifyBegin? || w.calls[n].pc.GapCheck?)
    ensures Inv(Moved(w, n, AfterReadRow(w.store, w.calls[n].request, w.calls[n].pc)))
  {
    hide CallOk, LogOk, HistoryOk, AggregatesOk, AfterReadRow;
    var q, pc := w.calls[n].request, w.calls[n].pc;
    ReadRowOk(w.store, q, pc);
    ReadRowStays(w.store, q, pc);
    MoveKeeps(w, n, AfterReadRow(w.store, q, pc));
  }

  lemma ReadRecordKeeps(w: World, n: nat)
    requires Inv(w) && n in w.calls && (w.calls[n].pc.Checked? || w.calls[n].pc.VerifyChecked? || w.calls[n].pc.Reload?)
    ensures Inv(Moved(w, n, AfterReadRecord(w.store, w.calls[n].request, w.calls[n].pc)))
  {
    hide CallOk, LogOk, HistoryOk, AggregateOk, RowsOk, AfterReadRecord;
    var q, pc := w.calls[n].request, w.calls[n].pc;
    ReadRecordOk(w.store, q, pc);
    ReadRecordStays(w.store, q, pc);
    MoveKeeps(w, n, AfterReadRecord(w.store, q, pc));
  }

  lemma ReadFactKeeps(w: World, n: nat, id: Id)
    requires Inv(w) && n in w.calls && (w.calls[n].pc.Working? || w.calls[n].pc.Replaying?)
    ensures Inv(Moved(w, n, AfterReadFact(w.store, w.calls[n].request, w.calls[n].pc, id)))
  {
    hide CallOk, LogOk, HistoryOk, StoreOk;
    var q, pc := w.calls[n].request, w.calls[n].pc;
    ReadFactOk(w.store, q, pc, id);
    MoveKeeps(w, n, AfterReadFact(w.store, q, pc, id));
  }

  lemma InvokeKeeps(w: World, n: nat, q: Request)
    requires Inv(w) && n !in w.calls
    ensures Inv(InvokeStep(w, n, q))
  {
    var v := InvokeStep(w, n, q);
    assert forall m, i | ArmedFor(v, m, i) :: ArmedFor(w, m, i);
  }

  lemma CrashKeeps(w: World, n: nat)
    requires Inv(w)
    ensures Inv(CrashStep(w, n))
  {
    var v := CrashStep(w, n);
    assert forall m, i | ArmedFor(v, m, i) :: ArmedFor(w, m, i);
  }

  lemma AfterPortOk(s: Store, q: Request, executing: Interaction, execution: Execution, port: PortCall)
    requires ArmedOk(s, q, executing, execution, port)
    ensures WorkingOk(s, q, Observing, executing, map[execution.id := Some(ExecutionFact(execution))])
    ensures PortOk(s, port)
  {
  }

  /** The one step that reaches the outside world. */
  lemma CallPortKeeps(w: World, n: nat)
    requires Inv(w) && n in w.calls && w.calls[n].pc.Armed?
    ensures Inv(PortStep(w, n))
  {
    hide AggregatesOk, RowsOk, WorkingOk, PortOk, ArmedOk, EventOk;
    var pc := w.calls[n].pc;
    var v := PortStep(w, n);
    AfterPortOk(w.store, w.calls[n].request, pc.executing, pc.execution, pc.port);
    assert ArmedFor(w, n, pc.port.interactionId);
    assert forall m, i | ArmedFor(v, m, i) :: ArmedFor(w, m, i) && m != n;
  }

  // ---------- what a commit is, whatever it was decided from ----------

  /** The header of a decided commit. */
  predicate Headed(stage: Stage, q: Request, cur: Interaction, c: Commit) {
    && Belongs(stage, q)
    && c.next.id == cur.id && c.next.origin == cur.origin
    && c.expected == cur.revision && c.next.revision == cur.revision + 1
    && c.digest == DigestOf(q)
    && c.operation == (if stage.Reconciling? then ReconcileExecution else OperationOf(q))
    && c.key == (if stage.Reconciling? then GapKey(q.key) else q.key)
    && (c.consumption.Some? ==> stage.Confirming?)
    && (stage.Previewing? ==> c.next.previewId.Some?)
    && (stage.Confirming? ==> c.next.confirmationId.Some?)
    && (stage.Approving? ==> c.next.approvalId.Some?)
    && (stage.Reconciling? ==> c.next.state.RecoveryRequired?)
  }

  lemma DecidedHeader(stage: Stage, q: Request, cur: Interaction, seen: Seen, env: Env, c: Commit)
    requires Decide(stage, q, cur, seen, env) == Ok(c)
    ensures Headed(stage, q, cur, c)
  {
    match stage
    case _ =>
  }

  /** A commit that wins its swap was built from the stored record and the stored facts. */
  lemma WinnerIsReady(s: Store, q: Request, stage: Stage, cur: Interaction, seen: Seen, env: Env, c: Commit)
    requires cur.id in s.aggregates && AggregateOk(s.aggregates[cur.id]) && WorkingOk(s, q, stage, cur, seen)
    requires Needs(stage, q, cur) <= seen.Keys && NewIds(s.aggregates[cur.id], env)
    requires Headed(stage, q, cur, c) && Swappable(s, c)
    ensures cur == s.aggregates[cur.id].record
    ensures Ready(stage, q, s.aggregates[cur.id], seen, env)
  {
  }

  lemma ExpectedOf(q: Request)
    ensures DigestExpected(DigestOf(q)) == q.expected
  {
  }

  /** No key commits a second time, but for the observation that follows its own gate. */
  lemma KeyReuse(s: Store, q: Request, stage: Stage, cur: Interaction, seen: Seen, c: Commit)
    requires RowKey(c) in s.rows && RowOk(s, RowKey(c), s.rows[RowKey(c)])
    requires WorkingOk(s, q, stage, cur, seen)
    requires Headed(stage, q, cur, c) && Swappable(s, c) && Claimable(s, c)
    ensures stage.Observing?
  {
    ExpectedOf(q);
  }

  /** The gate lets a port call through only with the consent its Preview asks for. */
  lemma GateConsents(q: Request, a: Aggregate, seen: Seen, env: Env, c: Commit)
    requires Informed(a, seen, env) && a.record.state.Authorized?
    requires Read(seen, a.record.previewId) && Read(seen, a.record.confirmationId) && Read(seen, a.record.approvalId)
    requires DecideGate(q, a.record, seen, env) == Ok(c)
    ensures Consented(Apply(a, c), PortCallFor(q, a.record, seen, env))
    ensures c.next.state.Executing? && c.next.executionId == Some(env.id0)
    ensures Apply(a, c).facts[env.id0] == ExecutionFact(Execution(env.id0, q.actor, q.key, Attempted, None))
  {
    assert PreviewIn(seen, a.record.previewId) == Some(CurrentPreview(a));
  }

  // ---------- a commit and the store ----------

  lemma RowLasts(s: Store, t: Store, k: IdempotencyKey, row: IdempotencyRow)
    requires RowOk(s, k, row) && StoreEvolves(s, t)
    requires row.interactionId in t.aggregates && RecoveryTracked(t.aggregates[row.interactionId])
    requires RecoveryTracked(s.aggregates[row.interactionId])
    ensures RowOk(t, k, row)
  {
    var i := row.interactionId;
    if t.aggregates[i] != s.aggregates[i] {
      ResolvedLasts(s.aggregates[i], t.aggregates[i], k.operation, row.result);
    }
  }

  lemma CommitEvolves(s: Store, c: Commit)
    requires Committable(s, c)
    requires RowKey(c) in s.rows ==> c.operation.Execute?
    requires Evolves(s.aggregates[c.next.id], Apply(s.aggregates[c.next.id], c))
    ensures StoreEvolves(s, Written(s, c))
  {
  }

  predicate RecoveriesTracked(s: Store) {
    forall i | i in s.aggregates :: RecoveryTracked(s.aggregates[i])
  }

  lemma RecoveriesAreTracked(s: Store)
    requires AggregatesOk(s)
    ensures RecoveriesTracked(s)
  {
    forall i | i in s.aggregates
      ensures RecoveryTracked(s.aggregates[i])
    {
      assert AggregateOk(s.aggregates[i]);
    }
  }

  lemma RowsLast(s: Store, t: Store, k: IdempotencyKey)
    requires RowsOk(s) && StoreEvolves(s, t)
    requires RecoveriesTracked(s) && RecoveriesTracked(t)
    requires forall j | j in t.rows && j != k :: j in s.rows && t.rows[j] == s.rows[j]
    requires k in t.rows ==> RowOk(t, k, t.rows[k])
    ensures RowsOk(t)
  {
    forall j | j in t.rows
      ensures RowOk(t, j, t.rows[j])
    {
      if j != k {
        assert RowOk(s, j, s.rows[j]);
        RowLasts(s, t, j, s.rows[j]);
      }
    }
  }

  lemma CommitKeepsStore(s: Store, c: Commit)
    requires StoreOk(s) && Committable(s, c)
    requires AggregateOk(Apply(s.aggregates[c.next.id], c))
    requires StoreEvolves(s, Written(s, c))
    requires RowOk(Written(s, c), RowKey(c), IdempotencyRow(c.digest, c.next.id, c.next))
    ensures StoreOk(Written(s, c))
  {
    hide AggregateOk, RowOk;
    var t := Written(s, c);
    assert AggregatesOk(t);
    RecoveriesAreTracked(s);
    RecoveriesAreTracked(t);
    RowsLast(s, t, RowKey(c));
  }

  lemma NewRowOk(s: Store, q: Request, stage: Stage, cur: Interaction, seen: Seen, c: Commit)
    requires WorkingOk(s, q, stage, cur, seen) && Headed(stage, q, cur, c) && Committable(s, c)
    requires CoreOk(Apply(s.aggregates[c.next.id], c))
    ensures RowOk(Written(s, c), RowKey(c), IdempotencyRow(c.digest, c.next.id, c.next))
  {
    ExpectedOf(q);
  }

  // ---------- a commit and the callers ----------

  lemma CallsLast(w: World, t: Store)
    requires CallsOk(w) && StoreEvolves(w.store, t)
    ensures forall n | n in w.calls :: CallOk(t, w.calls[n])
  {
    forall n | n in w.calls
      ensures CallOk(t, w.calls[n])
    {
      CallLasts(w.store, t, w.calls[n]);
    }
  }

  lemma LogLasts(w: World, t: Store)
    requires LogOk(w) && StoreEvolves(w.store, t)
    ensures LogOk(w.(store := t))
  {
    var v := w.(store := t);
    forall j | 0 <= j < |w.log|
      ensures PortOk(t, w.log[j])
    {
      PortLasts(w.store, t, w.log[j]);
    }
    assert forall n, i :: ArmedFor(v, n, i) <==> ArmedFor(w, n, i);
  }

  lemma ArmedHasExecution(w: World, m: nat, i: Id)
    requires CallsOk(w) && ArmedFor(w, m, i)
    ensures i in w.store.aggregates && w.store.aggregates[i].record.executionId.Some?
  {
    var pc := w.calls[m].pc;
    assert CallOk(w.store, w.calls[m]);
    assert ArmedOk(w.store, w.calls[m].request, pc.executing, pc.execution, pc.port);
  }

  /** No other caller holds, and nobody has used, the attempt of an interaction without an execution. */
  lemma AttemptIsFree(w: World, i: Id)
    requires CallsOk(w) && LogOk(w) && i in w.store.aggregates && w.store.aggregates[i].record.executionId.None?
    ensures forall m :: !ArmedFor(w, m, i)
    ensures forall j | 0 <= j < |w.log| :: w.log[j].interactionId != i
  {
    forall m
      ensures ArmedFor(w, m, i) ==> w.store.aggregates[i].record.executionId.Some?
    {
      if ArmedFor(w, m, i) {
        ArmedHasExecution(w, m, i);
      }
    }
    forall j | 0 <= j < |w.log|
      ensures w.log[j].interactionId != i
    {
      assert PortOk(w.store, w.log[j]);
    }
  }

  /** The winner goes on; it takes the attempt only when nobody has it. */
  lemma WinnerMoves(w: World, n: nat, pc: Pc, t: Store, e: Event)
    requires n in w.calls && !w.calls[n].pc.Armed?
    requires CallsOk(w) && LogOk(w) && StoreEvolves(w.store, t)
    requires CallOk(t, Call(w.calls[n].request, pc))
    requires pc.Armed? ==>
               && pc.port.interactionId in w.store.aggregates
               && w.store.aggregates[pc.port.interactionId].record.executionId.None?
    ensures CallsOk(Advanced(w, n, pc, t, e)) && LogOk(Advanced(w, n, pc, t, e))
  {
    hide CallOk, PortOk, StoreEvolves;
    var v := Advanced(w, n, pc, t, e);
    CallsLast(w, t);
    LogLasts(w, t);
    assert forall m, i | ArmedFor(v, m, i) && m != n :: ArmedFor(w, m, i);
    if pc.Armed? {
      AttemptIsFree(w, pc.port.interactionId);
    }
    assert forall i | ArmedFor(v, n, i) :: pc.Armed? && i == pc.port.interactionId;
  }

  lemma GateArms(s: Store, q: Request, cur: Interaction, seen: Seen, env: Env, c: Commit)
    requires WorkingOk(s, q, Gate, cur, seen) && Headed(Gate, q, cur, c) && Committable(s, c)
    requires Needs(Gate, q, cur) <= seen.Keys
    requires CoreOk(s.aggregates[cur.id]) && NewIds(s.aggregates[cur.id], env)
    requires Decide(Gate, q, cur, seen, env) == Ok(c)
    ensures ArmedOk(Written(s, c), q, c.next, Execution(env.id0, q.actor, q.key, Attempted, None), PortCallFor(q, cur, seen, env))
    ensures cur.executionId.None?
  {
    GateIsCurrent(s, q, cur, seen, env, c);
    hide WorkingOk, Headed, Committable, CoreOk, Decide, DecideGate, Consented, Needs, NewIds, Accurate, ArmedOk;
    GateConsents(q, s.aggregates[cur.id], seen, env, c);
    GateStands(s, q, cur, seen, env, c);
  }

  lemma GateIsCurrent(s: Store, q: Request, cur: Interaction, seen: Seen, env: Env, c: Commit)
    requires WorkingOk(s, q, Gate, cur, seen) && Headed(Gate, q, cur, c) && Committable(s, c)
    requires Needs(Gate, q, cur) <= seen.Keys
    requires CoreOk(s.aggregates[cur.id]) && NewIds(s.aggregates[cur.id], env)
    requires Decide(Gate, q, cur, seen, env) == Ok(c)
    ensures cur.id in s.aggregates && cur == s.aggregates[cur.id].record
    ensures Informed(s.aggregates[cur.id], seen, env) && cur.state.Authorized? && cur.executionId.None?
    ensures Read(seen, cur.previewId) && Read(seen, cur.confirmationId) && Read(seen, cur.approvalId)
    ensures DecideGate(q, cur, seen, env) == Ok(c)
  {
    hide DecideGate, NewIds, Keyed, SuccessProven, RecoveryTracked, Accurate;
  }

  lemma GateStands(s: Store, q: Request, cur: Interaction, seen: Seen, env: Env, c: Commit)
    requires WorkingOk(s, q, Gate, cur, seen) && Headed(Gate, q, cur, c) && Committable(s, c)
    requires cur.id in s.aggregates && Consented(Apply(s.aggregates[cur.id], c), PortCallFor(q, cur, seen, env))
    requires c.next.state.Executing? && c.next.executionId == Some(env.id0)
    requires env.id0 in Apply(s.aggregates[cur.id], c).facts
    requires Apply(s.aggregates[cur.id], c).facts[env.id0]
             == ExecutionFact(Execution(env.id0, q.actor, q.key, Attempted, None))
    ensures ArmedOk(Written(s, c), q, c.next, Execution(env.id0, q.actor, q.key, Attempted, None), PortCallFor(q, cur, seen, env))
  {
    hide Consented;
  }

  lemma GateContinues(s: Store, q: Request, cur: Interaction, seen: Seen, env: Env, c: Commit)
    requires WorkingOk(s, q, Gate, cur, seen) && Headed(Gate, q, cur, c) && Committable(s, c)
    requires Needs(Gate, q, cur) <= seen.Keys
    requires CoreOk(s.aggregates[cur.id]) && NewIds(s.aggregates[cur.id], env)
    requires Decide(Gate, q, cur, seen, env) == Ok(c)
    ensures CallOk(Written(s, c), Call(q, AfterCommit(Gate, q, cur, seen, env, c)))
    ensures var pc := AfterCommit(Gate, q, cur, seen, env, c); pc.Armed? && pc.port.interactionId == cur.id
    ensures cur.executionId.None?
  {
    hide CoreOk, ArmedOk, WorkingOk, Headed, Decide, Committable, Written, NewIds, Needs;
    GateArms(s, q, cur, seen, env, c);
  }

  lemma WinnerContinues(s: Store, q: Request, stage: Stage, cur: Interaction, seen: Seen, env: Env, c: Commit)
    requires WorkingOk(s, q, stage, cur, seen) && Headed(stage, q, cur, c) && Committable(s, c)
    requires !stage.Gate?
    ensures CallOk(Written(s, c), Call(q, AfterCommit(stage, q, cur, seen, env, c)))
    ensures !AfterCommit(stage, q, cur, seen, env, c).Armed?
  {
  }

  // ---------- a commit and the history ----------

  lemma CountAppend(history: seq<Event>, e: Event, i: Id)
    ensures Count(history + [e], i) == Count(history, i) + if e.interactionId == i then 1 else 0
  {
    assert (history + [e])[..|history|] == history;
  }

  lemma {:induction false} CountNone(history: seq<Event>, i: Id)
    requires forall j | 0 <= j < |history| :: history[j].interactionId != i
    ensures Count(history, i) == 0
  {
    if history == [] {
    } else {
      CountNone(history[..|history| - 1], i);
    }
  }

  lemma EventLasts(s: Store, t: Store, e: Event)
    requires EventOk(s, e) && StoreEvolves(s, t)
    ensures EventOk(t, e)
  {
  }

  /** An earlier event under the key of a commit is the gate of its own observation. */
  lemma EarlierEvent(s: Store, q: Request, stage: Stage, cur: Interaction, seen: Seen, c: Commit, e: Event)
    requires EventOk(s, e) && e.key == RowKey(c)
    requires RowOk(s, RowKey(c), s.rows[RowKey(c)]) && WorkingOk(s, q, stage, cur, seen)
    requires Headed(stage, q, cur, c) && Swappable(s, c) && Claimable(s, c)
    ensures e.key.operation.Execute? && c.next.revision == e.revision + 1
  {
    KeyReuse(s, q, stage, cur, seen, c);
    ExpectedOf(q);
  }

  lemma NewEventOk(s: Store, q: Request, stage: Stage, cur: Interaction, seen: Seen, c: Commit)
    requires WorkingOk(s, q, stage, cur, seen) && Headed(stage, q, cur, c) && Committable(s, c)
    ensures EventOk(Written(s, c), EventOf(c))
  {
    ExpectedOf(q);
  }

  ghost predicate CountsOk(s: Store, h: seq<Event>) {
    forall i | i in s.aggregates :: Count(h, i) == s.aggregates[i].record.revision
  }

  lemma CountsGrow(s: Store, h: seq<Event>, c: Commit)
    requires CountsOk(s, h) && Committable(s, c) && c.next.revision == c.expected + 1
    ensures CountsOk(Written(s, c), h + [EventOf(c)])
  {
    forall i | i in Written(s, c).aggregates
      ensures Count(h + [EventOf(c)], i) == Written(s, c).aggregates[i].record.revision
    {
      CountAppend(h, EventOf(c), i);
    }
  }

  /** Appending an event keeps the history lawful if the earlier ones last and none clashes with it. */
  lemma HistoryGrows(w: World, t: Store, e: Event, v: World)
    requires HistoryOk(w)
    requires v.store == t && v.history == w.history + [e]
    requires CountsOk(t, v.history) && EventOk(t, e)
    requires forall j | 0 <= j < |w.history| :: EventOk(t, w.history[j])
    requires forall j | 0 <= j < |w.history| && w.history[j].key == e.key ::
               w.history[j].key.operation.Execute? && e.revision == w.history[j].revision + 1
    ensures HistoryOk(v)
  {
    var h := v.history;
    assert forall j | 0 <= j < |w.history| :: h[j] == w.history[j];
  }

  lemma EventsLast(w: World, q: Request, stage: Stage, cur: Interaction, seen: Seen, c: Commit, j: nat)
    requires HistoryOk(w) && RowsOk(w.store)
    requires WorkingOk(w.store, q, stage, cur, seen) && Headed(stage, q, cur, c) && Committable(w.store, c)
    requires StoreEvolves(w.store, Written(w.store, c))
    requires j < |w.history|
    ensures EventOk(Written(w.store, c), w.history[j])
    ensures w.history[j].key == RowKey(c) ==>
              w.history[j].key.operation.Execute? && c.next.revision == w.history[j].revision + 1
  {
    var e := w.history[j];
    assert EventOk(w.store, e);
    if e.key == RowKey(c) {
      assert RowOk(w.store, RowKey(c), w.store.rows[RowKey(c)]);
      EarlierEvent(w.store, q, stage, cur, seen, c, e);
    }
    EventLasts(w.store, Written(w.store, c), e);
  }

  lemma CommitKeepsHistory(w: World, q: Request, stage: Stage, cur: Interaction, seen: Seen, c: Commit, v: World)
    requires HistoryOk(w) && RowsOk(w.store)
    requires WorkingOk(w.store, q, stage, cur, seen) && Headed(stage, q, cur, c) && Committable(w.store, c)
    requires StoreEvolves(w.store, Written(w.store, c))
    requires v.store == Written(w.store, c) && v.history == w.history + [EventOf(c)]
    ensures HistoryOk(v)
  {
    forall j | 0 <= j < |w.history|
      ensures EventOk(Written(w.store, c), w.history[j])
      ensures w.history[j].key == RowKey(c) ==>
                w.history[j].key.operation.Execute? && c.next.revision == w.history[j].revision + 1
    {
      EventsLast(w, q, stage, cur, seen, c, j);
    }
    NewEventOk(w.store, q, stage, cur, seen, c);
    CountsGrow(w.store, w.history, c);
    HistoryGrows(w, Written(w.store, c), EventOf(c), v);
  }

  // ---------- the commit step ----------

  /** A commit that wins keeps the store lawful. */
  lemma WinnerWrites(s: Store, q: Request, stage: Stage, cur: Interaction, seen: Seen, env: Env, c: Commit)
    requires StoreOk(s) && WorkingOk(s, q, stage, cur, seen)
    requires Needs(stage, q, cur) <= seen.Keys && NewEverywhere(s, env)
    requires Decide(stage, q, cur, seen, env) == Ok(c)
    requires Headed(stage, q, cur, c) && Committable(s, c)
    ensures StoreOk(Written(s, c)) && StoreEvolves(s, Written(s, c))
    ensures cur.id in s.aggregates && cur == s.aggregates[cur.id].record
    ensures CoreOk(s.aggregates[cur.id]) && NewIds(s.aggregates[cur.id], env)
  {
    hide Decide, Bound, Keyed, PreviewsNumbered, Trailed, Needs, Fits, Evolves, RowOk, DigestOf;
    WinnerIsReady(s, q, stage, cur, seen, env, c);
    StageKeeps(stage, q, s.aggregates[cur.id], seen, env, c);
    if RowKey(c) in s.rows {
      KeyReuse(s, q, stage, cur, seen, c);
    }
    CommitEvolves(s, c);
    NewRowOk(s, q, stage, cur, seen, c);
    CommitKeepsStore(s, c);
  }

  lemma WorkingCall(s: Store, call: Call)
    requires CallOk(s, call) && call.pc.Working?
    ensures WorkingOk(s, call.request, call.pc.stage, call.pc.cur, call.pc.seen)
  {
  }

  lemma WinnerKeeps(w: World, n: nat, env: Env, c: Commit)
    requires Inv(w) && n in w.calls && w.calls[n].pc.Working?
    requires Needs(w.calls[n].pc.stage, w.calls[n].request, w.calls[n].pc.cur) <= w.calls[n].pc.seen.Keys
    requires NewEverywhere(w.store, env)
    requires Decide(w.calls[n].pc.stage, w.calls[n].request, w.calls[n].pc.cur, w.calls[n].pc.seen, env) == Ok(c)
    requires Committable(w.store, c)
    ensures StoreEvolves(w.store, Written(w.store, c))
    ensures Inv(Advanced(w, n, AfterCommit(w.calls[n].pc.stage, w.calls[n].request, w.calls[n].pc.cur,
                                           w.calls[n].pc.seen, env, c), Written(w.store, c), EventOf(c)))
  {
    hide AggregatesOk, RowOk, LogOk, HistoryOk, CallOk, Headed, StoreEvolves, WorkingOk, Decide,
      Committable, CoreOk, NewIds, ArmedOk;
    var q, pc, t := w.calls[n].request, w.calls[n].pc, Written(w.store, c);
    var next := AfterCommit(pc.stage, q, pc.cur, pc.seen, env, c);
    WorkingCall(w.store, w.calls[n]);
    DecidedHeader(pc.stage, q, pc.cur, pc.seen, env, c);
    WinnerWrites(w.store, q, pc.stage, pc.cur, pc.seen, env, c);
    if pc.stage.Gate? {
      GateContinues(w.store, q, pc.cur, pc.seen, env, c);
    } else {
      WinnerContinues(w.store, q, pc.stage, pc.cur, pc.seen, env, c);
    }
    WinnerMoves(w, n, next, t, EventOf(c));
    CommitKeepsHistory(w, q, pc.stage, pc.cur, pc.seen, c, Advanced(w, n, next, t, EventOf(c)));
  }

  lemma CommitsKeep(w: World, n: nat, env: Env)
    requires Inv(w) && n in w.calls && w.calls[n].pc.Working?
    requires Needs(w.calls[n].pc.stage, w.calls[n].request, w.calls[n].pc.cur) <= w.calls[n].pc.seen.Keys
    requires NewEverywhere(w.store, env)
    ensures Inv(CommitStep(w, n, env))
    ensures CommitStep(w, n, env).store == w.store || StoreEvolves(w.store, CommitStep(w, n, env).store)
  {
    hide Inv, StoreEvolves, Decide, Written, Committable;
    var q, pc := w.calls[n].request, w.calls[n].pc;
    var d := Decide(pc.stage, q, pc.cur, pc.seen, env);
    if d.Err? {
      MoveKeeps(w, n, Finished(Failure(d.error)));
    } else if !Committable(w.store, d.value) {
      MoveKeeps(w, n, Finished(Failure(RevisionConflict)));
    } else {
      WinnerKeeps(w, n, env, d.value);
    }
  }

  // ---------- steps that touch no interaction, and the step that opens one ----------

  lemma SidewaysRows(s: Store, t: Store)
    requires RowsOk(s) && t.aggregates == s.aggregates && t.rows == s.rows
    ensures RowsOk(t) && StoreEvolves(s, t)
  {
    forall k | k in t.rows
      ensures RowOk(t, k, t.rows[k])
    {
      assert RowOk(s, k, s.rows[k]);
    }
  }

  lemma SidewaysHistory(w: World, t: Store)
    requires HistoryOk(w) && t.aggregates == w.store.aggregates && t.rows == w.store.rows
    ensures HistoryOk(w.(store := t))
  {
    forall j | 0 <= j < |w.history|
      ensures EventOk(t, w.history[j])
    {
      assert EventOk(w.store, w.history[j]);
    }
  }

  lemma SidewaysKeeps(w: World, t: Store)
    requires Inv(w)
    requires t.aggregates == w.store.aggregates && t.rows == w.store.rows
    ensures Inv(w.(store := t)) && StoreEvolves(w.store, t)
  {
    hide CallOk, AggregateOk, LogOk, HistoryOk, RowsOk, StoreEvolves;
    SidewaysRows(w.store, t);
    SidewaysHistory(w, t);
    CallsLast(w, t);
    LogLasts(w, t);
  }

  lemma OpenedOk(id: Id, origin: Origin, key: string)
    ensures AggregateOk(Opened(id, origin, key))
  {
  }

  function OpenedStore(s: Store, origin: Origin, key: string, id: Id): Store {
    s.(aggregates := s.aggregates[id := Opened(id, origin, key)],
       rows := s.rows[CreateKey(origin, key) := IdempotencyRow(CreateDigest(origin), id, Fresh(id, origin))])
  }

  function OpenEvent(origin: Origin, key: string, id: Id): Event {
    Event(CreateKey(origin, key), CreateDigest(origin), id, 1, None)
  }

  lemma OpenEvolves(s: Store, origin: Origin, key: string, id: Id)
    requires id !in s.aggregates && CreateKey(origin, key) !in s.rows
    ensures StoreEvolves(s, OpenedStore(s, origin, key, id))
    ensures RowOk(OpenedStore(s, origin, key, id), CreateKey(origin, key),
                  IdempotencyRow(CreateDigest(origin), id, Fresh(id, origin)))
  {
    hide Evolves;
  }

  lemma OpenKeepsAggregates(s: Store, origin: Origin, key: string, id: Id)
    requires AggregatesOk(s)
    ensures AggregatesOk(OpenedStore(s, origin, key, id))
  {
    hide AggregateOk;
    OpenedOk(id, origin, key);
  }

  lemma OpenKeepsStore(s: Store, origin: Origin, key: string, id: Id)
    requires StoreOk(s) && id !in s.aggregates && CreateKey(origin, key) !in s.rows
    ensures StoreEvolves(s, OpenedStore(s, origin, key, id))
    ensures StoreOk(OpenedStore(s, origin, key, id))
  {
    hide AggregatesOk, RowOk, RecoveryTracked, StoreEvolves;
    var t := OpenedStore(s, origin, key, id);
    OpenEvolves(s, origin, key, id);
    OpenKeepsAggregates(s, origin, key, id);
    RecoveriesAreTracked(s);
    RecoveriesAreTracked(t);
    RowsLast(s, t, CreateKey(origin, key));
  }

  lemma OpenKeepsHistory(w: World, origin: Origin, key: string, id: Id, v: World)
    requires HistoryOk(w) && id !in w.store.aggregates && CreateKey(origin, key) !in w.store.rows
    requires StoreEvolves(w.store, OpenedStore(w.store, origin, key, id))
    requires v.store == OpenedStore(w.store, origin, key, id) && v.history == w.history + [OpenEvent(origin, key, id)]
    ensures HistoryOk(v)
  {
    var t, e := v.store, OpenEvent(origin, key, id);
    forall j | 0 <= j < |w.history|
      ensures w.history[j].interactionId != id && w.history[j].key != e.key && EventOk(t, w.history[j])
    {
      assert EventOk(w.store, w.history[j]);
      EventLasts(w.store, t, w.history[j]);
    }
    CountNone(w.history, id);
    forall i | i in t.aggregates
      ensures Count(v.history, i) == t.aggregates[i].record.revision
    {
      CountAppend(w.history, e, i);
    }
    HistoryGrows(w, t, e, v);
  }

  lemma OpenKeeps(w: World, origin: Origin, key: string, id: Id)
    requires Inv(w) && id !in w.store.aggregates
    ensures Inv(OpenStep(w, origin, key, id))
    ensures OpenStep(w, origin, key, id).store == w.store || StoreEvolves(w.store, OpenStep(w, origin, key, id).store)
  {
    hide StoreOk, CallOk, HistoryOk, PortOk, StoreEvolves;
    var v := OpenStep(w, origin, key, id);
    if v != w {
      assert v == w.(store := OpenedStore(w.store, origin, key, id), history := w.history + [OpenEvent(origin, key, id)]);
      OpenKeepsStore(w.store, origin, key, id);
      OpenKeepsHistory(w, origin, key, id, v);
      CallsLast(w, v.store);
      LogLasts(w, v.store);
      assert forall n, i :: ArmedFor(v, n, i) <==> ArmedFor(w, n, i);
    }
  }

  // ---------- runs ----------

  lemma StepKeeps(w: World, step: Step)
    requires Inv(w) && Enabled(w, step)
    ensures Inv(Next(w, step))
    ensures Next(w, step).store == w.store || StoreEvolves(w.store, Next(w, step).store)
  {
    hide Inv, StoreEvolves, CommitStep, OpenStep, AfterReadRow, AfterReadRecord, AfterReadFact;
    match step
    case Open(origin, key, id) => OpenKeeps(w, origin, key, id);
    case Invoke(n, q) => InvokeKeeps(w, n, q);
    case ReadRow(n) => ReadRowKeeps(w, n);
    case ReadRecord(n) => ReadRecordKeeps(w, n);
    case ReadFact(n, id) => ReadFactKeeps(w, n, id);
    case Commits(n, env) => CommitsKeep(w, n, env);
    case CallPort(n) => CallPortKeeps(w, n);
    case Crash(n) => CrashKeeps(w, n);
    case Accept(_, _, _) => SidewaysKeeps(w, Next(w, step).store);
    case Challenge(_, _) => SidewaysKeeps(w, Next(w, step).store);
  }

  lemma {:induction false} RunKeeps(w: World, steps: seq<Step>)
    requires Inv(w) && Valid(w, steps)
    ensures Inv(Run(w, steps))
    decreases |steps|
  {
    hide Inv, Enabled, Next;
    if steps == [] {
    } else {
      StepKeeps(w, steps[0]);
      RunKeeps(Next(w, steps[0]), steps[1..]);
    }
  }

  lemma StartOk()
    ensures Inv(START)
  {
  }

  /** The protocol invariant holds in every reachable world. */
  lemma ReachableOk(w: World)
    requires Reachable(w)
    ensures Inv(w)
  {
    hide Inv, Valid, Run;
    StartOk();
    var steps :| Valid(START, steps) && Run(START, steps) == w;
    RunKeeps(START, steps);
  }
}
