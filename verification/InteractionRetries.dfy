/** Undisturbed retries: recovery that was interrupted goes on where it stopped, and the adapter's
    create-then-preview composition completes. */
module InteractionRetries {
  import opened Basics
  import opened Texts
  import opened InteractionModels
  import opened InteractionStore
  import opened InteractionDecisions
  import opened InteractionAggregates
  import opened InteractionRuns
  import opened InteractionProtocol
  import opened InteractionSafety
  import opened InteractionTheorems

  predicate By(step: Step, n: nat) {
    match step
    case ReadRow(m) => m == n
    case ReadRecord(m) => m == n
    case ReadFact(m, _) => m == n
    case Commits(m, _) => m == n
    case CallPort(m) => m == n
    case _ => false
  }

  /** Caller `n`, taking steps alone, can bring world `w` to world `v`. */
  ghost predicate Alone(w: World, n: nat, v: World) {
    exists steps ::
      && Valid(w, steps)
      && Run(w, steps) == v
      && forall j | 0 <= j < |steps| :: By(steps[j], n)
  }

  lemma AloneHere(w: World, n: nat)
    ensures Alone(w, n, w)
  {
    assert Valid(w, []) && Run(w, []) == w;
  }

  lemma AloneStep(w: World, n: nat, step: Step, v: World)
    requires Enabled(w, step) && By(step, n) && Alone(Next(w, step), n, v)
    ensures Alone(w, n, v)
  {
    hide Enabled, Next, By;
    var rest :| Valid(Next(w, step), rest) && Run(Next(w, step), rest) == v
                && forall j | 0 <= j < |rest| :: By(rest[j], n);
    var steps := [step] + rest;
    assert steps[0] == step && steps[1..] == rest;
    assert Valid(w, steps) && Run(w, steps) == v;
  }

  lemma AloneReadsRow(w: World, n: nat, pc: Pc, v: World)
    requires n in w.calls && (w.calls[n].pc.Begin? || w.calls[n].pc.VerifyBegin? || w.calls[n].pc.GapCheck?)
    requires pc == AfterReadRow(w.store, w.calls[n].request, w.calls[n].pc)
    requires Alone(Moved(w, n, pc), n, v)
    ensures Alone(w, n, v)
  {
    hide Alone, AfterReadRow, CommitStep, OpenStep;
    AloneStep(w, n, ReadRow(n), v);
  }

  lemma AloneReadsRecord(w: World, n: nat, pc: Pc, v: World)
    requires n in w.calls && (w.calls[n].pc.Checked? || w.calls[n].pc.VerifyChecked? || w.calls[n].pc.Reload?)
    requires pc == AfterReadRecord(w.store, w.calls[n].request, w.calls[n].pc)
    requires Alone(Moved(w, n, pc), n, v)
    ensures Alone(w, n, v)
  {
    hide Alone, AfterReadRecord, CommitStep, OpenStep;
    AloneStep(w, n, ReadRecord(n), v);
  }

  lemma AloneReadsFact(w: World, n: nat, id: Id, pc: Pc, v: World)
    requires n in w.calls && (w.calls[n].pc.Working? || w.calls[n].pc.Replaying?)
    requires pc == AfterReadFact(w.store, w.calls[n].request, w.calls[n].pc, id)
    requires Alone(Moved(w, n, pc), n, v)
    ensures Alone(w, n, v)
  {
    hide Alone, AfterReadFact, CommitStep, OpenStep;
    AloneStep(w, n, ReadFact(n, id), v);
  }

  lemma AloneCommits(w: World, n: nat, env: Env, c: Commit, v: World)
    requires n in w.calls && w.calls[n].pc.Working?
    requires Needs(w.calls[n].pc.stage, w.calls[n].request, w.calls[n].pc.cur) <= w.calls[n].pc.seen.Keys
    requires NewEverywhere(w.store, env)
    requires Decide(w.calls[n].pc.stage, w.calls[n].request, w.calls[n].pc.cur, w.calls[n].pc.seen, env) == Ok(c)
    requires Committable(w.store, c)
    requires Alone(Advanced(w, n, AfterCommit(w.calls[n].pc.stage, w.calls[n].request, w.calls[n].pc.cur,
                                              w.calls[n].pc.seen, env, c), Written(w.store, c), EventOf(c)), n, v)
    ensures Alone(w, n, v)
  {
    hide Alone, Decide, Committable, Written, NewEverywhere, Needs, AfterCommit, OpenStep;
    AloneStep(w, n, Commits(n, env), v);
  }

  // ---------- verification, undisturbed ----------

  /** The evidence says that exactly this execution of exactly this Preview was committed, and as what. */
  predicate EvidenceHolds(a: Aggregate, e: CommitEvidence) {
    && e.interactionId == a.record.id
    && a.record.executionId == Some(e.executionId)
    && a.record.previewId == Some(e.previewId)
    && e.scope == a.record.origin.scope
    && e.policy == a.record.origin.policy
    && e.commitRequired
    && e.outcome.Committed?
    && e.objectId.Some? && |e.objectId.value| > 0
    && e.revision.Some?
    && |e.digest| > 0
  }

  /** What verification makes of an interaction: it succeeds when the verifier vouches for it with a digest and,
      where the Preview asks for a commit, the authority's evidence holds; else recovery is required. */
  function ProofState(a: Aggregate, env: Env): Lifecycle
    requires HasPreview(a)
  {
    if && env.verification.Some? && env.verification.value.status.Verified? && |env.verification.value.digest| > 0
       && (CurrentPreview(a).plan.commitRequired ==> env.commit.Some? && EvidenceHolds(a, env.commit.value))
    then Succeeded else RecoveryRequired
  }

  /** The readings verification takes. */
  function ProofReadings(a: Aggregate): Seen
    requires HasPreview(a) && HasExecution(a)
  {
    var seen := map[a.record.executionId.value := Some(a.facts[a.record.executionId.value]),
                    a.record.previewId.value := Some(a.facts[a.record.previewId.value])];
    if a.record.recoveryId.None? then seen
    else seen[a.record.recoveryId.value :=
                if a.record.recoveryId.value in a.facts then Some(a.facts[a.record.recoveryId.value]) else None]
  }

  lemma ProofDecides(q: Request, a: Aggregate, env: Env)
    requires Keyed(a) && HasPreview(a) && HasExecution(a)
    requires q.action.VerifyAction? || q.action.RecoverAction?
    ensures Decide(Proving, q, a.record, ProofReadings(a), env).Ok?
    ensures var c := Decide(Proving, q, a.record, ProofReadings(a), env).value;
            && c.next.state == ProofState(a, env)
            && c.next.id == a.record.id && c.next.origin == a.record.origin
            && c.expected == a.record.revision && c.next.revision == a.record.revision + 1
            && c.operation == OperationOf(q) && c.key == q.key && c.consumption.None?
  {
    var x := a.facts[a.record.executionId.value].execution;
    assert ExecutionIn(ProofReadings(a), a.record.executionId) == Some(x);
    assert PreviewIn(ProofReadings(a), a.record.previewId) == Some(CurrentPreview(a));
  }

  /** The outcome of a verification that ran alone. */
  predicate Concluded(w: World, v: World, n: nat, i: Id, s: Lifecycle) {
    && n in v.calls && v.calls[n].pc == Finished(StatusAnswer)
    && v.log == w.log
    && i in w.store.aggregates && i in v.store.aggregates
    && v.store.aggregates[i].record.revision == w.store.aggregates[i].record.revision + 1
    && v.store.aggregates[i].record.state == s
  }

  lemma ReadsForProof(w: World, n: nat, q: Request, a: Aggregate, v: World)
    requires n in w.calls && w.calls[n] == Call(q, Working(Proving, a.record, map[]))
    requires q.interactionId in w.store.aggregates && w.store.aggregates[q.interactionId] == a
    requires HasPreview(a) && HasExecution(a)
    requires Alone(Moved(w, n, Working(Proving, a.record, ProofReadings(a))), n, v)
    ensures Alone(w, n, v)
  {
    hide Alone;
    var r := a.record;
    var seen1: Seen := map[r.executionId.value := Some(a.facts[r.executionId.value])];
    var seen2: Seen := seen1[r.previewId.value := Some(a.facts[r.previewId.value])];
    var w1 := Moved(w, n, Working(Proving, r, seen1));
    var w2 := Moved(w, n, Working(Proving, r, seen2));
    assert Moved(w1, n, Working(Proving, r, seen2)) == w2;
    if r.recoveryId.None? {
      assert seen2 == ProofReadings(a);
    } else {
      var w3 := Moved(w, n, Working(Proving, r, ProofReadings(a)));
      assert Moved(w2, n, Working(Proving, r, ProofReadings(a))) == w3;
      AloneReadsFact(w2, n, r.recoveryId.value, Working(Proving, r, ProofReadings(a)), v);
    }
    AloneReadsFact(w1, n, r.previewId.value, Working(Proving, r, seen2), v);
    AloneReadsFact(w, n, r.executionId.value, Working(Proving, r, seen1), v);
  }

  lemma ProofCommits(w: World, n: nat, q: Request, a: Aggregate, env: Env) returns (v: World)
    requires HasPreview(a) && HasExecution(a) && Keyed(a)
    requires n in w.calls && w.calls[n] == Call(q, Working(Proving, a.record, ProofReadings(a)))
    requires q.action.VerifyAction? || q.action.RecoverAction?
    requires q.interactionId in w.store.aggregates && w.store.aggregates[q.interactionId] == a
    requires a.record.id == q.interactionId && a.record.origin.scope == q.scope
    requires KeyOf(q) !in w.store.rows && NewEverywhere(w.store, env)
    ensures Alone(w, n, v) && Concluded(w, v, n, q.interactionId, ProofState(a, env))
  {
    hide Alone, HasPreview, HasExecution, NewEverywhere, Decide, Keyed, ProofState;
    ProofDecides(q, a, env);
    var c := Decide(Proving, q, a.record, ProofReadings(a), env).value;
    v := Advanced(w, n, Finished(StatusAnswer), Written(w.store, c), EventOf(c));
    AloneHere(v, n);
    AloneCommits(w, n, env, c, v);
  }

  /** A verification that starts at the stored revision, and is not disturbed, commits. */
  lemma VerificationConcludes(w: World, n: nat, q: Request, a: Aggregate, env: Env) returns (v: World)
    requires n in w.calls && w.calls[n] == Call(q, VerifyBegin(a.record.revision))
    requires q.action.VerifyAction? || q.action.RecoverAction?
    requires !Blank(q.key) && KeyOf(q) !in w.store.rows && NewEverywhere(w.store, env)
    requires q.interactionId in w.store.aggregates && w.store.aggregates[q.interactionId] == a
    requires a.record.id == q.interactionId && a.record.origin.scope == q.scope
    requires HasPreview(a) && HasExecution(a) && Keyed(a)
    requires a.record.state.Verifying? || a.record.state.RecoveryRequired?
    ensures Alone(w, n, v) && Concluded(w, v, n, q.interactionId, ProofState(a, env))
  {
    hide Alone, HasPreview, HasExecution, NewEverywhere, Keyed, ProofState, ProofReadings, KeyOf, Concluded;
    var pc1, pc2, pc3 := VerifyChecked(a.record.revision), Working(Proving, a.record, map[]),
        Working(Proving, a.record, ProofReadings(a));
    var w1, w2, w3 := Moved(w, n, pc1), Moved(w, n, pc2), Moved(w, n, pc3);
    assert Moved(w1, n, pc2) == w2 && Moved(w2, n, pc3) == w3;
    v := ProofCommits(w3, n, q, a, env);
    ConcludedFrom(w, w3, v, n, q.interactionId, ProofState(a, env));
    ReadsForProof(w2, n, q, a, v);
    AloneReadsRecord(w1, n, pc2, v);
    AloneReadsRow(w, n, pc1, v);
  }

  lemma ConcludedFrom(w: World, u: World, v: World, n: nat, i: Id, s: Lifecycle)
    requires u.store == w.store && u.log == w.log && Concluded(u, v, n, i, s)
    ensures Concluded(w, v, n, i, s)
  {
  }

  // ---------- recovery resumes ----------

  /** The stored situation after a recovery reconciled the gap and was lost before it verified. */
  predicate Interrupted(s: Store, q: Request) {
    && q.action.RecoverAction? && !Blank(q.key)
    && KeyOf(q) !in s.rows
    && GapRowKey(q) in s.rows
    && s.rows[GapRowKey(q)].digest == DigestOf(q)
    && s.rows[GapRowKey(q)].interactionId == q.interactionId
  }

  lemma InterruptedReads(s: Store, q: Request)
    requires StoreOk(s) && Interrupted(s, q)
    ensures q.interactionId in s.aggregates
    ensures var a := s.aggregates[q.interactionId];
            && AggregateOk(a) && a.record.id == q.interactionId && a.record.origin.scope == q.scope
            && (a.record.state.RecoveryRequired? || a.record.state.Succeeded?)
            && q.expected < a.record.revision
            && AfterReadRow(s, q, Begin) == Checked
            && AfterReadRecord(s, q, Checked) == GapCheck
            && AfterReadRow(s, q, GapCheck) == Reload
            && AfterReadRecord(s, q, Reload) == VerifyBegin(a.record.revision)
  {
    hide AggregateOk;
    assert RowOk(s, GapRowKey(q), s.rows[GapRowKey(q)]);
    ExpectedOf(q);
  }

  lemma ReadsUpToVerification(w: World, n: nat, q: Request, v: World)
    requires StoreOk(w.store) && Interrupted(w.store, q)
    requires n in w.calls && w.calls[n] == Call(q, Begin)
    requires q.interactionId in w.store.aggregates
    requires Alone(Moved(w, n, VerifyBegin(w.store.aggregates[q.interactionId].record.revision)), n, v)
    ensures Alone(w, n, v)
  {
    hide Alone, StoreOk, Interrupted, AggregateOk, AfterReadRow, AfterReadRecord;
    InterruptedReads(w.store, q);
    var pc := VerifyBegin(w.store.aggregates[q.interactionId].record.revision);
    var w1, w2, w3, w4 := Moved(w, n, Checked), Moved(w, n, GapCheck), Moved(w, n, Reload), Moved(w, n, pc);
    assert Moved(w1, n, GapCheck) == w2 && Moved(w2, n, Reload) == w3 && Moved(w3, n, pc) == w4;
    AloneReadsRecord(w3, n, pc, v);
    AloneReadsRow(w2, n, Reload, v);
    AloneReadsRecord(w1, n, GapCheck, v);
    AloneReadsRow(w, n, Checked, v);
  }

  /** A recovery that was lost after it reconciled the execution gap is retried with the same key and its
      original, now stale, revision: undisturbed it goes on at verification and commits. No execution. */
  lemma RecoveryResumes(w: World, n: nat, q: Request, env: Env) returns (v: World)
    requires Inv(w) && n in w.calls && w.calls[n] == Call(q, Begin)
    requires Interrupted(w.store, q) && NewEverywhere(w.store, env)
    requires q.interactionId in w.store.aggregates
    requires w.store.aggregates[q.interactionId].record.state.RecoveryRequired?
    ensures q.expected < w.store.aggregates[q.interactionId].record.revision
    ensures var a := w.store.aggregates[q.interactionId];
            HasPreview(a) && HasExecution(a) && Alone(w, n, v) && Concluded(w, v, n, q.interactionId, ProofState(a, env))
  {
    hide Alone, CallsOk, LogOk, HistoryOk, AggregatesOk, RowsOk, Interrupted, NewEverywhere, ProofState, Concluded,
      PreviewsNumbered, Trailed, SuccessProven, RecoveryTracked, KeyOf;
    var a := w.store.aggregates[q.interactionId];
    InterruptedReads(w.store, q);
    InterruptedKey(w.store, q);
    var u := Moved(w, n, VerifyBegin(a.record.revision));
    v := VerificationConcludes(u, n, q, a, env);
    ConcludedFrom(w, u, v, n, q.interactionId, ProofState(a, env));
    ReadsUpToVerification(w, n, q, v);
  }

  lemma InterruptedKey(s: Store, q: Request)
    requires Interrupted(s, q)
    ensures q.action.RecoverAction? && !Blank(q.key) && KeyOf(q) !in s.rows
  {
  }

  /** A verification of an interaction that is settled is refused. */
  lemma VerificationIsRefused(w: World, n: nat, q: Request, a: Aggregate) returns (v: World)
    requires n in w.calls && w.calls[n] == Call(q, VerifyBegin(a.record.revision))
    requires !Blank(q.key) && KeyOf(q) !in w.store.rows
    requires q.interactionId in w.store.aggregates && w.store.aggregates[q.interactionId] == a
    requires a.record.origin.scope == q.scope && a.record.state.Succeeded?
    ensures Alone(w, n, v) && n in v.calls && v.calls[n].pc == Finished(Failure(InvalidState))
    ensures v.store == w.store && v.log == w.log
  {
    hide Alone;
    var pc2, pc3 := VerifyChecked(a.record.revision), Finished(Failure(InvalidState));
    var w2 := Moved(w, n, pc2);
    v := Moved(w, n, pc3);
    assert Moved(w2, n, pc3) == v;
    AloneHere(v, n);
    AloneReadsRecord(w2, n, pc3, v);
    AloneReadsRow(w, n, pc2, v);
  }

  /** The other way round: when another caller has verified meanwhile, the retry is refused, and the
      interaction has succeeded. So the retry goes on exactly while recovery is still required. */
  lemma RecoveryOvertaken(w: World, n: nat, q: Request) returns (v: World)
    requires Inv(w) && n in w.calls && w.calls[n] == Call(q, Begin)
    requires Interrupted(w.store, q)
    requires q.interactionId in w.store.aggregates
    requires !w.store.aggregates[q.interactionId].record.state.RecoveryRequired?
    ensures w.store.aggregates[q.interactionId].record.state.Succeeded?
    ensures Alone(w, n, v) && n in v.calls && v.calls[n].pc == Finished(Failure(InvalidState))
    ensures v.store == w.store && v.log == w.log
  {
    hide Alone, CallsOk, LogOk, HistoryOk, AggregatesOk, RowsOk, Interrupted, AggregateOk, AfterReadRow, AfterReadRecord,
      KeyOf;
    var a := w.store.aggregates[q.interactionId];
    InterruptedReads(w.store, q);
    InterruptedKey(w.store, q);
    v := VerificationIsRefused(Moved(w, n, VerifyBegin(a.record.revision)), n, q, a);
    ReadsUpToVerification(w, n, q, v);
  }

  /** A recovery of an attempt whose outcome was never stored, undisturbed: the gap is reconciled under the
      request's own digest, the interaction requires recovery, and the same caller stands before
      verification at the new revision. The port is not called. */
  lemma GapIsReconciled(w: World, n: nat, q: Request, env: Env) returns (u: World)
    requires Inv(w) && n in w.calls && w.calls[n] == Call(q, Begin)
    requires q.action.RecoverAction? && !Blank(q.key)
    requires KeyOf(q) !in w.store.rows && GapRowKey(q) !in w.store.rows && NewEverywhere(w.store, env)
    requires q.interactionId in w.store.aggregates
    requires var r := w.store.aggregates[q.interactionId].record;
             r.state.Executing? && r.revision == q.expected && r.origin.scope == q.scope
    ensures Alone(w, n, u) && Inv(u) && u.log == w.log
    ensures q.interactionId in u.store.aggregates && n in u.calls
    ensures var r := u.store.aggregates[q.interactionId].record;
            && r.state.RecoveryRequired? && r.revision == q.expected + 1
            && u.calls[n] == Call(q, VerifyBegin(r.revision))
    ensures Interrupted(u.store, q)
  {
    hide Alone, Inv, NewEverywhere, AggregateOk, Decide, Written, Committable, AfterReadRow, AfterReadRecord,
      AfterReadFact, Interrupted;
    var a := w.store.aggregates[q.interactionId];
    GapReads(w, q);
    var c := GapDecides(w, q, env);
    var id := a.record.executionId.value;
    var seen: Seen := map[id := Some(a.facts[id])];
    var pc2, pc3 := Working(Reconciling, a.record, map[]), Working(Reconciling, a.record, seen);
    var w1, w2, w3 := Moved(w, n, Checked), Moved(w, n, pc2), Moved(w, n, pc3);
    assert Moved(w1, n, pc2) == w2 && Moved(w2, n, pc3) == w3;
    u := Advanced(w3, n, VerifyBegin(c.next.revision), Written(w.store, c), EventOf(c));
    AloneHere(u, n);
    GapKeeps(w, n, q, a, seen);
    WinnerKeeps(w3, n, env, c);
    AloneCommits(w3, n, env, c, u);
    AloneReadsFact(w2, n, id, pc3, u);
    AloneReadsRecord(w1, n, pc2, u);
    AloneReadsRow(w, n, Checked, u);
  }

  /** What a reconciling caller reads. */
  lemma GapReads(w: World, q: Request)
    requires Inv(w) && q.action.RecoverAction? && !Blank(q.key) && KeyOf(q) !in w.store.rows
    requires q.interactionId in w.store.aggregates
    requires var r := w.store.aggregates[q.interactionId].record;
             r.state.Executing? && r.revision == q.expected && r.origin.scope == q.scope
    ensures var a := w.store.aggregates[q.interactionId];
            && a.record.id == q.interactionId
            && HasExecution(a) && a.facts[a.record.executionId.value].execution.status.Attempted?
            && a.facts[a.record.executionId.value].execution.id == a.record.executionId.value
            && AfterReadRow(w.store, q, Begin) == Checked
            && AfterReadRecord(w.store, q, Checked) == Working(Reconciling, a.record, map[])
            && AfterReadFact(w.store, q, Working(Reconciling, a.record, map[]), a.record.executionId.value)
               == Working(Reconciling, a.record,
                          map[a.record.executionId.value := Some(a.facts[a.record.executionId.value])])
  {
    hide CallsOk, LogOk, HistoryOk, RowsOk, PreviewsNumbered, Trailed, ConsentHeld, RecoveryTracked, SuccessProven;
    assert AggregateOk(w.store.aggregates[q.interactionId]);
    assert FactId(w.store.aggregates[q.interactionId].facts[w.store.aggregates[q.interactionId].record.executionId.value])
        == w.store.aggregates[q.interactionId].record.executionId.value;
  }

  lemma GapDecides(w: World, q: Request, env: Env) returns (c: Commit)
    requires q.action.RecoverAction? && !Blank(q.key) && KeyOf(q) !in w.store.rows && GapRowKey(q) !in w.store.rows
    requires q.interactionId in w.store.aggregates
    requires var a := w.store.aggregates[q.interactionId];
             && a.record.id == q.interactionId && a.record.origin.scope == q.scope
             && HasExecution(a) && a.facts[a.record.executionId.value].execution.status.Attempted?
    ensures var a := w.store.aggregates[q.interactionId];
            Decide(Reconciling, q, a.record,
                   map[a.record.executionId.value := Some(a.facts[a.record.executionId.value])], env) == Ok(c)
    ensures Committable(w.store, c) && c.next.id == q.interactionId
    ensures c.next.state.RecoveryRequired?
    ensures c.next.revision == w.store.aggregates[q.interactionId].record.revision + 1
    ensures q.interactionId in Written(w.store, c).aggregates
    ensures Written(w.store, c).aggregates[q.interactionId].record == c.next
    ensures Interrupted(Written(w.store, c), q)
  {
    var a := w.store.aggregates[q.interactionId];
    var seen: Seen := map[a.record.executionId.value := Some(a.facts[a.record.executionId.value])];
    assert ExecutionIn(seen, a.record.executionId).Some?;
    c := Decide(Reconciling, q, a.record, seen, env).value;
  }

  lemma GapKeeps(w: World, n: nat, q: Request, a: Aggregate, seen: Seen)
    requires Inv(w) && n in w.calls && w.calls[n] == Call(q, Begin) && q.action.RecoverAction?
    requires q.interactionId in w.store.aggregates && a == w.store.aggregates[q.interactionId]
    requires a.record.id == q.interactionId && a.record.origin.scope == q.scope
    requires a.record.state.Executing? && a.record.revision == q.expected
    requires Accurate(a, seen)
    ensures Inv(Moved(w, n, Working(Reconciling, a.record, seen)))
  {
    hide Inv, AggregateOk, Accurate;
    assert WorkingOk(w.store, q, Reconciling, a.record, seen);
    MoveKeeps(w, n, Working(Reconciling, a.record, seen));
  }

  // ---------- a recovery that is lost and retried ----------

  /** As long as nobody has finished under the recovery's key, its reconciliation stays on record. */
  lemma InterruptedLasts(s: Store, t: Store, q: Request)
    requires Interrupted(s, q) && StoreAdvances(s, t) && KeyOf(q) !in t.rows
    ensures Interrupted(t, q)
  {
    hide Advances;
  }

  /** How a recovery ends that starts over in world `x` and ends, undisturbed, in `v`: its key was used
      meanwhile and answers it; or recovery is still required and it verifies; or somebody else's verification
      has succeeded and it is refused. It never calls the port. */
  predicate RetryEnded(x: World, m: nat, q: Request, env: Env, v: World) {
    && v.log == x.log && m in v.calls && v.calls[m].pc.Finished?
    && q.interactionId in x.store.aggregates
    && var a, answer := x.store.aggregates[q.interactionId], v.calls[m].pc.answer;
    if KeyOf(q) in x.store.rows then
      && v.store == x.store
      && answer == if x.store.rows[KeyOf(q)].digest == DigestOf(q) then StatusAnswer else Failure(IdempotencyConflict)
    else if a.record.state.RecoveryRequired? then
      HasPreview(a) && HasExecution(a) && Concluded(x, v, m, q.interactionId, ProofState(a, env))
    else
      a.record.state.Succeeded? && v.store == x.store && answer == Failure(InvalidState)
  }

  ghost predicate RetryEnds(x: World, m: nat, q: Request, env: Env) {
    exists v :: Alone(x, m, v) && RetryEnded(x, m, q, env, v)
  }

  lemma UsedKeyAnswers(x: World, m: nat, q: Request, env: Env)
    requires q.action.RecoverAction? && !Blank(q.key) && KeyOf(q) in x.store.rows
    requires m in x.calls && x.calls[m] == Call(q, Begin) && q.interactionId in x.store.aggregates
    ensures RetryEnds(x, m, q, env)
  {
    hide Alone;
    var pc := AfterReadRow(x.store, q, Begin);
    var v := Moved(x, m, pc);
    AloneHere(v, m);
    AloneReadsRow(x, m, pc, v);
    assert RetryEnded(x, m, q, env, v);
  }

  lemma UnusedKeyGoesOn(x: World, m: nat, q: Request, env: Env)
    requires Inv(x) && Interrupted(x.store, q) && NewEverywhere(x.store, env)
    requires m in x.calls && x.calls[m] == Call(q, Begin) && q.interactionId in x.store.aggregates
    ensures RetryEnds(x, m, q, env)
  {
    hide Alone, Inv, NewEverywhere, HasPreview, HasExecution, ProofState;
    var v: World;
    if x.store.aggregates[q.interactionId].record.state.RecoveryRequired? {
      v := RecoveryResumes(x, m, q, env);
    } else {
      v := RecoveryOvertaken(x, m, q);
    }
    assert RetryEnded(x, m, q, env, v);
  }

  lemma RetryAfterRun(u: World, steps: seq<Step>, m: nat, q: Request, env: Env)
    requires Inv(u) && Interrupted(u.store, q) && Valid(u, steps)
    requires var x := Run(u, steps); m in x.calls && x.calls[m] == Call(q, Begin) && NewEverywhere(x.store, env)
    ensures RetryEnds(Run(u, steps), m, q, env)
  {
    hide Inv, RetryEnds, NewEverywhere, Advances, Interrupted, Enabled, Next;
    RunKeeps(u, steps);
    RunAdvances(u, steps);
    var x := Run(u, steps);
    InterruptedHere(u, q);
    if KeyOf(q) in x.store.rows {
      UsedKeyAnswers(x, m, q, env);
    } else {
      InterruptedLasts(u.store, x.store, q);
      UnusedKeyGoesOn(x, m, q, env);
    }
  }

  lemma InterruptedHere(u: World, q: Request)
    requires Inv(u) && Interrupted(u.store, q)
    ensures q.action.RecoverAction? && !Blank(q.key) && q.interactionId in u.store.aggregates
  {
    hide AggregatesOk, CallsOk, LogOk, HistoryOk;
    assert RowOk(u.store, GapRowKey(q), u.store.rows[GapRowKey(q)]);
  }

  /** The whole story of a lost recovery: an open attempt is reconciled; then anything may happen, the loss of
      the caller included; and whoever afterwards sends the same request again, with its original revision, is
      answered, verifies, or finds the interaction succeeded. No execution takes place. */
  lemma LostRecoveryIsFinished(w: World, n: nat, q: Request, env: Env) returns (u: World)
    requires Inv(w) && n in w.calls && w.calls[n] == Call(q, Begin)
    requires q.action.RecoverAction? && !Blank(q.key)
    requires KeyOf(q) !in w.store.rows && GapRowKey(q) !in w.store.rows && NewEverywhere(w.store, env)
    requires q.interactionId in w.store.aggregates
    requires var r := w.store.aggregates[q.interactionId].record;
             r.state.Executing? && r.revision == q.expected && r.origin.scope == q.scope
    ensures Alone(w, n, u) && u.log == w.log && q.interactionId in u.store.aggregates
    ensures u.store.aggregates[q.interactionId].record.state.RecoveryRequired?
    ensures forall steps, m, again |
              && Valid(u, steps) && m in Run(u, steps).calls && Run(u, steps).calls[m] == Call(q, Begin)
              && NewEverywhere(Run(u, steps).store, again) ::
              RetryEnds(Run(u, steps), m, q, again)
  {
    hide Alone, Inv, NewEverywhere, RetryEnds, Interrupted;
    u := GapIsReconciled(w, n, q, env);
    forall steps, m, again |
      && Valid(u, steps) && m in Run(u, steps).calls && Run(u, steps).calls[m] == Call(q, Begin)
      && NewEverywhere(Run(u, steps).store, again)
      ensures RetryEnds(Run(u, steps), m, q, again)
    {
      RetryAfterRun(u, steps, m, q, again);
    }
  }

  // ---------- the adapter's create-then-preview ----------

  /** The second half of the adapter's preview: a preview request for the interaction the create key names. */
  function PreviewHalf(s: Store, origin: Origin, createKey: string, previewKey: string, plan: Plan): Request
    requires CreateKey(origin, createKey) in s.rows
  {
    var created := s.rows[CreateKey(origin, createKey)].result;
    Request(origin.scope, origin.actor, created.id, created.revision, previewKey, PreviewAction(plan))
  }

  /** After the first half the create key names one interaction, still known by its first revision. */
  lemma CreateHalfSettles(w: World, origin: Origin, createKey: string, id: Id)
    requires Inv(w) && !Blank(createKey) && id !in w.store.aggregates
    requires var k := CreateKey(origin, createKey); k in w.store.rows ==> w.store.rows[k].digest == CreateDigest(origin)
    ensures var u, k := OpenStep(w, origin, createKey, id), CreateKey(origin, createKey);
            && Inv(u) && k in u.store.rows && u.store.rows[k].digest == CreateDigest(origin)
            && CreateInteraction(w.store, id, origin, createKey) == Ok((u.store, u.store.rows[k].result))
            && (k in w.store.rows ==> u == w)
            && var i := u.store.rows[k].interactionId;
            && i in u.store.aggregates && u.store.aggregates[i].record.id == i
            && u.store.aggregates[i].record.origin == origin
            && u.store.rows[k].result == Fresh(i, origin)
  {
    hide CallsOk, LogOk, HistoryOk, AggregateOk;
    OpenKeeps(w, origin, createKey, id);
    var u, k := OpenStep(w, origin, createKey, id), CreateKey(origin, createKey);
    assert RowOk(u.store, k, u.store.rows[k]);
  }

  lemma PreviewIsReplayed(w: World, n: nat, q: Request) returns (v: World)
    requires RowsOk(w.store) && n in w.calls && w.calls[n] == Call(q, Begin)
    requires !Blank(q.key) && q.action.PreviewAction?
    requires KeyOf(q) in w.store.rows && w.store.rows[KeyOf(q)].digest == DigestOf(q)
    ensures Alone(w, n, v) && n in v.calls && v.calls[n].pc.Finished? && v.calls[n].pc.answer.FactAnswer?
    ensures v.calls[n].request == w.calls[n].request
    ensures v.store == w.store && v.log == w.log
  {
    hide Alone, AfterReadRow, ReplayAnswer, RowsOk;
    RepetitionIsAnswered(w.store, q);
    var r := w.store.rows[KeyOf(q)].result;
    var w1 := Moved(w, n, Replaying(r));
    v := Moved(w, n, Finished(ReplayAnswer(w.store, q, r)));
    assert Moved(w1, n, Finished(ReplayAnswer(w.store, q, r))) == v;
    AloneHere(v, n);
    AloneReadsFact(w1, n, "", Finished(ReplayAnswer(w.store, q, r)), v);
    AloneReadsRow(w, n, Replaying(r), v);
  }

  lemma FirstPreviewDecides(q: Request, a: Aggregate, env: Env)
    requires q.action.PreviewAction? && q.action.plan.ttl > 0 && a.record.previewId.None?
    ensures Decide(Previewing, q, a.record, map[], env).Ok?
    ensures var c := Decide(Previewing, q, a.record, map[], env).value;
            && c.next.id == a.record.id && c.next.origin == a.record.origin && c.expected == a.record.revision
            && c.operation == PreviewOp && c.key == q.key && c.consumption.None?
            && c.next.previewId == Some(env.id0) && env.id0 in c.facts && c.facts[env.id0].PreviewFact?
  {
  }

  lemma PreviewIsCommitted(w: World, n: nat, q: Request, a: Aggregate, env: Env) returns (v: World)
    requires n in w.calls && w.calls[n] == Call(q, Begin)
    requires !Blank(q.key) && q.action.PreviewAction? && q.action.plan.ttl > 0 && KeyOf(q) !in w.store.rows
    requires q.interactionId in w.store.aggregates && w.store.aggregates[q.interactionId] == a
    requires a.record.id == q.interactionId && a.record.origin.scope == q.scope && a.record.origin.actor == q.actor
    requires a.record.revision == q.expected && a.record.state.Requested? && a.record.previewId.None?
    requires NewEverywhere(w.store, env)
    ensures Alone(w, n, v) && n in v.calls && v.calls[n].pc == Finished(FactAnswer(env.id0))
    ensures v.calls[n].request == w.calls[n].request
    ensures q.interactionId in v.store.aggregates && v.log == w.log
    ensures v.store.aggregates[q.interactionId].record.previewId == Some(env.id0)
    ensures IsPreview(v.store.aggregates[q.interactionId], env.id0)
  {
    hide Alone, NewEverywhere, Decide;
    var pc2 := Working(Previewing, a.record, map[]);
    var w1, w2 := Moved(w, n, Checked), Moved(w, n, pc2);
    assert Moved(w1, n, pc2) == w2;
    FirstPreviewDecides(q, a, env);
    var c := Decide(Previewing, q, a.record, map[], env).value;
    v := Advanced(w2, n, Finished(FactAnswer(env.id0)), Written(w.store, c), EventOf(c));
    AloneHere(v, n);
    AloneCommits(w2, n, env, c, v);
    AloneReadsRecord(w1, n, pc2, v);
    AloneReadsRow(w, n, Checked, v);
  }

  lemma PreviewIsRefused(w: World, n: nat, q: Request) returns (v: World)
    requires n in w.calls && w.calls[n] == Call(q, Begin)
    requires !Blank(q.key) && q.action.PreviewAction? && KeyOf(q) !in w.store.rows
    requires q.interactionId in w.store.aggregates
    requires var r := w.store.aggregates[q.interactionId].record;
             r.origin.scope == q.scope && r.origin.actor == q.actor && r.revision != q.expected
    ensures Alone(w, n, v) && n in v.calls && v.calls[n].pc == Finished(Failure(RevisionConflict))
    ensures v.calls[n].request == w.calls[n].request
    ensures v.store == w.store
  {
    hide Alone;
    var w1 := Moved(w, n, Checked);
    v := Moved(w, n, Finished(Failure(RevisionConflict)));
    assert Moved(w1, n, Finished(Failure(RevisionConflict))) == v;
    AloneHere(v, n);
    AloneReadsRecord(w1, n, Finished(Failure(RevisionConflict)), v);
    AloneReadsRow(w, n, Checked, v);
  }

  lemma PreviewIsOtherwiseUsed(w: World, n: nat, q: Request) returns (v: World)
    requires n in w.calls && w.calls[n] == Call(q, Begin) && !Blank(q.key)
    requires KeyOf(q) in w.store.rows && w.store.rows[KeyOf(q)].digest != DigestOf(q)
    ensures Alone(w, n, v) && n in v.calls && v.calls[n].pc == Finished(Failure(IdempotencyConflict))
    ensures v.calls[n].request == w.calls[n].request
  {
    hide Alone;
    v := Moved(w, n, Finished(Failure(IdempotencyConflict)));
    AloneHere(v, n);
    AloneReadsRow(w, n, Finished(Failure(IdempotencyConflict)), v);
  }

  /** How the preview half is answered: with a Preview exactly when its key was used by the same request, or
      is unused and the interaction still stands at its first revision. */
  predicate PreviewAnswered(used: bool, same: bool, first: bool, answer: Answer) {
    && (answer.FactAnswer? <==> if used then same else first)
    && (!answer.FactAnswer? ==> answer == Failure(if used then IdempotencyConflict else RevisionConflict))
  }

  /** After the create half: the preview half, undisturbed, is answered. */
  lemma AdapterRetryCompletes(w: World, n: nat, origin: Origin, createKey: string, previewKey: string,
                              plan: Plan, env: Env) returns (v: World)
    requires Inv(w) && NewEverywhere(w.store, env)
    requires var k := CreateKey(origin, createKey);
             && k in w.store.rows && w.store.rows[k].digest == CreateDigest(origin)
             && n in w.calls && w.calls[n] == Call(PreviewHalf(w.store, origin, createKey, previewKey, plan), Begin)
    requires !Blank(previewKey) && plan.ttl > 0
    ensures Alone(w, n, v) && n in v.calls && v.calls[n].pc.Finished?
    ensures v.calls[n].request == w.calls[n].request
    ensures var q := PreviewHalf(w.store, origin, createKey, previewKey, plan);
            && q.interactionId in w.store.aggregates
            && PreviewAnswered(KeyOf(q) in w.store.rows,
                               KeyOf(q) in w.store.rows && w.store.rows[KeyOf(q)].digest == DigestOf(q),
                               w.store.aggregates[q.interactionId].record.revision == 1,
                               v.calls[n].pc.answer)
  {
    hide Alone, CallsOk, LogOk, HistoryOk, NewEverywhere, PreviewsNumbered, Trailed, Tracked, Keyed;
    var k := CreateKey(origin, createKey);
    var q := PreviewHalf(w.store, origin, createKey, previewKey, plan);
    assert RowOk(w.store, k, w.store.rows[k]);
    var a := w.store.aggregates[q.interactionId];
    assert AggregateOk(a);
    if KeyOf(q) in w.store.rows {
      if w.store.rows[KeyOf(q)].digest == DigestOf(q) {
        v := PreviewIsReplayed(w, n, q);
      } else {
        v := PreviewIsOtherwiseUsed(w, n, q);
      }
    } else if a.record.revision == 1 {
      v := PreviewIsCommitted(w, n, q, a, env);
    } else {
      v := PreviewIsRefused(w, n, q);
    }
  }

  /** The adapter's two keys are its caller's, each with an ending of its own; so neither is blank. */
  function CreateHalfKey(key: string): string {
    key + ":create"
  }

  function PreviewHalfKey(key: string): string {
    key + ":preview"
  }

  lemma HalvesAreNotBlank(key: string)
    ensures !Blank(CreateHalfKey(key)) && !Blank(PreviewHalfKey(key))
  {
    assert CreateHalfKey(key)[|key|] == ':' && PreviewHalfKey(key)[|key|] == ':';
  }

  /** The create key stands for another request already. */
  predicate CreateTaken(s: Store, origin: Origin, key: string) {
    var k := CreateKey(origin, CreateHalfKey(key));
    k in s.rows && s.rows[k].digest != CreateDigest(origin)
  }

  /** The calls the adapter makes: none for a plan without time, and no second one if the first is refused. */
  function AdapterCalls(w: World, n: nat, origin: Origin, id: Id, key: string, plan: Plan): seq<Step> {
    var opening := Open(origin, CreateHalfKey(key), id);
    var u, k := OpenStep(w, origin, CreateHalfKey(key), id), CreateKey(origin, CreateHalfKey(key));
    if plan.ttl <= 0 then []
    else if CreateTaken(w.store, origin, key) || k !in u.store.rows then [opening]
    else [opening, Invoke(n, PreviewHalf(u.store, origin, CreateHalfKey(key), PreviewHalfKey(key), plan))]
  }

  /** One whole adapter call that nobody disturbs, from whatever earlier calls, crashes and other callers left:
      it opens the interaction or finds it, and previews it. The answer is decided by what was stored before
      the call. If the create key stands for another request, the call is refused and nothing has happened.
      Else it ends in a Preview exactly when this preview was made before, or its key is free and the
      interaction is new or has not been moved since it was opened. */
  lemma AdapterCallCompletes(w: World, n: nat, origin: Origin, id: Id, key: string, plan: Plan, env: Env)
    returns (v: World)
    requires Inv(w) && n !in w.calls && id !in w.store.aggregates
    requires NewEverywhere(OpenStep(w, origin, CreateHalfKey(key), id).store, env)
    ensures Valid(w, AdapterCalls(w, n, origin, id, key, plan))
    ensures Alone(Run(w, AdapterCalls(w, n, origin, id, key, plan)), n, v)
    ensures plan.ttl <= 0 ==> v == w
    ensures plan.ttl > 0 && CreateTaken(w.store, origin, key) ==>
              CreateInteraction(w.store, id, origin, CreateHalfKey(key)) == Err(IdempotencyConflict) && v == w
    ensures plan.ttl > 0 && !CreateTaken(w.store, origin, key) ==>
              var u, k := OpenStep(w, origin, CreateHalfKey(key), id), CreateKey(origin, CreateHalfKey(key));
              && k in u.store.rows
              && var q := PreviewHalf(u.store, origin, CreateHalfKey(key), PreviewHalfKey(key), plan);
              && n in v.calls && v.calls[n].request == q && v.calls[n].pc.Finished?
              && (k in w.store.rows ==> q.interactionId in w.store.aggregates)
              && PreviewAnswered(KeyOf(q) in w.store.rows,
                                 KeyOf(q) in w.store.rows && w.store.rows[KeyOf(q)].digest == DigestOf(q),
                                 k in w.store.rows ==> w.store.aggregates[q.interactionId].record.revision == 1,
                                 v.calls[n].pc.answer)
  {
    HalvesAreNotBlank(key);
    if plan.ttl <= 0 || CreateTaken(w.store, origin, key) {
      v := w;
      NothingFollows(w, n, origin, id, key, plan);
      AloneHere(w, n);
    } else {
      hide Alone, NewEverywhere, PreviewAnswered, Inv, CreateHalfKey, PreviewHalfKey;
      v := BothHalves(w, n, origin, CreateHalfKey(key), id, PreviewHalfKey(key), plan, env);
    }
  }

  lemma NothingFollows(w: World, n: nat, origin: Origin, id: Id, key: string, plan: Plan)
    requires id !in w.store.aggregates && (plan.ttl <= 0 || CreateTaken(w.store, origin, key))
    ensures Valid(w, AdapterCalls(w, n, origin, id, key, plan)) && Run(w, AdapterCalls(w, n, origin, id, key, plan)) == w
    ensures CreateTaken(w.store, origin, key) ==>
              CreateInteraction(w.store, id, origin, CreateHalfKey(key)) == Err(IdempotencyConflict)
  {
    HalvesAreNotBlank(key);
    if plan.ttl > 0 {
      var opening := Open(origin, CreateHalfKey(key), id);
      assert Enabled(w, opening) && Next(w, opening) == w;
      assert [opening][1..] == [] && Valid(w, []) && Run(w, []) == w;
    }
  }

  lemma BothHalves(w: World, n: nat, origin: Origin, createKey: string, id: Id, previewKey: string,
                   plan: Plan, env: Env) returns (v: World)
    requires Inv(w) && n !in w.calls && id !in w.store.aggregates && !Blank(createKey)
    requires var k := CreateKey(origin, createKey); k in w.store.rows ==> w.store.rows[k].digest == CreateDigest(origin)
    requires NewEverywhere(OpenStep(w, origin, createKey, id).store, env)
    requires !Blank(previewKey) && plan.ttl > 0
    ensures var u, k := OpenStep(w, origin, createKey, id), CreateKey(origin, createKey);
            && k in u.store.rows
            && var q := PreviewHalf(u.store, origin, createKey, previewKey, plan);
            && n in v.calls && v.calls[n].request == q && v.calls[n].pc.Finished?
            && Valid(w, [Open(origin, createKey, id), Invoke(n, q)])
            && Alone(Run(w, [Open(origin, createKey, id), Invoke(n, q)]), n, v)
            && (k in w.store.rows ==> q.interactionId in w.store.aggregates)
            && PreviewAnswered(KeyOf(q) in w.store.rows,
                               KeyOf(q) in w.store.rows && w.store.rows[KeyOf(q)].digest == DigestOf(q),
                               k in w.store.rows ==> w.store.aggregates[q.interactionId].record.revision == 1,
                               v.calls[n].pc.answer)
  {
    hide Alone, NewEverywhere, PreviewAnswered, Inv;
    var u, k := OpenStep(w, origin, createKey, id), CreateKey(origin, createKey);
    CreateHalfSettles(w, origin, createKey, id);
    var q := PreviewHalf(u.store, origin, createKey, previewKey, plan);
    var x := InvokeStep(u, n, q);
    InvokeKeeps(u, n, q);
    TwoSteps(w, origin, createKey, id, n, q);
    v := AdapterRetryCompletes(x, n, origin, createKey, previewKey, plan, env);
  }

  lemma TwoSteps(w: World, origin: Origin, key: string, id: Id, n: nat, q: Request)
    requires id !in w.store.aggregates && n !in w.calls
    ensures var steps := [Open(origin, key, id), Invoke(n, q)];
            Valid(w, steps) && Run(w, steps) == InvokeStep(OpenStep(w, origin, key, id), n, q)
  {
    var steps, u := [Open(origin, key, id), Invoke(n, q)], OpenStep(w, origin, key, id);
    assert Enabled(w, steps[0]) && Next(w, steps[0]) == u;
    assert steps[1..] == [Invoke(n, q)] && steps[1..][1..] == [];
    assert Enabled(u, steps[1..][0]) && Next(u, steps[1..][0]) == InvokeStep(u, n, q);
    hide Enabled, Next;
    var x := InvokeStep(u, n, q);
    assert Valid(x, []) && Run(x, []) == x;
    assert Valid(u, steps[1..]) && Run(u, steps[1..]) == x;
  }

  /** Any number of adapter calls with the same keys and request name the same interaction, for ever; and
      each of the two keys commits once, so they open one interaction and store at most one Preview. */
  lemma AdapterNamesOneInteraction(w: World, steps: seq<Step>, origin: Origin, createKey: string)
    requires Inv(w) && Valid(w, steps)
    requires CreateKey(origin, createKey) in w.store.rows
    ensures var k := CreateKey(origin, createKey);
            && k in Run(w, steps).store.rows
            && Run(w, steps).store.rows[k] == w.store.rows[k]
            && w.store.rows[k].result.id in w.store.aggregates
            && w.store.rows[k].result.revision == 1
  {
    hide Next, Enabled, Advances, CallsOk, LogOk, HistoryOk, AggregatesOk;
    RunAdvances(w, steps);
    var k := CreateKey(origin, createKey);
    assert RowOk(w.store, k, w.store.rows[k]);
  }

  lemma CreatedOnceAndPreviewedOnce(w: World, j: nat, k: nat)
    requires Reachable(w) && j < |w.history| && k < |w.history| && w.history[j].key == w.history[k].key
    requires w.history[j].key.operation.Create? || w.history[j].key.operation.PreviewOp?
    ensures j == k
  {
    hide Reachable;
    if j < k {
      OneCommitPerKey(w, j, k);
    } else if k < j {
      OneCommitPerKey(w, k, j);
    }
  }
}
