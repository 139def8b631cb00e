/** The invariant of the whole protocol: what holds in every world that any interleaving can reach. */
module InteractionProtocol {
  import opened Basics
  import opened InteractionModels
  import opened InteractionStore
  import opened InteractionDecisions
  import opened InteractionAggregates
  import opened InteractionRuns

  function DigestExpected(d: Digest): nat {
    match d
    case CreateDigest(_) => 0
    case PreviewDigest(_, e, _) => e
    case ConfirmDigest(_, _, _, e, _, _, _) => e
    case ApproveDigest(_, _, _, e, _, _, _, _) => e
    case PlainDigest(_, e) => e
  }

  predicate IsFact(a: Aggregate, id: Option<Id>) {
    id.Some? && id.value in a.facts
  }

  /** The fact that a stored snapshot answers a repeated request with. */
  predicate Resolved(a: Aggregate, op: Operation, r: Interaction) {
    && (op.PreviewOp? ==> IsFact(a, r.previewId) && a.facts[r.previewId.value].PreviewFact?)
    && (op.Confirm? ==> IsFact(a, r.confirmationId) && a.facts[r.confirmationId.value].ConfirmationFact?)
    && (op.Approve? ==> IsFact(a, r.approvalId) && a.facts[r.approvalId.value].ApprovalFact?)
  }

  /** An idempotency row belongs to an interaction that has moved past the revision its request named. */
  predicate RowOk(s: Store, k: IdempotencyKey, row: IdempotencyRow) {
    && row.interactionId in s.aggregates
    && var a := s.aggregates[row.interactionId];
    && row.result.id == row.interactionId
    && row.result.origin == a.record.origin
    && a.record.origin.scope == k.scope
    && DigestExpected(row.digest) < a.record.revision
    && 1 <= row.result.revision <= a.record.revision
    && (k.operation.Create? ==> row.result == Fresh(row.interactionId, a.record.origin)
                                && row.digest == CreateDigest(a.record.origin))
    && (k.operation.ReconcileExecution? ==> a.record.state.RecoveryRequired? || a.record.state.Succeeded?)
    && Resolved(a, k.operation, row.result)
  }

  ghost predicate AggregatesOk(s: Store) {
    forall i | i in s.aggregates :: s.aggregates[i].record.id == i && AggregateOk(s.aggregates[i])
  }

  predicate RowsOk(s: Store) {
    forall k | k in s.rows :: RowOk(s, k, s.rows[k])
  }

  ghost predicate StoreOk(s: Store) {
    AggregatesOk(s) && RowsOk(s)
  }

  predicate Present(s: Store, q: Request) {
    q.interactionId in s.aggregates
  }

  function RevisionOf(s: Store, q: Request): nat
    requires Present(s, q)
  {
    s.aggregates[q.interactionId].record.revision
  }

  /** If this request's key has been used for this interaction, the record has moved past `e`. */
  predicate KeyAhead(s: Store, q: Request, e: nat)
    requires Present(s, q)
  {
    KeyOf(q) in s.rows && s.rows[KeyOf(q)].interactionId == q.interactionId ==> RevisionOf(s, q) > e
  }

  /** A snapshot is the stored record, or the store has moved past it; the same for readings made after it. */
  predicate Current(s: Store, q: Request, cur: Interaction, seen: Seen) {
    && Present(s, q)
    && cur.id == q.interactionId
    && var a := s.aggregates[q.interactionId];
    && cur.origin == a.record.origin
    && cur.origin.scope == q.scope
    && cur.revision <= a.record.revision
    && (cur.revision == a.record.revision ==> cur == a.record && Accurate(a, seen))
  }

  /** The consent the port call rests on, as it stands in the store. */
  predicate Consented(a: Aggregate, port: PortCall) {
    && port.interactionId == a.record.id
    && a.record.executionId == Some(port.executionId)
    && HasPreview(a)
    && port.operation == a.record.origin.operation
    && port.parameters == CurrentPreview(a).plan.parameters
    && (CurrentPreview(a).plan.requiresConfirmation ==>
          && HasConfirmation(a)
          && port.confirmationCheck < a.facts[a.record.confirmationId.value].confirmation.expires)
    && (CurrentPreview(a).plan.requiresApproval ==>
          && HasApproval(a)
          && port.approvalCheck < a.facts[a.record.approvalId.value].approval.expires)
  }

  predicate PortOk(s: Store, port: PortCall) {
    port.interactionId in s.aggregates && Consented(s.aggregates[port.interactionId], port)
  }

  predicate WorkingOk(s: Store, q: Request, stage: Stage, cur: Interaction, seen: Seen) {
    && Belongs(stage, q)
    && Current(s, q, cur, seen)
    && Guard(stage, q, cur.revision, cur).None?
    && (stage.Observing? || stage.Reconciling? ==> cur.state.Executing?)
    && (stage.Observing? ==> Ids(cur.executionId) <= seen.Keys && cur.revision == q.expected + 1)
    && (!stage.Observing? && !q.action.RecoverAction? ==> cur.revision == q.expected)
    && (q.action.RecoverAction? ==> q.expected <= cur.revision)
    && (stage.Proving? && q.action.RecoverAction? ==> KeyAhead(s, q, cur.revision))
  }

  /** The winner of the gate, before it calls the port: the attempt on record is its own. */
  predicate ArmedOk(s: Store, q: Request, executing: Interaction, execution: Execution, port: PortCall) {
    && q.action.ExecuteAction?
    && Current(s, q, executing, map[execution.id := Some(ExecutionFact(execution))])
    && executing.state.Executing?
    && executing.revision == q.expected + 1
    && executing.executionId == Some(execution.id)
    && port.interactionId == q.interactionId
    && PortOk(s, port)
  }

  predicate ReplayOk(s: Store, q: Request, prior: Interaction) {
    && (q.action.PreviewAction? || q.action.ConfirmAction? || q.action.ApproveAction?)
    && prior.id in s.aggregates
    && Resolved(s.aggregates[prior.id], OperationOf(q), prior)
  }

  predicate CallOk(s: Store, call: Call) {
    var q := call.request;
    match call.pc
    case Begin => !q.action.VerifyAction?
    case Checked => !q.action.VerifyAction?
    case GapCheck => q.action.RecoverAction?
    case Reload => q.action.RecoverAction? && Present(s, q) && q.expected <= RevisionOf(s, q)
    case VerifyBegin(e) =>
      if q.action.VerifyAction? then e == q.expected
      else q.action.RecoverAction? && Present(s, q) && q.expected <= e <= RevisionOf(s, q)
    case VerifyChecked(e) =>
      if q.action.VerifyAction? then e == q.expected
      else q.action.RecoverAction? && Present(s, q) && q.expected <= e <= RevisionOf(s, q) && KeyAhead(s, q, e)
    case Replaying(prior) => ReplayOk(s, q, prior)
    case Working(stage, cur, seen) => WorkingOk(s, q, stage, cur, seen)
    case Armed(executing, execution, port) => ArmedOk(s, q, executing, execution, port)
    case Finished(answer) => !answer.AssertionFailed?
  }

  predicate CallsOk(w: World) {
    forall n | n in w.calls :: CallOk(w.store, w.calls[n])
  }

  predicate ArmedFor(w: World, n: nat, i: Id) {
    n in w.calls && w.calls[n].pc.Armed? && w.calls[n].pc.port.interactionId == i
  }

  /** Each interaction's one attempt is either still ahead of one caller, or in the log once. */
  ghost predicate LogOk(w: World) {
    && (forall j | 0 <= j < |w.log| :: PortOk(w.store, w.log[j]))
    && (forall j, k | 0 <= j < k < |w.log| :: w.log[j].interactionId != w.log[k].interactionId)
    && (forall n, j | 0 <= j < |w.log| :: !ArmedFor(w, n, w.log[j].interactionId))
    && (forall n, m, i | ArmedFor(w, n, i) && ArmedFor(w, m, i) :: n == m)
  }

  function Count(history: seq<Event>, i: Id): nat {
    if history == [] then 0
    else Count(history[..|history| - 1], i) + if history[|history| - 1].interactionId == i then 1 else 0
  }

  /** An event is backed by its idempotency row. */
  predicate EventOk(s: Store, e: Event) {
    && e.key in s.rows
    && s.rows[e.key].digest == e.digest
    && s.rows[e.key].interactionId == e.interactionId
    && e.interactionId in s.aggregates
    && e.revision <= s.aggregates[e.interactionId].record.revision
    && (e.key.operation.Execute? ==> DigestExpected(e.digest) < e.revision <= DigestExpected(e.digest) + 2)
    && (!e.key.operation.Execute? ==> s.rows[e.key].result.revision == e.revision)
  }

  /** The revision counts the committed transactions, and no key commits twice but an execution's. */
  ghost predicate HistoryOk(w: World) {
    && (forall i | i in w.store.aggregates :: Count(w.history, i) == w.store.aggregates[i].record.revision)
    && (forall j | 0 <= j < |w.history| :: EventOk(w.store, w.history[j]))
    && (forall j, k | 0 <= j < k < |w.history| && w.history[j].key == w.history[k].key ::
          w.history[j].key.operation.Execute? && w.history[k].revision == w.history[j].revision + 1)
  }

  ghost predicate Inv(w: World) {
    StoreOk(w.store) && CallsOk(w) && LogOk(w) && HistoryOk(w)
  }

  /** What one committed transaction may do to the store. */
  ghost predicate StoreEvolves(s: Store, t: Store) {
    && (forall i | i in s.aggregates ::
          && i in t.aggregates
          && (t.aggregates[i] == s.aggregates[i] || Evolves(s.aggregates[i], t.aggregates[i])))
    && (forall k | k in s.rows ::
          && k in t.rows
          && t.rows[k].digest == s.rows[k].digest && t.rows[k].interactionId == s.rows[k].interactionId
          && (!k.operation.Execute? ==> t.rows[k] == s.rows[k]))
    && (forall k | k in t.rows && k !in s.rows && t.rows[k].interactionId in s.aggregates ::
          var i := t.rows[k].interactionId;
          i in t.aggregates && t.aggregates[i].record.revision > s.aggregates[i].record.revision)
  }

  /** Consent that a port call rests on is never taken back. */
  lemma ConsentLasts(a: Aggregate, b: Aggregate, port: PortCall)
    requires Consented(a, port) && Evolves(a, b)
    ensures Consented(b, port)
  {
    assert SameFact(a.facts[a.record.previewId.value], b.facts[a.record.previewId.value]);
  }

  lemma ResolvedLasts(a: Aggregate, b: Aggregate, op: Operation, r: Interaction)
    requires Resolved(a, op, r) && Evolves(a, b)
    ensures Resolved(b, op, r)
  {
    if op.PreviewOp? {
      assert SameFact(a.facts[r.previewId.value], b.facts[r.previewId.value]);
    }
  }

  lemma PortLasts(s: Store, t: Store, port: PortCall)
    requires PortOk(s, port) && StoreEvolves(s, t)
    ensures PortOk(t, port)
  {
    var i := port.interactionId;
    if t.aggregates[i] != s.aggregates[i] {
      ConsentLasts(s.aggregates[i], t.aggregates[i], port);
    }
  }

  lemma KeyAheadLasts(s: Store, t: Store, q: Request, e: nat)
    requires StoreEvolves(s, t)
    requires Present(s, q) && e <= RevisionOf(s, q) && KeyAhead(s, q, e)
    ensures Present(t, q) && e <= RevisionOf(t, q) && KeyAhead(t, q, e)
  {
  }

  lemma CurrentLasts(s: Store, t: Store, q: Request, cur: Interaction, seen: Seen)
    requires Current(s, q, cur, seen) && StoreEvolves(s, t)
    ensures Current(t, q, cur, seen)
  {
  }

  lemma WorkingLasts(s: Store, t: Store, q: Request, stage: Stage, cur: Interaction, seen: Seen)
    requires WorkingOk(s, q, stage, cur, seen) && StoreEvolves(s, t)
    ensures WorkingOk(t, q, stage, cur, seen)
  {
    CurrentLasts(s, t, q, cur, seen);
    if stage.Proving? && q.action.RecoverAction? {
      KeyAheadLasts(s, t, q, cur.revision);
    }
  }

  lemma ArmedLasts(s: Store, t: Store, q: Request, executing: Interaction, execution: Execution, port: PortCall)
    requires ArmedOk(s, q, executing, execution, port) && StoreEvolves(s, t)
    ensures ArmedOk(t, q, executing, execution, port)
  {
    CurrentLasts(s, t, q, executing, map[execution.id := Some(ExecutionFact(execution))]);
    PortLasts(s, t, port);
  }

  lemma ReplayLasts(s: Store, t: Store, q: Request, prior: Interaction)
    requires ReplayOk(s, q, prior) && StoreEvolves(s, t)
    ensures ReplayOk(t, q, prior)
  {
    if t.aggregates[prior.id] != s.aggregates[prior.id] {
      ResolvedLasts(s.aggregates[prior.id], t.aggregates[prior.id], OperationOf(q), prior);
    }
  }

  /** No transaction of another caller invalidates what a caller relies on. */
  lemma CallLasts(s: Store, t: Store, call: Call)
    requires CallOk(s, call) && StoreEvolves(s, t)
    ensures CallOk(t, call)
  {
    var q := call.request;
    match call.pc
    case VerifyChecked(e) =>
      if q.action.RecoverAction? {
        KeyAheadLasts(s, t, q, e);
      }
    case Replaying(prior) => ReplayLasts(s, t, q, prior);
    case Working(stage, cur, seen) => WorkingLasts(s, t, q, stage, cur, seen);
    case Armed(executing, execution, port) => ArmedLasts(s, t, q, executing, execution, port);
    case _ =>
  }
}
