/** Every interleaving of callers, retries and crashes. A step is one database read, one database
    transaction, one call of the execution port, or the loss of a caller. The id draws, the clock
    readings and the answers of the other ports happen between a caller's last read and its commit,
    touch nothing shared, and are part of the commit step. */
module InteractionRuns {
  import opened Basics
  import opened Texts
  import opened InteractionModels
  import opened InteractionStore
  import opened InteractionDecisions
  import opened InteractionAggregates

  datatype Answer =
    | FactAnswer(id: Id)
    | SnapshotAnswer(snapshot: Interaction)
    | StatusAnswer
    | Failure(error: Error)
    | AssertionFailed

  /** What the execution port is asked to do, with the clock readings the gate took for it. */
  datatype PortCall = PortCall(
    interactionId: Id, executionId: Id, operation: string, parameters: string, key: string,
    confirmationCheck: Time, approvalCheck: Time)

  datatype Pc =
    | Begin                                                       // about to look its idempotency key up
    | Checked                                                     // the key is unused; about to read the record
    | GapCheck                                                    // recover with a stale revision
    | Reload                                                      // recover that found its own earlier reconciliation
    | VerifyBegin(expected: nat)                                  // verification, before its key is looked up
    | VerifyChecked(expected: nat)                                // verification, about to read the record
    | Replaying(prior: Interaction)                               // the key is used; about to read the fact
    | Working(stage: Stage, cur: Interaction, seen: Seen)         // guards passed; reading facts, then committing
    | Armed(executing: Interaction, execution: Execution, port: PortCall)   // the gate's swap was won
    | Finished(answer: Answer)

  datatype Call = Call(request: Request, pc: Pc)

  /** A committed transaction on an interaction. */
  datatype Event = Event(
    key: IdempotencyKey, digest: Digest, interactionId: Id, revision: nat, consumption: Option<Consumption>)

  /** `log` and `history` record what happened; no operation reads them. */
  datatype World = World(store: Store, calls: map<nat, Call>, log: seq<PortCall>, history: seq<Event>)

  const START := World(EMPTY_STORE, map[], [], [])

  datatype Step =
    | Open(origin: Origin, key: string, id: Id)
    | Invoke(call: nat, request: Request)
    | ReadRow(call: nat)
    | ReadRecord(call: nat)
    | ReadFact(call: nat, id: Id)
    | Commits(call: nat, env: Env)
    | CallPort(call: nat)
    | Crash(call: nat)
    | Accept(id: Id, payload: string, now: Time)
    | Challenge(id: Id, row: ChallengeRow)

  ghost predicate NewEverywhere(s: Store, env: Env) {
    forall i | i in s.aggregates :: NewIds(s.aggregates[i], env)
  }

  ghost predicate Enabled(w: World, step: Step) {
    match step
    case Open(_, _, id) => id !in w.store.aggregates
    case Invoke(n, _) => n !in w.calls
    case ReadRow(n) => n in w.calls && (w.calls[n].pc.Begin? || w.calls[n].pc.VerifyBegin? || w.calls[n].pc.GapCheck?)
    case ReadRecord(n) => n in w.calls && (w.calls[n].pc.Checked? || w.calls[n].pc.VerifyChecked? || w.calls[n].pc.Reload?)
    case ReadFact(n, _) => n in w.calls && (w.calls[n].pc.Working? || w.calls[n].pc.Replaying?)
    case Commits(n, env) =>
      && n in w.calls && w.calls[n].pc.Working?
      && Needs(w.calls[n].pc.stage, w.calls[n].request, w.calls[n].pc.cur) <= w.calls[n].pc.seen.Keys
      && NewEverywhere(w.store, env)
    case CallPort(n) => n in w.calls && w.calls[n].pc.Armed?
    case Crash(n) => n in w.calls
    case Accept(_, _, _) => true
    case Challenge(_, _) => true
  }

  /** A repeated request is answered from the stored snapshot; the fact it names is read next. */
  function Replay(q: Request, prior: Interaction): Pc {
    match q.action
    case PreviewAction(_) => Replaying(prior)
    case ConfirmAction(_, _, _, _) => Replaying(prior)
    case ApproveAction(_, _, _, _, _) => Replaying(prior)
    case CancelAction => Finished(SnapshotAnswer(prior))
    case ExpireAction => Finished(SnapshotAnswer(prior))
    case _ => Finished(StatusAnswer)
  }

  function AfterReadRow(s: Store, q: Request, pc: Pc): Pc
    requires pc.Begin? || pc.VerifyBegin? || pc.GapCheck?
  {
    if Blank(q.key) then Finished(Failure(IdempotencyKeyMissing))
    else
      match pc
      case GapCheck =>
        if GapRowKey(q) !in s.rows then Finished(Failure(RevisionConflict))
        else if s.rows[GapRowKey(q)].digest != DigestOf(q) then Finished(Failure(IdempotencyConflict))
        else if s.rows[GapRowKey(q)].result.id != q.interactionId then Finished(Failure(RevisionConflict))
        else Reload
      case _ =>
        if KeyOf(q) !in s.rows then (if pc.Begin? then Checked else VerifyChecked(pc.expected))
        else if s.rows[KeyOf(q)].digest != DigestOf(q) then Finished(Failure(IdempotencyConflict))
        else Replay(q, s.rows[KeyOf(q)].result)
  }

  /** Recovery, with a record it may work on: reconcile an open attempt first, then verify. */
  function Recovering(cur: Interaction): Pc {
    if cur.state.Executing? && cur.execution.Attempted? then Working(Reconciling, cur, map[])
    else VerifyBegin(cur.revision)
  }

  function Guarded(stage: Stage, q: Request, expected: nat, cur: Interaction): Pc {
    var g := Guard(stage, q, expected, cur);
    if g.Some? then Finished(Failure(g.value)) else Working(stage, cur, map[])
  }

  function AfterReadRecord(s: Store, q: Request, pc: Pc): Pc
    requires pc.Checked? || pc.VerifyChecked? || pc.Reload?
  {
    var found := Get(s, q.scope, q.interactionId);
    if found.None? then Finished(Failure(NotFound))
    else
      match pc
      case VerifyChecked(e) => Guarded(Proving, q, e, found.value)
      case Reload => Recovering(found.value)
      case _ =>
        if !q.action.RecoverAction? then Guarded(StageOf(q), q, q.expected, found.value)
        else if found.value.revision != q.expected then GapCheck
        else Recovering(found.value)
  }

  /** The fact a replayed request returns; `AssertionFailed` is the source's `assert fact is not None`. */
  function ReplayAnswer(s: Store, q: Request, prior: Interaction): Answer {
    var id := if q.action.PreviewAction? then prior.previewId
              else if q.action.ConfirmAction? then prior.confirmationId else prior.approvalId;
    if id.None? then AssertionFailed
    else
      var f := Lookup(s, prior.id, id.value);
      if f.Some? && ((q.action.PreviewAction? && f.value.PreviewFact?)
                     || (q.action.ConfirmAction? && f.value.ConfirmationFact?)
                     || (q.action.ApproveAction? && f.value.ApprovalFact?))
      then FactAnswer(id.value) else AssertionFailed
  }

  function AfterReadFact(s: Store, q: Request, pc: Pc, id: Id): Pc
    requires pc.Working? || pc.Replaying?
  {
    if pc.Working? then pc.(seen := pc.seen[id := Lookup(s, q.interactionId, id)])
    else Finished(ReplayAnswer(s, q, pc.prior))
  }

  function PortCallFor(q: Request, cur: Interaction, seen: Seen, env: Env): PortCall {
    var p := PreviewIn(seen, cur.previewId);
    PortCall(cur.id, env.id0, cur.origin.operation, if p.Some? then p.value.plan.parameters else "", q.key,
             env.confirmationCheck, env.approvalCheck)
  }

  function AfterCommit(stage: Stage, q: Request, cur: Interaction, seen: Seen, env: Env, c: Commit): Pc {
    match stage
    case Previewing => Finished(FactAnswer(env.id0))
    case Confirming => Finished(FactAnswer(env.id0))
    case Approving => Finished(FactAnswer(env.id0))
    case Cancelling => Finished(SnapshotAnswer(c.next))
    case Expiring => Finished(SnapshotAnswer(c.next))
    case Gate => Armed(c.next, Execution(env.id0, q.actor, q.key, Attempted, None), PortCallFor(q, cur, seen, env))
    case Observing => Finished(StatusAnswer)
    case Reconciling => VerifyBegin(c.next.revision)
    case Proving => Finished(StatusAnswer)
  }

  function EventOf(c: Commit): Event {
    Event(RowKey(c), c.digest, c.next.id, c.next.revision, c.consumption)
  }

  function Moved(w: World, n: nat, pc: Pc): World
    requires n in w.calls
  {
    w.(calls := w.calls[n := w.calls[n].(pc := pc)])
  }

  function Advanced(w: World, n: nat, pc: Pc, s: Store, e: Event): World
    requires n in w.calls
  {
    Moved(w, n, pc).(store := s, history := w.history + [e])
  }

  function CommitStep(w: World, n: nat, env: Env): World
    requires n in w.calls && w.calls[n].pc.Working?
  {
    var q, pc := w.calls[n].request, w.calls[n].pc;
    match Decide(pc.stage, q, pc.cur, pc.seen, env)
    case Err(e) => Moved(w, n, Finished(Failure(e)))
    case Ok(c) =>
      match Transition(w.store, c)
      case Err(e) => Moved(w, n, Finished(Failure(e)))
      case Ok(s) =>
        Advanced(w, n, AfterCommit(pc.stage, q, pc.cur, pc.seen, env, c), s, EventOf(c))
  }

  function OpenStep(w: World, origin: Origin, key: string, id: Id): World {
    match CreateInteraction(w.store, id, origin, key)
    case Err(_) => w
    case Ok((s, _)) =>
      if CreateKey(origin, key) in w.store.rows then w
      else w.(store := s, history := w.history + [Event(CreateKey(origin, key), CreateDigest(origin), id, 1, None)])
  }

  function InvokeStep(w: World, n: nat, q: Request): World {
    w.(calls := w.calls[n := Call(q, if q.action.VerifyAction? then VerifyBegin(q.expected) else Begin)])
  }

  function CrashStep(w: World, n: nat): World {
    w.(calls := w.calls - {n})
  }

  function PortStep(w: World, n: nat): World
    requires n in w.calls && w.calls[n].pc.Armed?
  {
    var pc := w.calls[n].pc;
    Moved(w, n, Working(Observing, pc.executing, map[pc.execution.id := Some(ExecutionFact(pc.execution))]))
      .(log := w.log + [pc.port])
  }

  function Next(w: World, step: Step): World
    requires Enabled(w, step)
  {
    match step
    case Open(origin, key, id) => OpenStep(w, origin, key, id)
    case Invoke(n, q) => InvokeStep(w, n, q)
    case ReadRow(n) => Moved(w, n, AfterReadRow(w.store, w.calls[n].request, w.calls[n].pc))
    case ReadRecord(n) => Moved(w, n, AfterReadRecord(w.store, w.calls[n].request, w.calls[n].pc))
    case ReadFact(n, id) => Moved(w, n, AfterReadFact(w.store, w.calls[n].request, w.calls[n].pc, id))
    case Commits(n, env) => CommitStep(w, n, env)
    case CallPort(n) => PortStep(w, n)
    case Crash(n) => CrashStep(w, n)
    case Accept(id, payload, now) =>
      (match AcceptEvidence(w.store, id, payload, now) case Ok(s) => w.(store := s) case Err(_) => w)
    case Challenge(id, row) => (match IssueChallenge(w.store, id, row) case Ok(s) => w.(store := s) case Err(_) => w)
  }

  /** A run is a sequence of enabled steps. */
  ghost predicate Valid(w: World, steps: seq<Step>)
    decreases |steps|
  {
    steps == [] || (Enabled(w, steps[0]) && Valid(Next(w, steps[0]), steps[1..]))
  }

  ghost function Run(w: World, steps: seq<Step>): World
    requires Valid(w, steps)
    decreases |steps|
  {
    if steps == [] then w else Run(Next(w, steps[0]), steps[1..])
  }

  ghost predicate Reachable(w: World) {
    exists steps :: Valid(START, steps) && Run(START, steps) == w
  }
}
