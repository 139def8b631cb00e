/** The Inbox resolution saga as it runs: any number of calls, in any number of processes, advance one
    database transaction or one request to a target store at a time; a call may vanish between any two. */
module InboxSaga {
  import opened Basics
  import opened InboxModels
  import opened InboxTables

  /** Who made a target: recorded when the saga's own request inserted it. */
  datatype Made = Made(item: Id, slot: Slot)

  datatype Outcome = Success(item: Item) | AlreadyResolved(claim: Claim) | Refused(failure: Failure) | TargetRefused

  datatype Pc =
    | Claiming
    | Fetching
    | Rereading(item: Item)
    | Creating(item: Item, claim: Claim)
    | Recording(target: Id)
    | Completing
    | Finished(outcome: Outcome)

  /** `since` is the time of the call's last step: it reads its clock no earlier than that. */
  datatype Call = Call(request: Request, pc: Pc, since: Time)

  datatype World = World(
    tables: Tables, targets: map<Slot, Target>, made: seq<Made>, calls: map<nat, Call>, now: Time)

  const EMPTY_WORLD := World(Tables(map[], map[]), map[], [], map[], 0)

  /** How a target store answers: it serves the request (drawing a reminder id if it needs one), it serves
      it but the answer is lost, or it does nothing. */
  datatype Reply = Served(drawn: Id) | AnswerLost(drawn: Id) | Unavailable

  datatype Step =
    | Capture(id: Id, scope: Scope, source: string)
    | Begin(n: nat, request: Request)
    | Advance(n: nat, at: Time, reply: Reply)
    | Crash(n: nat)
    | Elsewhere(slot: Slot, target: Target)
    | Tick(time: Time)

  // ---------- one step of one call ----------

  function WithCall(w: World, n: nat, c: Call): World {
    w.(calls := w.calls[n := c])
  }

  function Goto(w: World, n: nat, pc: Pc): World
    requires n in w.calls
  {
    WithCall(w, n, w.calls[n].(pc := pc, since := w.now))
  }

  /** What the service does with the claim it got: refuse a claim of another kind, and answer a completed
      one at once. */
  function AfterClaim(t: Tables, q: Request, a: Answer<Claim>): Pc {
    match a
    case Bad(f) => Finished(Refused(f))
    case Good(c) =>
      if c.kind != q.kind then Finished(AlreadyResolved(c))
      else if c.state.ClaimCompleted? then
        if ReturnsCompleted(q.kind) && q.item in t.items
           && t.items[q.item].kind == Some(q.kind) && t.items[q.item].target == c.target
        then Finished(Success(t.items[q.item]))
        else Finished(AlreadyResolved(c))
      else Fetching
  }

  function ClaimStep(w: World, n: nat, at: Time): World
    requires n in w.calls
  {
    var q := w.calls[n].request;
    var (t, a) := ClaimResolution(w.tables, q, at);
    Goto(w.(tables := t), n, AfterClaim(t, q, a))
  }

  function FetchStep(w: World, n: nat): World
    requires n in w.calls
  {
    var q := w.calls[n].request;
    Goto(w, n,
      if q.item !in w.tables.items then Finished(Refused(ItemMissing))
      else if w.tables.items[q.item].scope != q.scope then Finished(Refused(OtherWorkspace))
      else if !w.tables.items[q.item].status.Pending? then
        if q.item in w.tables.claims then Finished(AlreadyResolved(w.tables.claims[q.item]))
        else Finished(Refused(ClaimMissing))
      else Rereading(w.tables.items[q.item]))
  }

  function RereadStep(w: World, n: nat): World
    requires n in w.calls && w.calls[n].pc.Rereading?
  {
    var q := w.calls[n].request;
    Goto(w, n,
      if q.item !in w.tables.claims then Finished(Refused(ClaimMissing))
      else if w.tables.claims[q.item].scope != q.scope then Finished(Refused(OtherWorkspace))
      else
        var c := w.tables.claims[q.item];
        if External(q.kind) && c.state.Claimed? then Creating(w.calls[n].pc.item, c) else Completing)
  }

  /** The key a creator uses: the claim's, so that every call aims at the same target. */
  function KeyOf(c: Claim): Id {
    if c.key.Some? then c.key.value else ""
  }

  /** The request to the target store; the slot decides whether it creates, adopts or fails. */
  function CreateStep(w: World, n: nat, reply: Reply): World
    requires n in w.calls && w.calls[n].pc.Creating?
  {
    var q, i, c := w.calls[n].request, w.calls[n].pc.item, w.calls[n].pc.claim;
    var slot := SlotOf(i.scope, q.kind, KeyOf(c));
    if reply.Unavailable? then Goto(w, n, Finished(TargetRefused))
    else if slot !in w.targets then
      var t := Stamped(i, q.kind, KeyOf(c), reply.drawn, q.intent);
      Goto(w.(targets := w.targets[slot := t], made := w.made + [Made(i.id, slot)]), n,
           if reply.Served? then Recording(t.id) else Finished(TargetRefused))
    else
      Goto(w, n, if reply.Served? && Adoptable(w.targets[slot], i, q.kind, q.intent)
                 then Recording(w.targets[slot].id) else Finished(TargetRefused))
  }

  /** A refused repository call is reported with the claim as it stands. */
  function Refusal(t: Tables, q: Request, f: Failure): Pc {
    if (f.ClaimConflict? || f.NoRecoverableClaim?) && q.item in t.claims
       && (t.claims[q.item].kind != q.kind || t.claims[q.item].state.ClaimCompleted?)
    then Finished(AlreadyResolved(t.claims[q.item]))
    else Finished(Refused(f))
  }

  function RecordStep(w: World, n: nat, at: Time): World
    requires n in w.calls && w.calls[n].pc.Recording?
  {
    var q := w.calls[n].request;
    var (t, a) := RecordTargetCreated(w.tables, q, w.calls[n].pc.target, at);
    Goto(w.(tables := t), n, if a.Good? then Completing else Refusal(t, q, a.failure))
  }

  function CompleteStep(w: World, n: nat, at: Time): World
    requires n in w.calls
  {
    var q := w.calls[n].request;
    var (t, a) := CompleteResolution(w.tables, q, at);
    Goto(w.(tables := t), n, if a.Good? then Finished(Success(a.value)) else Refusal(t, q, a.failure))
  }

  function Advanced(w: World, n: nat, at: Time, reply: Reply): World
    requires n in w.calls
  {
    match w.calls[n].pc
    case Claiming => ClaimStep(w, n, at)
    case Fetching => FetchStep(w, n)
    case Rereading(_) => RereadStep(w, n)
    case Creating(_, _) => CreateStep(w, n, reply)
    case Recording(_) => RecordStep(w, n, at)
    case Completing => CompleteStep(w, n, at)
    case Finished(_) => w
  }

  // ---------- the machine ----------

  /** A step that can happen: ids are new, the clock does not run backwards, a clock reading falls between
      the call's last step and now, and every target store keeps its primary key. */
  predicate Enabled(w: World, s: Step) {
    match s
    case Capture(id, _, _) => id !in w.tables.items && id !in w.tables.claims
    case Begin(n, q) => n !in w.calls && WellFormed(q)
    case Advance(n, at, reply) =>
      n in w.calls && w.calls[n].since <= at <= w.now && (reply.Unavailable? || reply.drawn != "")
    case Crash(n) => n in w.calls
    case Elsewhere(slot, t) =>
      && slot !in w.targets && External(slot.kind) && t.id != ""
      && (if slot.kind.Reminder? then slot.scope.Some? else slot.scope.None? && t.id == slot.key)
    case Tick(time) => w.now <= time
  }

  function Captured(w: World, id: Id, scope: Scope, source: string): World {
    w.(tables := w.tables.(items := w.tables.items[id :=
      Item(id, scope, source, Pending, w.now, w.now, None, None, None, 1)]))
  }

  function Next(w: World, s: Step): World
    requires Enabled(w, s)
  {
    match s
    case Capture(id, scope, source) => Captured(w, id, scope, source)
    case Begin(n, q) => WithCall(w, n, Call(q, Claiming, w.now))
    case Advance(n, at, reply) => Advanced(w, n, at, reply)
    case Crash(n) => w.(calls := w.calls - {n})
    case Elsewhere(slot, t) => w.(targets := w.targets[slot := t])
    case Tick(time) => w.(now := time)
  }

  predicate Valid(w: World, steps: seq<Step>)
    decreases |steps|
  {
    steps == [] || (Enabled(w, steps[0]) && Valid(Next(w, steps[0]), steps[1..]))
  }

  function Run(w: World, steps: seq<Step>): World
    requires Valid(w, steps)
    decreases |steps|
  {
    if steps == [] then w else Run(Next(w, steps[0]), steps[1..])
  }

  ghost predicate Reachable(w: World) {
    exists steps: seq<Step> :: Valid(EMPTY_WORLD, steps) && Run(EMPTY_WORLD, steps) == w
  }
}
