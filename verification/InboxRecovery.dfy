/** One call running alone, with dependencies that answer, from any point a crash may have left behind. */
module InboxRecovery {
  import opened Basics
  import opened InboxModels
  import opened InboxTables
  import opened InboxSaga
  import opened InboxInvariant
  import opened InboxSafety

  /** The three clock readings of a call: before it claims, before it records a target, before it completes. */
  datatype Clock = Clock(claimed: Time, recorded: Time, completed: Time)

  /** What the clock shows when a call at `pc` moves; the moves in between do not look at it. */
  function Reading(now: Time, pc: Pc, clock: Clock): Time {
    match pc
    case Claiming => clock.claimed
    case Recording(_) => clock.recorded
    case Completing => clock.completed
    case _ => now
  }

  /** The readings still to come do not run backwards. */
  predicate Ahead(now: Time, pc: Pc, clock: Clock) {
    match pc
    case Claiming => now <= clock.claimed <= clock.recorded <= clock.completed
    case Completing => now <= clock.completed
    case Finished(_) => true
    case _ => now <= clock.recorded <= clock.completed
  }

  /** The world when the call at `n` reads the clock next. */
  function Ticked(w: World, n: nat, clock: Clock): World
    requires n in w.calls
  {
    w.(now := Reading(w.now, w.calls[n].pc, clock))
  }

  function Moved(w: World, n: nat, reply: Reply, clock: Clock): World
    requires n in w.calls
  {
    Advanced(Ticked(w, n, clock), n, Ticked(w, n, clock).now, reply)
  }

  /** The call moves k times; nobody else does. */
  function Drive(w: World, n: nat, reply: Reply, clock: Clock, k: nat): (u: World)
    requires n in w.calls
    ensures n in u.calls
    decreases k
  {
    if k == 0 then w else Drive(Moved(w, n, reply, clock), n, reply, clock, k - 1)
  }

  // ---------- what a lone call comes to, told without its steps ----------

  /** What a call leaves, and its answer. */
  datatype End = End(tables: Tables, targets: map<Slot, Target>, made: seq<Made>, outcome: Outcome)

  function Unchanged(w: World, outcome: Outcome): End {
    End(w.tables, w.targets, w.made, outcome)
  }

  /** A record says that it is this item's target: a reminder by its intent, a work log by item, workspace and the
      inbox as its source, a waiting-for by item, workspace and the item's source, a task by item and workspace. */
  predicate IsItsOwn(t: Target, i: Item, q: Request) {
    if q.kind.Reminder? then t.intent == q.intent
    else
      && t.scope == i.scope && t.item == Some(i.id)
      && (q.kind.WorkLog? ==> t.source == Some("inbox"))
      && (q.kind.WaitingFor? ==> t.source == Some(i.source))
  }

  /** Reminders are found by key and workspace, the others by an id of their own store. */
  function PlaceOf(i: Item, q: Request, key: Option<Id>): Slot {
    Slot(q.kind, if q.kind.Reminder? then Some(i.scope) else None, if key.Some? then key.value else "")
  }

  /** The target that is made: under the key, or for a reminder under an id that is drawn, with the item's mark. */
  function MadeFor(i: Item, q: Request, key: Option<Id>, drawn: Id): Target {
    if q.kind.Reminder? then Target(drawn, i.scope, None, None, q.intent)
    else Target(if key.Some? then key.value else "", i.scope, Some(i.id),
                Some(if q.kind.WorkLog? then "inbox" else i.source), q.intent)
  }

  function FirstClaim(q: Request, at: Time): Claim {
    Claim(q.item, q.scope, q.kind, q.key, if q.kind.Reminder? then None else q.key, Claimed, at, at, 1)
  }

  function WithTarget(c: Claim, target: Id, at: Time): Claim {
    c.(target := Some(target), state := TargetCreated, updated := at, revision := c.revision + 1)
  }

  /** Item and claim are settled together, at one instant and with one target. */
  function Settling(w: World, q: Request, c: Claim, at: Time): End
    requires q.item in w.tables.items
  {
    var before := w.tables.items[q.item];
    var i := before.(status := if q.kind.Dismissal? then Dismissed else Resolved, updated := at, resolvedAt := Some(at),
                     kind := Some(q.kind), target := c.target, revision := before.revision + 1);
    var d := c.(state := ClaimCompleted, updated := at, revision := c.revision + 1);
    End(Tables(w.tables.items[q.item := i], w.tables.claims[q.item := d]), w.targets, w.made, Success(i))
  }

  /** The target is recorded, and then item and claim are settled. */
  function RecordingEnd(w: World, q: Request, c: Claim, target: Id, clock: Clock): End
    requires q.item in w.tables.items
  {
    Settling(w, q, WithTarget(c, target, clock.recorded), clock.completed)
  }

  /** The target is made if its place is free; what is there is taken if it is the item's own. Unless the store
      says so, nothing is recorded. */
  function MakingEnd(w: World, q: Request, c: Claim, clock: Clock, reply: Reply): End
    requires q.item in w.tables.items
  {
    var i := w.tables.items[q.item];
    var place := PlaceOf(i, q, c.key);
    if reply.Unavailable? then Unchanged(w, TargetRefused)
    else if place !in w.targets then
      var t := MadeFor(i, q, c.key, reply.drawn);
      var e := if reply.Served? then RecordingEnd(w, q, c, t.id, clock) else Unchanged(w, TargetRefused);
      e.(targets := w.targets[place := t], made := w.made + [Made(q.item, place)])
    else if reply.Served? && IsItsOwn(w.targets[place], i, q) then RecordingEnd(w, q, c, w.targets[place].id, clock)
    else Unchanged(w, TargetRefused)
  }

  /** A note or a dismissal needs no target, and a recorded one is not made again. */
  function GoingEnd(w: World, q: Request, c: Claim, clock: Clock, reply: Reply): End
    requires q.item in w.tables.items
  {
    if !q.kind.Note? && !q.kind.Dismissal? && c.state.Claimed? then MakingEnd(w, q, c, clock, reply)
    else Settling(w, q, c, clock.completed)
  }

  /** What a lone call comes to. A completed work log or waiting-for is given back again; a repetition of any other
      kind is told that the item is resolved, and so is a request of another kind than the claim's. */
  function RetryEnd(w: World, q: Request, clock: Clock, reply: Reply): End {
    if q.item !in w.tables.items then Unchanged(w, Refused(ItemMissing))
    else if w.tables.items[q.item].scope != q.scope then Unchanged(w, Refused(OtherWorkspace))
    else if q.item !in w.tables.claims then
      var c := FirstClaim(q, clock.claimed);
      GoingEnd(w.(tables := w.tables.(claims := w.tables.claims[q.item := c])), q, c, clock, reply)
    else
      var c := w.tables.claims[q.item];
      if c.kind != q.kind then Unchanged(w, AlreadyResolved(c))
      else if !c.state.ClaimCompleted? then GoingEnd(w, q, c, clock, reply)
      else if q.kind.WorkLog? || q.kind.WaitingFor? then Unchanged(w, Success(w.tables.items[q.item]))
      else Unchanged(w, AlreadyResolved(c))
  }

  predicate EndsWith(w: World, n: nat, reply: Reply, clock: Clock, k: nat, e: End)
    requires n in w.calls
  {
    var u := Drive(w, n, reply, clock, k);
    u.calls[n].pc == Finished(e.outcome) && u.tables == e.tables && u.targets == e.targets && u.made == e.made
  }

  /** A target that still has to be made can be: its place is free, or taken by this item's own. */
  predicate Obtainable(w: World, q: Request, key: Option<Id>)
    requires q.item in w.tables.items
  {
    var i := w.tables.items[q.item];
    PlaceOf(i, q, key) in w.targets ==> IsItsOwn(w.targets[PlaceOf(i, q, key)], i, q)
  }

  /** What a caller can look up before it retries. Without a claim the retry makes its own. */
  predicate Completable(w: World, q: Request)
    requires q.item in w.tables.items
  {
    var external := !q.kind.Note? && !q.kind.Dismissal?;
    if q.item !in w.tables.claims then external ==> Obtainable(w, q, q.key)
    else
      var c := w.tables.claims[q.item];
      && c.kind == q.kind
      && (if c.state.ClaimCompleted? then q.kind.WorkLog? || q.kind.WaitingFor?
          else external && c.state.Claimed? ==> Obtainable(w, q, c.key))
  }

  lemma TickedKeeps(w: World, n: nat, clock: Clock)
    requires Inv(w) && n in w.calls && Ahead(w.now, w.calls[n].pc, clock)
    ensures var v := Ticked(w, n, clock);
            && Inv(v) && Evolves(w, v) && v.now >= w.now
            && v.tables == w.tables && v.targets == w.targets && v.calls == w.calls
  {
    var v := Ticked(w, n, clock);
    assert Enabled(w, Tick(v.now)) && Next(w, Tick(v.now)) == v;
    hide Inv, Evolves;
    StepKeeps(w, Tick(v.now));
  }

  lemma {:induction false} DriveFinished(w: World, n: nat, reply: Reply, clock: Clock, k: nat)
    requires n in w.calls && w.calls[n].pc.Finished?
    ensures Drive(w, n, reply, clock, k) == w
    decreases k
  {
    if k == 0 {
    } else {
      DriveFinished(w, n, reply, clock, k - 1);
    }
  }

  lemma OneMore(w: World, n: nat, reply: Reply, clock: Clock, k: nat, e: End)
    requires n in w.calls && k > 0
    ensures EndsWith(w, n, reply, clock, k, e) == EndsWith(Moved(w, n, reply, clock), n, reply, clock, k - 1, e)
  {
    hide Moved;
  }

  /** A call that has finished stays as it is. */
  lemma EndsHere(w: World, n: nat, reply: Reply, clock: Clock, k: nat, e: End)
    requires n in w.calls && w.calls[n].pc == Finished(e.outcome)
    requires w.tables == e.tables && w.targets == e.targets && w.made == e.made
    ensures EndsWith(w, n, reply, clock, k, e)
  {
    DriveFinished(w, n, reply, clock, k);
  }

  lemma Since(w: World, n: nat)
    requires Inv(w) && n in w.calls
    ensures w.calls[n].since <= w.now
  {
    assert CallOk(w, w.calls[n]);
  }

  /** The claim of a call in the saga is there, and is its own. */
  predicate Claims(w: World, q: Request) {
    && q.item in w.tables.items && q.item in w.tables.claims
    && w.tables.items[q.item].scope == q.scope && w.tables.claims[q.item].scope == q.scope
    && w.tables.claims[q.item].kind == q.kind && !w.tables.claims[q.item].state.ClaimCompleted?
  }

  lemma CompletesSo(w: World, n: nat)
    requires Inv(w) && n in w.calls && w.calls[n].pc.Completing? && Claims(w, w.calls[n].request)
    ensures var u, q := CompleteStep(w, n, w.now), w.calls[n].request;
            var e := Settling(w, q, w.tables.claims[q.item], w.now);
            && n in u.calls && u.calls[n].pc == Finished(e.outcome)
            && u.tables == e.tables && u.targets == e.targets && u.made == e.made
  {
    Since(w, n);
    CompletionGoesThrough(w, w.calls[n], w.now);
    assert CallOk(w, w.calls[n]) && ItemOk(w.tables, w.now, w.calls[n].request.item);
    hide Inv, CallOk, ClaimValid, ItemValid;
  }

  lemma CompletingEnds(w: World, n: nat, reply: Reply, clock: Clock, k: nat)
    requires Inv(w) && n in w.calls && w.calls[n].pc.Completing? && Ahead(w.now, w.calls[n].pc, clock) && k >= 1
    requires Claims(w, w.calls[n].request)
    ensures var q := w.calls[n].request;
            EndsWith(w, n, reply, clock, k, Settling(w, q, w.tables.claims[q.item], clock.completed))
  {
    hide Inv, Evolves, CompleteStep, Drive, EndsWith, Settling;
    TickedKeeps(w, n, clock);
    var v, q := Ticked(w, n, clock), w.calls[n].request;
    CompletesSo(v, n);
    SameSettling(w, v, q, clock.completed);
    var e := Settling(w, q, w.tables.claims[q.item], clock.completed);
    OneMore(w, n, reply, clock, k, e);
    EndsHere(CompleteStep(v, n, v.now), n, reply, clock, k - 1, e);
  }

  lemma SameSettling(w: World, v: World, q: Request, at: Time)
    requires v.tables == w.tables && v.targets == w.targets && v.made == w.made
    requires q.item in w.tables.items && q.item in w.tables.claims
    ensures Settling(v, q, v.tables.claims[q.item], at) == Settling(w, q, w.tables.claims[q.item], at)
  {
  }

  /** What is recorded is what stands in the claim's slot, so recording it cannot be refused. */
  lemma RecordsSo(w: World, n: nat)
    requires Inv(w) && n in w.calls && w.calls[n].pc.Recording? && Claims(w, w.calls[n].request)
    requires w.tables.claims[w.calls[n].request.item].state.Claimed?
    ensures var u, q := RecordStep(w, n, w.now), w.calls[n].request;
            && n in u.calls && u.now == w.now && u.calls[n].pc.Completing? && u.calls[n].request == q
            && u.targets == w.targets && u.made == w.made
            && u.tables == Tables(w.tables.items, w.tables.claims[q.item :=
                             WithTarget(w.tables.claims[q.item], w.calls[n].pc.target, w.now)])
  {
    var c := w.calls[n];
    Since(w, n);
    assert CallOk(w, c) && ClaimOk(w.tables, w.now, c.request.item);
    hide Inv, ItemValid, Bears;
  }

  lemma RecordingMoves(w: World, n: nat, reply: Reply, clock: Clock)
    requires Inv(w) && n in w.calls && w.calls[n].pc.Recording? && Ahead(w.now, w.calls[n].pc, clock)
    requires Claims(w, w.calls[n].request) && w.tables.claims[w.calls[n].request.item].state.Claimed?
    ensures var u, q := Moved(w, n, reply, clock), w.calls[n].request;
            && Inv(u) && n in u.calls && u.calls[n].pc.Completing? && Ahead(u.now, u.calls[n].pc, clock)
            && u.calls[n].request == q && u.targets == w.targets && u.made == w.made
            && u.tables == Tables(w.tables.items, w.tables.claims[q.item :=
                             WithTarget(w.tables.claims[q.item], w.calls[n].pc.target, clock.recorded)])
  {
    TickedKeeps(w, n, clock);
    var v := Ticked(w, n, clock);
    assert Moved(w, n, reply, clock) == RecordStep(v, n, v.now);
    hide Inv, Evolves, RecordStep, Moved, WithTarget;
    Since(v, n);
    RecordStepKeeps(v, n, v.now);
    RecordsSo(v, n);
  }

  lemma RecordingEnds(w: World, n: nat, reply: Reply, clock: Clock, k: nat)
    requires Inv(w) && n in w.calls && w.calls[n].pc.Recording? && Ahead(w.now, w.calls[n].pc, clock) && k >= 2
    requires Claims(w, w.calls[n].request) && w.tables.claims[w.calls[n].request.item].state.Claimed?
    ensures var q := w.calls[n].request;
            EndsWith(w, n, reply, clock, k,
                     RecordingEnd(w, q, w.tables.claims[q.item], w.calls[n].pc.target, clock))
  {
    hide Inv, EndsWith, Moved, Ahead;
    var q := w.calls[n].request;
    RecordingMoves(w, n, reply, clock);
    var u := Moved(w, n, reply, clock);
    CompletingEnds(u, n, reply, clock, k - 1);
    SettledAfterRecording(w, u, q, w.calls[n].pc.target, clock);
    OneMore(w, n, reply, clock, k, RecordingEnd(w, q, w.tables.claims[q.item], w.calls[n].pc.target, clock));
  }

  lemma SettledAfterRecording(w: World, u: World, q: Request, target: Id, clock: Clock)
    requires q.item in w.tables.items && q.item in w.tables.claims
    requires u.targets == w.targets && u.made == w.made
    requires u.tables == Tables(w.tables.items, w.tables.claims[q.item :=
                           WithTarget(w.tables.claims[q.item], target, clock.recorded)])
    ensures Settling(u, q, u.tables.claims[q.item], clock.completed)
            == RecordingEnd(w, q, w.tables.claims[q.item], target, clock)
  {
  }

  /** What the request to the target store leads to. */
  lemma CreatesSo(w: World, n: nat, reply: Reply)
    requires Inv(w) && n in w.calls && w.calls[n].pc.Creating? && Claims(w, w.calls[n].request)
    ensures var u, q := CreateStep(w, n, reply), w.calls[n].request;
            var i, c := w.tables.items[q.item], w.tables.claims[q.item];
            var place := PlaceOf(i, q, c.key);
            && n in u.calls && u.now == w.now && u.calls[n].request == q && u.tables == w.tables
            && (if reply.Unavailable? || place in w.targets then u.targets == w.targets && u.made == w.made
                else && u.targets == w.targets[place := MadeFor(i, q, c.key, reply.drawn)]
                     && u.made == w.made + [Made(q.item, place)])
            && u.calls[n].pc == if !reply.Served? then Finished(TargetRefused)
                                else if place !in w.targets then Recording(MadeFor(i, q, c.key, reply.drawn).id)
                                else if IsItsOwn(w.targets[place], i, q) then Recording(w.targets[place].id)
                                else Finished(TargetRefused)
  {
    assert CallOk(w, w.calls[n]);
    AsksForItsSlot(w, w.calls[n]);
    assert ItemOk(w.tables, w.now, w.calls[n].request.item);
    hide TablesOk, TargetsOk, BackedAll, MadeOnce, CallsOk, Linked, ItemValid;
  }

  lemma CreatingEnds(w: World, n: nat, reply: Reply, clock: Clock, k: nat)
    requires Inv(w) && n in w.calls && w.calls[n].pc.Creating? && Ahead(w.now, w.calls[n].pc, clock) && k >= 3
    requires reply.Unavailable? || reply.drawn != ""
    requires Claims(w, w.calls[n].request) && w.tables.claims[w.calls[n].request.item].state.Claimed?
    ensures var q := w.calls[n].request;
            EndsWith(w, n, reply, clock, k, MakingEnd(w, q, w.tables.claims[q.item], clock, reply))
  {
    hide Inv, Evolves, CreateStep, Drive, EndsWith, PlaceOf, MadeFor, IsItsOwn, WithTarget;
    CreatesSo(w, n, reply);
    CreateStepKeeps(w, n, reply);
    var u, q := CreateStep(w, n, reply), w.calls[n].request;
    var e := MakingEnd(w, q, w.tables.claims[q.item], clock, reply);
    assert Ticked(w, n, clock) == w;
    OneMore(w, n, reply, clock, k, e);
    if u.calls[n].pc.Recording? {
      RecordingEnds(u, n, reply, clock, k - 1);
    } else {
      EndsHere(u, n, reply, clock, k - 1, e);
    }
  }

  /** What rereading the claim leads to. */
  lemma RereadLeads(w: World, n: nat)
    requires Inv(w) && n in w.calls && w.calls[n].pc.Rereading? && Claims(w, w.calls[n].request)
    ensures var u, q := RereadStep(w, n), w.calls[n].request;
            && n in u.calls && u.now == w.now && u.tables == w.tables && u.targets == w.targets && u.made == w.made
            && u.calls[n].request == q
            && (if !q.kind.Note? && !q.kind.Dismissal? && w.tables.claims[q.item].state.Claimed?
                then u.calls[n].pc.Creating? else u.calls[n].pc.Completing?)
  {
    assert CallOk(w, w.calls[n]);
  }

  lemma RereadingEnds(w: World, n: nat, reply: Reply, clock: Clock, k: nat)
    requires Inv(w) && n in w.calls && w.calls[n].pc.Rereading? && Ahead(w.now, w.calls[n].pc, clock) && k >= 4
    requires (reply.Unavailable? || reply.drawn != "") && Claims(w, w.calls[n].request)
    ensures var q := w.calls[n].request;
            EndsWith(w, n, reply, clock, k, GoingEnd(w, q, w.tables.claims[q.item], clock, reply))
  {
    hide Inv, Evolves, EndsWith, RereadStep, IsItsOwn, PlaceOf, MadeFor;
    RereadLeads(w, n);
    RereadStepKeeps(w, n);
    var u, q := RereadStep(w, n), w.calls[n].request;
    assert Ticked(w, n, clock) == w;
    OneMore(w, n, reply, clock, k, GoingEnd(w, q, w.tables.claims[q.item], clock, reply));
    if u.calls[n].pc.Creating? {
      CreatingEnds(u, n, reply, clock, k - 1);
    } else {
      CompletingEnds(u, n, reply, clock, k - 1);
    }
  }

  /** What fetching the item leads to. */
  lemma FetchLeads(w: World, n: nat)
    requires Inv(w) && n in w.calls && w.calls[n].pc.Fetching? && Claims(w, w.calls[n].request)
    ensures var u, q := FetchStep(w, n), w.calls[n].request;
            && n in u.calls && u.now == w.now && u.tables == w.tables && u.targets == w.targets && u.made == w.made
            && u.calls[n].request == q && u.calls[n].pc.Rereading?
  {
    assert CallOk(w, w.calls[n]) && ItemOk(w.tables, w.now, w.calls[n].request.item);
  }

  lemma FetchingEnds(w: World, n: nat, reply: Reply, clock: Clock, k: nat)
    requires Inv(w) && n in w.calls && w.calls[n].pc.Fetching? && Ahead(w.now, w.calls[n].pc, clock) && k >= 5
    requires (reply.Unavailable? || reply.drawn != "") && Claims(w, w.calls[n].request)
    ensures var q := w.calls[n].request;
            EndsWith(w, n, reply, clock, k, GoingEnd(w, q, w.tables.claims[q.item], clock, reply))
  {
    hide Inv, Evolves, EndsWith, FetchStep, IsItsOwn, PlaceOf, MadeFor;
    FetchLeads(w, n);
    FetchStepKeeps(w, n);
    var u, q := FetchStep(w, n), w.calls[n].request;
    assert Ticked(w, n, clock) == w;
    RereadingEnds(u, n, reply, clock, k - 1);
    OneMore(w, n, reply, clock, k, GoingEnd(w, q, w.tables.claims[q.item], clock, reply));
  }

  /** What the claim transaction leads to. */
  lemma ClaimsSo(w: World, n: nat)
    requires Inv(w) && n in w.calls && w.calls[n].pc.Claiming?
    ensures var q, u := w.calls[n].request, ClaimStep(w, n, w.now);
            && n in u.calls && u.now == w.now && u.targets == w.targets && u.made == w.made && u.calls[n].request == q
            && (if q.item !in w.tables.items
                then u.tables == w.tables && u.calls[n].pc == Finished(Refused(ItemMissing))
                else if w.tables.items[q.item].scope != q.scope
                then u.tables == w.tables && u.calls[n].pc == Finished(Refused(OtherWorkspace))
                else if q.item !in w.tables.claims then
                  && u.tables == w.tables.(claims := w.tables.claims[q.item := FirstClaim(q, w.now)])
                  && u.calls[n].pc.Fetching? && Claims(u, q)
                else
                  && u.tables == w.tables
                  && var c := w.tables.claims[q.item];
                  if c.kind != q.kind then u.calls[n].pc == Finished(AlreadyResolved(c))
                  else if !c.state.ClaimCompleted? then u.calls[n].pc.Fetching? && Claims(u, q)
                  else u.calls[n].pc == Finished(if q.kind.WorkLog? || q.kind.WaitingFor?
                                                 then Success(w.tables.items[q.item]) else AlreadyResolved(c)))
  {
    var q := w.calls[n].request;
    assert CallOk(w, w.calls[n]);
    if q.item in w.tables.items { assert ItemOk(w.tables, w.now, q.item); }
    if q.item in w.tables.claims { assert ClaimOk(w.tables, w.now, q.item); }
    hide Inv;
  }

  lemma ClaimingEnds(w: World, n: nat, reply: Reply, clock: Clock, k: nat)
    requires Inv(w) && n in w.calls && w.calls[n].pc.Claiming? && Ahead(w.now, w.calls[n].pc, clock) && k >= 6
    requires reply.Unavailable? || reply.drawn != ""
    ensures EndsWith(w, n, reply, clock, k, RetryEnd(w, w.calls[n].request, clock, reply))
  {
    hide Inv, Evolves, ClaimStep, Drive, EndsWith, IsItsOwn, PlaceOf, MadeFor;
    TickedKeeps(w, n, clock);
    var v, q := Ticked(w, n, clock), w.calls[n].request;
    ClaimsSo(v, n);
    Since(v, n);
    ClaimStepKeeps(v, n, v.now);
    var u, e := ClaimStep(v, n, v.now), RetryEnd(w, q, clock, reply);
    OneMore(w, n, reply, clock, k, e);
    if u.calls[n].pc.Fetching? {
      FetchingEnds(u, n, reply, clock, k - 1);
      SameGoing(w, u, q, clock, reply);
    } else {
      EndsHere(u, n, reply, clock, k - 1, e);
    }
  }

  /** Only rows, targets and what was made count. */
  lemma SameGoing(w: World, u: World, q: Request, clock: Clock, reply: Reply)
    requires q.item in w.tables.items && q.item in u.tables.claims && u.targets == w.targets && u.made == w.made
    requires u.tables == w.tables || u.tables == w.tables.(claims := w.tables.claims[q.item := u.tables.claims[q.item]])
    ensures var c := u.tables.claims[q.item];
            GoingEnd(u, q, c, clock, reply) == GoingEnd(w.(tables := u.tables), q, c, clock, reply)
  {
  }

  // ---------- as a run ----------

  /** The steps of the machine that drive a call: the clock goes on, the call moves. */
  function Moves(w: World, n: nat, reply: Reply, clock: Clock, k: nat): seq<Step>
    requires n in w.calls
    decreases k
  {
    if k == 0 then []
    else [Tick(Ticked(w, n, clock).now), Advance(n, Ticked(w, n, clock).now, reply)]
         + Moves(Moved(w, n, reply, clock), n, reply, clock, k - 1)
  }

  lemma MoveFrame(w: World, n: nat, reply: Reply, clock: Clock)
    requires n in w.calls && w.calls[n].since <= w.now && Ahead(w.now, w.calls[n].pc, clock)
    ensures var v, u := Ticked(w, n, clock), Moved(w, n, reply, clock);
            && w.now <= v.now == u.now && u.calls[n].since <= u.now && Ahead(u.now, u.calls[n].pc, clock)
            && u.calls[n].request == w.calls[n].request
  {
    hide ClaimResolution, RecordTargetCreated, CompleteResolution;
  }

  lemma TwoSteps(w: World, t: Time, n: nat, reply: Reply, rest: seq<Step>)
    requires n in w.calls && w.calls[n].since <= w.now <= t && (reply.Unavailable? || reply.drawn != "")
    requires Valid(Advanced(w.(now := t), n, t, reply), rest)
    ensures var steps := [Tick(t), Advance(n, t, reply)] + rest;
            Valid(w, steps) && Run(w, steps) == Run(Advanced(w.(now := t), n, t, reply), rest)
  {
    var v := w.(now := t);
    assert Enabled(w, Tick(t)) && Next(w, Tick(t)) == v;
    assert Enabled(v, Advance(n, t, reply)) && Next(v, Advance(n, t, reply)) == Advanced(v, n, t, reply);
    hide Advanced, Enabled, Next;
    var steps := [Tick(t), Advance(n, t, reply)] + rest;
    assert steps[0] == Tick(t) && steps[1..] == [Advance(n, t, reply)] + rest;
    assert steps[1..][0] == Advance(n, t, reply) && steps[1..][1..] == rest;
  }

  lemma {:induction false} DriveRuns(w: World, n: nat, reply: Reply, clock: Clock, k: nat)
    requires n in w.calls && w.calls[n].since <= w.now && Ahead(w.now, w.calls[n].pc, clock)
    requires reply.Unavailable? || reply.drawn != ""
    ensures Valid(w, Moves(w, n, reply, clock, k)) && Run(w, Moves(w, n, reply, clock, k)) == Drive(w, n, reply, clock, k)
    ensures Drive(w, n, reply, clock, k).calls[n].request == w.calls[n].request
    decreases k
  {
    if k == 0 {
    } else {
      MoveFrame(w, n, reply, clock);
      hide Advanced, Enabled, Next, Ahead;
      var u := Moved(w, n, reply, clock);
      DriveRuns(u, n, reply, clock, k - 1);
      TwoSteps(w, Ticked(w, n, clock).now, n, reply, Moves(u, n, reply, clock, k - 1));
    }
  }

  function Began(w: World, n: nat, q: Request): World {
    WithCall(w, n, Call(q, Claiming, w.now))
  }

  function LoneRun(w: World, n: nat, q: Request, clock: Clock, reply: Reply): seq<Step> {
    [Begin(n, q)] + Moves(Began(w, n, q), n, reply, clock, 6)
  }

  lemma LoneRunDrives(w: World, n: nat, q: Request, clock: Clock, reply: Reply)
    requires Inv(w) && n !in w.calls && WellFormed(q) && Ahead(w.now, Claiming, clock)
    requires reply.Unavailable? || reply.drawn != ""
    ensures Valid(w, LoneRun(w, n, q, clock, reply))
    ensures var v := Began(w, n, q);
            && Inv(v) && Run(w, LoneRun(w, n, q, clock, reply)) == Drive(v, n, reply, clock, 6)
  {
    var v := Began(w, n, q);
    assert Enabled(w, Begin(n, q)) && Next(w, Begin(n, q)) == v;
    hide Inv, Evolves, Enabled, Next, Drive, Ahead, Moves;
    StepKeeps(w, Begin(n, q));
    DriveRuns(v, n, reply, clock, 6);
    var steps := LoneRun(w, n, q, clock, reply);
    assert steps[0] == Begin(n, q) && steps[1..] == Moves(v, n, reply, clock, 6);
  }

  /** From whatever crashes and other calls left behind, one undisturbed call does, in up to six steps, exactly
      what `RetryEnd` says in one: whatever the request, the target store's reply and the clock. */
  lemma LoneRetryAnswers(w: World, n: nat, q: Request, clock: Clock, reply: Reply)
    requires Reachable(w) && n !in w.calls && WellFormed(q) && (reply.Unavailable? || reply.drawn != "")
    requires w.now <= clock.claimed <= clock.recorded <= clock.completed
    ensures Valid(w, LoneRun(w, n, q, clock, reply))
    ensures var u, e := Run(w, LoneRun(w, n, q, clock, reply)), RetryEnd(w, q, clock, reply);
            && n in u.calls && u.calls[n].pc == Finished(e.outcome)
            && u.tables == e.tables && u.targets == e.targets && u.made == e.made
  {
    ReachableOk(w);
    var v := Began(w, n, q);
    assert Ahead(w.now, Claiming, clock);
    LoneRunDrives(w, n, q, clock, reply);
    SameRetry(w, v, q, clock, reply);
    hide Inv, Drive, LoneRun, RetryEnd, Valid, Run;
    ClaimingEnds(v, n, reply, clock, 6);
  }

  lemma SameRetry(w: World, v: World, q: Request, clock: Clock, reply: Reply)
    requires v.tables == w.tables && v.targets == w.targets && v.made == w.made
    ensures RetryEnd(v, q, clock, reply) == RetryEnd(w, q, clock, reply)
  {
  }

  /** From whatever a crash left behind, one undisturbed call with a working target store settles the item, or
      answers with it settled, exactly when: nobody claimed the item for another kind; it is not already
      completed with a kind whose repetitions are refused; and no record of another origin occupies the
      target's place. The clock may go on between its readings. */
  lemma LoneRetryCompletes(w: World, n: nat, q: Request, clock: Clock, drawn: Id)
    requires Reachable(w) && n !in w.calls && WellFormed(q) && drawn != ""
    requires w.now <= clock.claimed <= clock.recorded <= clock.completed
    requires q.item in w.tables.items && w.tables.items[q.item].scope == q.scope
    ensures Valid(w, LoneRun(w, n, q, clock, Served(drawn)))
    ensures var u := Run(w, LoneRun(w, n, q, clock, Served(drawn)));
            && n in u.calls && q.item in u.tables.items
            && (u.calls[n].pc == Finished(Success(u.tables.items[q.item])) <==> Completable(w, q))
            && (Completable(w, q) ==> !u.tables.items[q.item].status.Pending?
                                      && u.tables.items[q.item].kind == Some(q.kind))
  {
    hide *;
    ReachableOk(w);
    LoneRetryAnswers(w, n, q, clock, Served(drawn));
    EndIfCompletable(w, q, clock, drawn);
  }

  lemma EndIfCompletable(w: World, q: Request, clock: Clock, drawn: Id)
    requires Inv(w) && q.item in w.tables.items && w.tables.items[q.item].scope == q.scope
    ensures var e := RetryEnd(w, q, clock, Served(drawn));
            && q.item in e.tables.items
            && (e.outcome == Success(e.tables.items[q.item]) <==> Completable(w, q))
            && (Completable(w, q) ==> !e.tables.items[q.item].status.Pending?
                                      && e.tables.items[q.item].kind == Some(q.kind))
  {
    assert ItemOk(w.tables, w.now, q.item);
    if q.item in w.tables.claims { assert ClaimOk(w.tables, w.now, q.item); }
    hide Inv, MadeFor, PlaceOf, IsItsOwn, ItemValid, ClaimValid;
  }

  /** A target the saga made itself stands in the way of its own item's retry in one case only: a reminder that
      was not yet recorded, and is asked for again with another intent. */
  lemma OwnTargetIsTakenBack(w: World, j: nat, q: Request)
    requires Reachable(w) && j < |w.made| && w.made[j].item == q.item
    requires q.item in w.tables.claims && w.tables.claims[q.item].kind == q.kind
    requires !w.tables.claims[q.item].state.ClaimCompleted?
    ensures q.item in w.tables.items && w.made[j].slot in w.targets
    ensures Completable(w, q) <==>
              (q.kind.Reminder? && w.tables.claims[q.item].state.Claimed? ==>
                 w.targets[w.made[j].slot].intent == q.intent)
  {
    ReachableOk(w);
    assert MadeOk(w, w.made[j]) && ClaimOk(w.tables, w.now, q.item) && ItemOk(w.tables, w.now, q.item);
    hide ItemValid, ClaimValid, Linked;
  }

  /** Where a reminder request looks for its target: at the claim's key, or at its own if nothing is claimed. */
  function ReminderSlot(w: World, q: Request): Slot
    requires q.item in w.tables.items
  {
    PlaceOf(w.tables.items[q.item], q, if q.item in w.tables.claims then w.tables.claims[q.item].key else q.key)
  }

  /** A reminder carries no mark of its item: as long as none was recorded, one that somebody else made under the
      key is taken as the item's target exactly when it was made for the same intent. */
  lemma ReminderAdoptedByIntent(w: World, n: nat, q: Request, clock: Clock, drawn: Id)
    requires Reachable(w) && n !in w.calls && WellFormed(q) && drawn != "" && q.kind.Reminder?
    requires w.now <= clock.claimed <= clock.recorded <= clock.completed
    requires q.item in w.tables.items && w.tables.items[q.item].scope == q.scope
    requires q.item in w.tables.claims ==>
               w.tables.claims[q.item].kind == q.kind && w.tables.claims[q.item].state.Claimed?
    requires ReminderSlot(w, q) in w.targets
    ensures Valid(w, LoneRun(w, n, q, clock, Served(drawn)))
    ensures var u, t := Run(w, LoneRun(w, n, q, clock, Served(drawn))), w.targets[ReminderSlot(w, q)];
            && n in u.calls && q.item in u.tables.items && u.made == w.made
            && (u.calls[n].pc == Finished(Success(u.tables.items[q.item])) <==> t.intent == q.intent)
            && (t.intent == q.intent ==> u.tables.items[q.item].target == Some(t.id))
  {
    hide *;
    LoneRetryAnswers(w, n, q, clock, Served(drawn));
    ReminderEnd(w, q, clock, drawn);
  }

  lemma ReminderEnd(w: World, q: Request, clock: Clock, drawn: Id)
    requires q.kind.Reminder? && q.item in w.tables.items && w.tables.items[q.item].scope == q.scope
    requires q.item in w.tables.claims ==>
               w.tables.claims[q.item].kind == q.kind && w.tables.claims[q.item].state.Claimed?
    requires ReminderSlot(w, q) in w.targets
    ensures var e, t := RetryEnd(w, q, clock, Served(drawn)), w.targets[ReminderSlot(w, q)];
            && q.item in e.tables.items && e.made == w.made
            && (e.outcome == Success(e.tables.items[q.item]) <==> t.intent == q.intent)
            && (t.intent == q.intent ==> e.tables.items[q.item].target == Some(t.id))
  {
  }
}
