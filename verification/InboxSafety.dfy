/** Every step of the Inbox saga keeps the invariant and only moves rows forward. */
module InboxSafety {
  import opened Basics
  import opened InboxModels
  import opened InboxTables
  import opened InboxSaga
  import opened InboxInvariant

  /** The part of the invariant that does not look at the calls. */
  ghost predicate StoreOk(w: World) {
    TablesOk(w.tables, w.now) && TargetsOk(w) && BackedAll(w) && MadeOnce(w)
  }

  lemma CallsLast(w: World, u: World)
    requires Evolves(w, u) && CallsOk(w) && u.calls == w.calls
    ensures CallsOk(u)
  {
    hide Evolves, CallOk;
    forall n | n in u.calls
      ensures CallOk(u, u.calls[n])
    {
      CallLasts(w, u, w.calls[n]);
    }
  }

  lemma GotoKeeps(w: World, v: World, n: nat, pc: Pc)
    requires Inv(w) && Evolves(w, v) && v.calls == w.calls && v.now == w.now && n in w.calls && StoreOk(v)
    requires PcOk(v, w.calls[n].(pc := pc, since := v.now))
    ensures Inv(Goto(v, n, pc)) && Evolves(w, Goto(v, n, pc))
  {
    CallsLast(w, v);
    var u := Goto(v, n, pc);
    assert Evolves(v, u);
    assert MadeOnce(u) by { MadeLasts(v, u); }
    forall m | m in u.calls
      ensures CallOk(u, u.calls[m])
    {
      if m == n {
        assert CallOk(w, w.calls[n]);
        Unmoved(v, u, w.calls[n].(pc := pc, since := v.now));
      } else {
        CallLasts(v, u, v.calls[m]);
      }
    }
    assert BackedAll(u) by {
      forall id | id in u.tables.claims
        ensures Backed(u, id)
      {
        assert Backed(v, id);
      }
    }
  }

  lemma Unmoved(v: World, u: World, c: Call)
    requires u.tables == v.tables && u.targets == v.targets && PcOk(v, c)
    ensures PcOk(u, c)
  {
  }

  /** A transaction on the tables keeps the store sound when it does and every claim it touches stays backed. */
  lemma TablesChange(w: World, t: Tables)
    requires StoreOk(w) && TablesOk(t, w.now) && TablesEvolve(w.tables, t)
    requires forall id | id in t.claims ::
               Backed(w.(tables := t), id) || (id in w.tables.claims && t.claims[id] == w.tables.claims[id])
    ensures StoreOk(w.(tables := t)) && Evolves(w, w.(tables := t))
  {
    var v := w.(tables := t);
    MadeLasts(w, v);
    forall id | id in t.claims
      ensures Backed(v, id)
    {
      if !Backed(v, id) {
        assert Backed(w, id);
        BackedLasts(w, v, id);
      }
    }
  }

  // ---------- the steps of a call ----------

  lemma ClaimStepKeeps(w: World, n: nat, at: Time)
    requires Inv(w) && n in w.calls && at <= w.now
    ensures Inv(ClaimStep(w, n, at)) && Evolves(w, ClaimStep(w, n, at))
  {
    assert CallOk(w, w.calls[n]);
    var q := w.calls[n].request;
    ClaimKeeps(w.tables, q, at, w.now);
    var (t, a) := ClaimResolution(w.tables, q, at);
    NewClaimBacked(w, q, at);
    TablesChange(w, t);
    ClaimPc(w, q, at, n);
    GotoKeeps(w, w.(tables := t), n, AfterClaim(t, q, a));
  }

  lemma NewClaimBacked(w: World, q: Request, at: Time)
    requires WellFormed(q)
    ensures var t := ClaimResolution(w.tables, q, at).0;
            forall id | id in t.claims ::
              Backed(w.(tables := t), id) || (id in w.tables.claims && t.claims[id] == w.tables.claims[id])
  {
  }

  lemma ClaimPc(w: World, q: Request, at: Time, n: nat)
    requires TablesOk(w.tables, w.now) && WellFormed(q) && at <= w.now
    ensures var (t, a) := ClaimResolution(w.tables, q, at);
            PcOk(w.(tables := t), Call(q, AfterClaim(t, q, a), w.now))
  {
    ClaimKeeps(w.tables, q, at, w.now);
    var (t, a) := ClaimResolution(w.tables, q, at);
    if a.Good? {
      assert ItemOk(t, w.now, q.item) && ClaimOk(t, w.now, q.item);
    }
  }

  lemma FetchStepKeeps(w: World, n: nat)
    requires Inv(w) && n in w.calls && w.calls[n].pc.Fetching?
    ensures Inv(FetchStep(w, n)) && Evolves(w, FetchStep(w, n))
  {
    assert CallOk(w, w.calls[n]);
    var q := w.calls[n].request;
    assert ItemOk(w.tables, w.now, q.item);
    GotoKeeps(w, w, n, FetchStep(w, n).calls[n].pc);
  }

  lemma RereadStepKeeps(w: World, n: nat)
    requires Inv(w) && n in w.calls && w.calls[n].pc.Rereading?
    ensures Inv(RereadStep(w, n)) && Evolves(w, RereadStep(w, n))
  {
    assert CallOk(w, w.calls[n]);
    GotoKeeps(w, w, n, RereadStep(w, n).calls[n].pc);
  }

  lemma RecordStepKeeps(w: World, n: nat, at: Time)
    requires Inv(w) && n in w.calls && w.calls[n].pc.Recording? && w.calls[n].since <= at <= w.now
    ensures Inv(RecordStep(w, n, at)) && Evolves(w, RecordStep(w, n, at))
  {
    var c := w.calls[n];
    assert CallOk(w, c);
    RecordKeeps(w.tables, c.request, c.pc.target, at, w.now);
    RecordBacks(w, c, at);
    var t := RecordTargetCreated(w.tables, c.request, c.pc.target, at).0;
    TablesChange(w, t);
    RecordPc(w, c, at);
    GotoKeeps(w, w.(tables := t), n, RecordStep(w, n, at).calls[n].pc);
  }

  /** What is recorded is the target in the claim's slot. */
  lemma RecordBacks(w: World, c: Call, at: Time)
    requires CallOk(w, c) && c.pc.Recording? && TablesOk(w.tables, w.now)
    ensures var t := RecordTargetCreated(w.tables, c.request, c.pc.target, at).0;
            forall id | id in t.claims ::
              Backed(w.(tables := t), id) || (id in w.tables.claims && t.claims[id] == w.tables.claims[id])
  {
    hide ClaimValid, ItemValid;
    assert ClaimOk(w.tables, w.now, c.request.item);
  }

  lemma RecordPc(w: World, c: Call, at: Time)
    requires TablesOk(w.tables, w.now) && BackedAll(w)
    requires CallOk(w, c) && c.pc.Recording? && c.since <= at <= w.now
    ensures var (t, a) := RecordTargetCreated(w.tables, c.request, c.pc.target, at);
            PcOk(w.(tables := t),
                 c.(pc := if a.Good? then Completing else Refusal(t, c.request, a.failure), since := w.now))
  {
    assert Backed(w, c.request.item) && ClaimOk(w.tables, w.now, c.request.item);
    hide ItemValid, Bears;
  }

  function CompletedPc(t: Tables, q: Request, a: Answer<Item>): Pc {
    if a.Good? then Finished(Success(a.value)) else Refusal(t, q, a.failure)
  }

  lemma CompletePc(w: World, c: Call, at: Time)
    requires TablesOk(w.tables, w.now) && CallOk(w, c) && c.pc.Completing? && c.since <= at <= w.now
    ensures var (t, a) := CompleteResolution(w.tables, c.request, at);
            PcOk(w.(tables := t), c.(pc := CompletedPc(t, c.request, a), since := w.now))
    ensures TablesOk(CompleteResolution(w.tables, c.request, at).0, w.now)
    ensures TablesEvolve(w.tables, CompleteResolution(w.tables, c.request, at).0)
  {
    CompleteKeeps(w.tables, c.request, at, w.now);
    CompletionGoesThrough(w, c, at);
    hide TablesEvolve, TablesOk, CompleteResolution, Refusal;
  }

  /** A call about to complete completes: its claim is its own, and item and claim belong together. */
  lemma CompletionGoesThrough(w: World, c: Call, at: Time)
    requires TablesOk(w.tables, w.now) && CallOk(w, c) && c.pc.Completing? && c.since <= at <= w.now
    ensures CompleteResolution(w.tables, c.request, at).1.Good?
  {
    assert ClaimOk(w.tables, w.now, c.request.item) && ItemOk(w.tables, w.now, c.request.item);
  }

  lemma CompleteStepKeeps(w: World, n: nat, at: Time)
    requires Inv(w) && n in w.calls && w.calls[n].pc.Completing? && w.calls[n].since <= at <= w.now
    ensures Inv(CompleteStep(w, n, at)) && Evolves(w, CompleteStep(w, n, at))
  {
    var c := w.calls[n];
    assert CallOk(w, c);
    hide CallOk, PcOk, CompleteResolution, CompletedPc, TablesEvolve, TablesOk, Backed, Evolves;
    CompletePc(w, c, at);
    CompleteBacks(w, c, at);
    var (t, a) := CompleteResolution(w.tables, c.request, at);
    TablesChange(w, t);
    GotoKeeps(w, w.(tables := t), n, CompletedPc(t, c.request, a));
    SamePc(w, n, at);
  }

  lemma SamePc(w: World, n: nat, at: Time)
    requires n in w.calls
    ensures var (t, a) := CompleteResolution(w.tables, w.calls[n].request, at);
            CompleteStep(w, n, at) == Goto(w.(tables := t), n, CompletedPc(t, w.calls[n].request, a))
  {
  }

  lemma CompleteBacks(w: World, c: Call, at: Time)
    requires CallOk(w, c) && c.pc.Completing? && TablesOk(w.tables, w.now) && BackedAll(w)
    ensures var t := CompleteResolution(w.tables, c.request, at).0;
            forall id | id in t.claims ::
              Backed(w.(tables := t), id) || (id in w.tables.claims && t.claims[id] == w.tables.claims[id])
  {
    hide ClaimValid, ItemValid;
    assert Backed(w, c.request.item);
  }

  // ---------- the request to the target store ----------

  /** An empty slot is filled, an occupied one is left as it is. */
  function AfterRequest(w: World, c: Call, reply: Reply): World
    requires c.pc.Creating?
  {
    var slot := SlotOf(c.pc.item.scope, c.request.kind, KeyOf(c.pc.claim));
    if reply.Unavailable? || slot in w.targets then w
    else
      w.(targets := w.targets[slot :=
           Stamped(c.pc.item, c.request.kind, KeyOf(c.pc.claim), reply.drawn, c.request.intent)],
         made := w.made + [Made(c.pc.item.id, slot)])
  }

  /** The slot the call asks for is the one its item's claim points to. */
  lemma AsksForItsSlot(w: World, c: Call)
    requires CallOk(w, c) && c.pc.Creating? && TablesOk(w.tables, w.now)
    ensures c.request.item in w.tables.claims && c.pc.item.id == c.request.item
    ensures SlotOf(c.pc.item.scope, c.request.kind, KeyOf(c.pc.claim)) == ClaimSlot(w.tables.claims[c.request.item])
    ensures KeyOf(c.pc.claim) != ""
  {
    assert ClaimOk(w.tables, w.now, c.request.item) && ItemOk(w.tables, w.now, c.request.item);
  }

  lemma RequestKeeps(w: World, c: Call, reply: Reply)
    requires Inv(w) && CallOk(w, c) && c.pc.Creating? && (reply.Unavailable? || reply.drawn != "")
    ensures StoreOk(AfterRequest(w, c, reply)) && Evolves(w, AfterRequest(w, c, reply))
  {
    AsksForItsSlot(w, c);
    var slot := SlotOf(c.pc.item.scope, c.request.kind, KeyOf(c.pc.claim));
    if !reply.Unavailable? && slot !in w.targets {
      Inserted(w, c, reply.drawn);
    }
  }

  lemma Inserted(w: World, c: Call, drawn: Id)
    requires Inv(w) && CallOk(w, c) && c.pc.Creating? && drawn != ""
    requires SlotOf(c.pc.item.scope, c.request.kind, KeyOf(c.pc.claim)) !in w.targets
    ensures StoreOk(AfterRequest(w, c, Served(drawn))) && Evolves(w, AfterRequest(w, c, Served(drawn)))
  {
    AsksForItsSlot(w, c);
    hide TablesOk, ItemValid, ClaimValid;
    var v := AfterRequest(w, c, Served(drawn));
    assert Evolves(w, v);
    forall id | id in v.tables.claims
      ensures Backed(v, id)
    {
      assert Backed(w, id);
    }
    forall j | 0 <= j < |v.made|
      ensures MadeOk(v, v.made[j])
    {
      if j < |w.made| { assert MadeOk(w, w.made[j]); }
    }
    forall j, k | 0 <= j < k < |v.made|
      ensures v.made[j].item != v.made[k].item
    {
      assert MadeOk(w, w.made[j]);
    }
  }

  lemma CreateStepKeeps(w: World, n: nat, reply: Reply)
    requires Inv(w) && n in w.calls && w.calls[n].pc.Creating? && (reply.Unavailable? || reply.drawn != "")
    ensures Inv(CreateStep(w, n, reply)) && Evolves(w, CreateStep(w, n, reply))
  {
    var c := w.calls[n];
    assert CallOk(w, c);
    RequestKeeps(w, c, reply);
    CreatePc(w, c, n, reply);
    GotoKeeps(w, AfterRequest(w, c, reply), n, CreateStep(w, n, reply).calls[n].pc);
  }

  lemma CreatePc(w: World, c: Call, n: nat, reply: Reply)
    requires Inv(w) && n in w.calls && c == w.calls[n]
    requires CallOk(w, c) && c.pc.Creating? && (reply.Unavailable? || reply.drawn != "")
    ensures var u := CreateStep(w, n, reply);
            n in u.calls && u == Goto(AfterRequest(w, c, reply), n, u.calls[n].pc)
            && PcOk(AfterRequest(w, c, reply), u.calls[n])
  {
    AsksForItsSlot(w, c);
    hide TablesOk, ItemValid, ClaimValid, BackedAll, MadeOnce, CallsOk;
  }

  // ---------- every step ----------

  lemma AdvanceKeeps(w: World, n: nat, at: Time, reply: Reply)
    requires Inv(w) && Enabled(w, Advance(n, at, reply))
    ensures Inv(Advanced(w, n, at, reply)) && Evolves(w, Advanced(w, n, at, reply))
  {
    hide Inv, Evolves, ClaimStep, FetchStep, RereadStep, CreateStep, RecordStep, CompleteStep;
    match w.calls[n].pc
    case Claiming => ClaimStepKeeps(w, n, at);
    case Fetching => FetchStepKeeps(w, n);
    case Rereading(_) => RereadStepKeeps(w, n);
    case Creating(_, _) => CreateStepKeeps(w, n, reply);
    case Recording(_) => RecordStepKeeps(w, n, at);
    case Completing => CompleteStepKeeps(w, n, at);
    case Finished(_) => Still(w);
  }

  lemma Still(w: World)
    ensures Evolves(w, w)
  {
  }

  lemma CaptureKeeps(w: World, id: Id, scope: Scope, source: string)
    requires Inv(w) && id !in w.tables.items && id !in w.tables.claims
    ensures Inv(Captured(w, id, scope, source)) && Evolves(w, Captured(w, id, scope, source))
  {
    var u := Captured(w, id, scope, source);
    assert TablesOk(u.tables, u.now) by {
      forall j | j in u.tables.items
        ensures ItemOk(u.tables, u.now, j)
      {
        if j != id { assert ItemOk(w.tables, w.now, j); }
      }
      forall j | j in u.tables.claims
        ensures ClaimOk(u.tables, u.now, j)
      {
        assert ClaimOk(w.tables, w.now, j);
      }
    }
    hide ItemOk, ClaimOk, Backed, CallsOk, MadeOnce;
    TablesChange(w, u.tables);
    CallsLast(w, u);
  }

  lemma SameTables(w: World, u: World)
    requires Inv(w) && u.tables == w.tables && w.now <= u.now && u.made == w.made && CallsOk(u) && TargetsOk(u)
    requires forall s | s in w.targets :: s in u.targets && u.targets[s] == w.targets[s]
    ensures Inv(u) && Evolves(w, u)
  {
    MadeLasts(w, u);
    forall id | id in u.tables.claims
      ensures Backed(u, id)
    {
      assert Backed(w, id);
    }
    forall id | id in u.tables.items
      ensures ItemOk(u.tables, u.now, id)
    {
      assert ItemOk(w.tables, w.now, id);
    }
    forall id | id in u.tables.claims
      ensures ClaimOk(u.tables, u.now, id)
    {
      assert ClaimOk(w.tables, w.now, id);
    }
  }

  lemma OtherStepKeeps(w: World, s: Step)
    requires Inv(w) && Enabled(w, s) && !s.Advance? && !s.Capture?
    ensures Inv(Next(w, s)) && Evolves(w, Next(w, s))
  {
    var u := Next(w, s);
    var v := u.(calls := w.calls);
    hide TablesOk, BackedAll, MadeOnce;
    CallsLast(w, v);
    forall n | n in u.calls
      ensures CallOk(u, u.calls[n])
    {
      if n in w.calls { Unmoved(v, u, u.calls[n]); }
    }
    SameTables(w, u);
  }

  /** No step breaks the invariant or moves a row backwards. */
  lemma StepKeeps(w: World, s: Step)
    requires Inv(w) && Enabled(w, s)
    ensures Inv(Next(w, s)) && Evolves(w, Next(w, s))
  {
    hide Inv, Evolves, Advanced, Captured;
    match s
    case Advance(n, at, reply) => AdvanceKeeps(w, n, at, reply);
    case Capture(id, scope, source) => CaptureKeeps(w, id, scope, source);
    case _ => OtherStepKeeps(w, s);
  }

  lemma {:induction false} RunKeeps(w: World, steps: seq<Step>)
    requires Inv(w) && Valid(w, steps)
    ensures Inv(Run(w, steps)) && Evolves(w, Run(w, steps))
    decreases |steps|
  {
    hide Inv, Evolves, Next, Enabled;
    if steps == [] {
      Still(w);
    } else {
      StepKeeps(w, steps[0]);
      RunKeeps(Next(w, steps[0]), steps[1..]);
      EvolvesOn(w, Next(w, steps[0]), Run(w, steps));
    }
  }

  lemma ReachableOk(w: World)
    requires Reachable(w)
    ensures Inv(w)
  {
    var steps: seq<Step> :| Valid(EMPTY_WORLD, steps) && Run(EMPTY_WORLD, steps) == w;
    assert Inv(EMPTY_WORLD);
    hide Inv, Evolves;
    RunKeeps(EMPTY_WORLD, steps);
  }
}
