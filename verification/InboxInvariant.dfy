/** What every step of the Inbox saga keeps, and the order in which its rows can change. */
module InboxInvariant {
  import opened Basics
  import opened InboxModels
  import opened InboxTables
  import opened InboxSaga

  // ---------- the rows ----------

  /** An item is settled exactly when its claim is completed, with the claim's kind and target. */
  predicate Linked(t: Tables, id: Id)
    requires id in t.items
  {
    && (t.items[id].status.Pending? <==> !(id in t.claims && t.claims[id].state.ClaimCompleted?))
    && (!t.items[id].status.Pending? ==> SettledAs(t.items[id], t.claims[id]))
  }

  predicate ItemOk(t: Tables, now: Time, id: Id)
    requires id in t.items
  {
    t.items[id].id == id && ItemValid(t.items[id]) && t.items[id].updated <= now && Linked(t, id)
  }

  predicate ClaimOk(t: Tables, now: Time, id: Id)
    requires id in t.claims
  {
    var c := t.claims[id];
    && c.item == id && id in t.items && t.items[id].scope == c.scope
    && ClaimValid(c) && c.updated <= now
  }

  ghost predicate TablesOk(t: Tables, now: Time) {
    && (forall id | id in t.items :: ItemOk(t, now, id))
    && (forall id | id in t.claims :: ClaimOk(t, now, id))
  }

  predicate SameItem(i: Item, j: Item) {
    i.id == j.id && i.scope == j.scope && i.source == j.source && i.created == j.created
  }

  predicate ItemEvolves(i: Item, j: Item) {
    SameItem(i, j) && (!i.status.Pending? ==> j == i)
  }

  /** A claim keeps its kind and key for good, its state only moves forward, its target stays once recorded. */
  predicate ClaimEvolves(c: Claim, d: Claim) {
    && d.item == c.item && d.scope == c.scope && d.kind == c.kind && d.key == c.key && d.created == c.created
    && StateRank(c.state) <= StateRank(d.state)
    && (!c.state.Claimed? ==> d.target == c.target)
    && (c.state.ClaimCompleted? ==> d == c)
  }

  ghost predicate TablesEvolve(t: Tables, u: Tables) {
    && (forall id | id in t.items :: id in u.items && ItemEvolves(t.items[id], u.items[id]))
    && (forall id | id in t.claims :: id in u.claims && ClaimEvolves(t.claims[id], u.claims[id]))
  }

  lemma ClaimKeeps(t: Tables, q: Request, at: Time, now: Time)
    requires TablesOk(t, now) && WellFormed(q) && at <= now
    ensures var (u, a) := ClaimResolution(t, q, at);
            && TablesOk(u, now) && TablesEvolve(t, u) && u.items == t.items
            && a != Bad(PersistenceFailure) && a != Bad(NoRecoverableClaim)
            && (a.Good? <==> q.item in t.items && t.items[q.item].scope == q.scope)
            && (a.Good? ==> q.item in u.claims && u.claims[q.item] == a.value && a.value.scope == q.scope)
  {
    if q.item in t.items { assert ItemOk(t, now, q.item); }
    if q.item in t.claims { assert ClaimOk(t, now, q.item); }
    var (u, a) := ClaimResolution(t, q, at);
    forall id | id in u.items
      ensures ItemOk(u, now, id)
    {
      assert ItemOk(t, now, id);
    }
    forall id | id in u.claims
      ensures ClaimOk(u, now, id)
    {
      if id in t.claims { assert ClaimOk(t, now, id); }
    }
  }

  /** The rows of one item change and stay sound; every other row is as it was. */
  ghost predicate OneRow(t: Tables, u: Tables, now: Time, id: Id) {
    && id in t.items && id in t.claims && id in u.items && id in u.claims
    && u.items == t.items[id := u.items[id]] && u.claims == t.claims[id := u.claims[id]]
    && ItemOk(u, now, id) && ClaimOk(u, now, id)
    && ItemEvolves(t.items[id], u.items[id]) && ClaimEvolves(t.claims[id], u.claims[id])
  }

  lemma OneRowKeeps(t: Tables, u: Tables, now: Time, id: Id)
    requires TablesOk(t, now) && OneRow(t, u, now, id)
    ensures TablesOk(u, now) && TablesEvolve(t, u)
  {
    forall j | j in u.items
      ensures ItemOk(u, now, j)
    {
      assert ItemOk(t, now, j);
    }
    forall j | j in u.claims
      ensures ClaimOk(u, now, j)
    {
      assert ClaimOk(t, now, j);
    }
  }

  lemma RecordKeeps(t: Tables, q: Request, target: Id, at: Time, now: Time)
    requires TablesOk(t, now) && at <= now && target != ""
    requires q.item in t.claims && External(q.kind) && t.claims[q.item].created <= at
    ensures var (u, a) := RecordTargetCreated(t, q, target, at);
            && TablesOk(u, now) && TablesEvolve(t, u) && u.items == t.items && a != Bad(PersistenceFailure)
            && (u == t || OneRow(t, u, now, q.item))
  {
    assert ClaimOk(t, now, q.item) && ItemOk(t, now, q.item);
    var (u, a) := RecordTargetCreated(t, q, target, at);
    if u != t {
      OneRowKeeps(t, u, now, q.item);
    }
  }

  lemma CompleteShape(t: Tables, q: Request, at: Time, now: Time)
    requires TablesOk(t, now) && at <= now
    requires q.item in t.claims && t.claims[q.item].created <= at
    requires q.item in t.items && t.items[q.item].created <= at
    ensures var (u, a) := CompleteResolution(t, q, at);
            && a != Bad(PersistenceFailure)
            && (a.Bad? ==> u == t)
            && (a.Good? ==> OneRow(t, u, now, q.item) && u.items[q.item] == a.value
                            && !a.value.status.Pending? && a.value.kind == Some(q.kind))
  {
    assert ClaimOk(t, now, q.item) && ItemOk(t, now, q.item);
  }

  lemma CompleteKeeps(t: Tables, q: Request, at: Time, now: Time)
    requires TablesOk(t, now) && at <= now
    requires q.item in t.claims && t.claims[q.item].created <= at
    requires q.item in t.items && t.items[q.item].created <= at
    ensures var (u, a) := CompleteResolution(t, q, at);
            && TablesOk(u, now) && TablesEvolve(t, u) && a != Bad(PersistenceFailure)
            && (a.Good? ==> q.item in u.items && u.items[q.item] == a.value
                            && !a.value.status.Pending? && a.value.kind == Some(q.kind))
  {
    CompleteShape(t, q, at, now);
    hide CompleteResolution, ItemOk, ClaimOk;
    var (u, a) := CompleteResolution(t, q, at);
    if a.Good? {
      OneRowKeeps(t, u, now, q.item);
    }
  }

  // ---------- the targets ----------

  /** The target's metadata says it comes from this item; a reminder carries no such mark. */
  predicate Bears(t: Target, i: Item, kind: Kind) {
    kind.Reminder? || Adoptable(t, i, kind, "")
  }

  function ClaimSlot(c: Claim): Slot {
    SlotOf(c.scope, c.kind, KeyOf(c))
  }

  /** A recorded target exists under the recorded id and belongs to the item. */
  predicate Backed(w: World, id: Id)
    requires id in w.tables.claims
  {
    var c := w.tables.claims[id];
    External(c.kind) && !c.state.Claimed? ==>
      && ClaimSlot(c) in w.targets && id in w.tables.items
      && c.target == Some(w.targets[ClaimSlot(c)].id)
      && Bears(w.targets[ClaimSlot(c)], w.tables.items[id], c.kind)
  }

  /** A target the saga made is where its item's claim points. */
  predicate MadeOk(w: World, m: Made) {
    && m.item in w.tables.claims && m.item in w.tables.items
    && var c := w.tables.claims[m.item];
    && External(c.kind) && m.slot == ClaimSlot(c)
    && m.slot in w.targets && Bears(w.targets[m.slot], w.tables.items[m.item], c.kind)
  }

  /** Ids of targets are never empty. */
  ghost predicate TargetsOk(w: World) {
    forall s | s in w.targets :: w.targets[s].id != ""
  }

  ghost predicate MadeOnce(w: World) {
    && (forall j | 0 <= j < |w.made| :: MadeOk(w, w.made[j]))
    && (forall j, k | 0 <= j < k < |w.made| :: w.made[j].item != w.made[k].item)
  }

  // ---------- the calls ----------

  /** The call owns the item's claim: same workspace, same kind, and older than the call's clock reading. */
  predicate Holds(w: World, c: Call) {
    var q := c.request;
    && q.item in w.tables.items && q.item in w.tables.claims
    && w.tables.items[q.item].scope == q.scope && w.tables.claims[q.item].scope == q.scope
    && w.tables.claims[q.item].kind == q.kind
    && w.tables.items[q.item].created <= c.since && w.tables.claims[q.item].created <= c.since
  }

  predicate PcOk(w: World, c: Call) {
    var q := c.request;
    match c.pc
    case Claiming => true
    case Fetching => Holds(w, c)
    case Rereading(i) => Holds(w, c) && SameItem(i, w.tables.items[q.item])
    case Creating(i, d) =>
      && Holds(w, c) && SameItem(i, w.tables.items[q.item]) && External(q.kind)
      && d.key == w.tables.claims[q.item].key
    case Recording(target) =>
      && Holds(w, c) && External(q.kind) && target != ""
      && var slot := ClaimSlot(w.tables.claims[q.item]);
      && slot in w.targets && w.targets[slot].id == target
      && Bears(w.targets[slot], w.tables.items[q.item], q.kind)
    case Completing => Holds(w, c) && (External(q.kind) ==> !w.tables.claims[q.item].state.Claimed?)
    case Finished(Success(i)) =>
      && q.item in w.tables.items && w.tables.items[q.item] == i
      && !i.status.Pending? && i.kind == Some(q.kind)
    case Finished(AlreadyResolved(d)) =>
      && q.item in w.tables.claims && w.tables.claims[q.item].kind == d.kind
      && (d.kind != q.kind || w.tables.claims[q.item].state.ClaimCompleted?)
    case Finished(Refused(f)) => f.ItemMissing? || f.OtherWorkspace?
    case Finished(TargetRefused) => External(q.kind)
  }

  predicate CallOk(w: World, c: Call) {
    WellFormed(c.request) && c.since <= w.now && PcOk(w, c)
  }

  ghost predicate CallsOk(w: World) {
    forall n | n in w.calls :: CallOk(w, w.calls[n])
  }

  ghost predicate BackedAll(w: World) {
    forall id | id in w.tables.claims :: Backed(w, id)
  }

  ghost predicate Inv(w: World) {
    TablesOk(w.tables, w.now) && TargetsOk(w) && BackedAll(w) && MadeOnce(w) && CallsOk(w)
  }

  ghost predicate Evolves(w: World, u: World) {
    && w.now <= u.now && TablesEvolve(w.tables, u.tables)
    && (forall s | s in w.targets :: s in u.targets && u.targets[s] == w.targets[s])
    && w.made <= u.made
  }

  // ---------- what lasts ----------

  lemma CallLasts(w: World, u: World, c: Call)
    requires Evolves(w, u) && CallOk(w, c)
    ensures CallOk(u, c)
  {
  }

  lemma BackedLasts(w: World, u: World, id: Id)
    requires Evolves(w, u) && id in w.tables.claims && id in u.tables.claims && Backed(w, id)
    requires !w.tables.claims[id].state.Claimed? || u.tables.claims[id] == w.tables.claims[id]
    ensures Backed(u, id)
  {
  }

  lemma MadeLasts(w: World, u: World)
    requires Evolves(w, u) && MadeOnce(w) && u.made == w.made
    ensures MadeOnce(u)
  {
    forall j | 0 <= j < |u.made|
      ensures MadeOk(u, u.made[j])
    {
      assert MadeOk(w, w.made[j]);
    }
  }

  lemma EvolvesOn(w: World, v: World, u: World)
    requires Evolves(w, v) && Evolves(v, u)
    ensures Evolves(w, u)
  {
    forall id | id in w.tables.items
      ensures id in u.tables.items && ItemEvolves(w.tables.items[id], u.tables.items[id])
    {
      assert ItemEvolves(w.tables.items[id], v.tables.items[id]);
    }
    forall id | id in w.tables.claims
      ensures id in u.tables.claims && ClaimEvolves(w.tables.claims[id], u.tables.claims[id])
    {
      assert ClaimEvolves(w.tables.claims[id], v.tables.claims[id]);
    }
  }
}
