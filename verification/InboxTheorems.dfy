/** What the Inbox saga promises over every run, and when a lone retry completes an item. */
module InboxTheorems {
  import opened Basics
  import opened InboxModels
  import opened InboxTables
  import opened InboxSaga
  import opened InboxInvariant
  import opened InboxSafety

  /** At most one external target is ever made for an item, whatever calls of whatever kinds compete and
      wherever they crash; it is of the claim's kind and under the claim's key. */
  lemma OneTargetPerItem(w: World, j: nat, k: nat)
    requires Reachable(w) && j < |w.made| && k < |w.made|
    ensures w.made[j].item == w.made[k].item ==> j == k
    ensures w.made[j].item in w.tables.claims
    ensures var c := w.tables.claims[w.made[j].item];
            && w.made[j].slot.kind == c.kind && c.key == Some(w.made[j].slot.key)
            && w.made[j].slot in w.targets
  {
    ReachableOk(w);
    assert MadeOk(w, w.made[j]);
    assert ClaimOk(w.tables, w.now, w.made[j].item);
  }

  /** An item is settled exactly when its claim is completed, and then with the claim's kind and target. */
  lemma SettledIffCompleted(w: World, id: Id)
    requires Reachable(w) && id in w.tables.items
    ensures !w.tables.items[id].status.Pending? <==> id in w.tables.claims && w.tables.claims[id].state.ClaimCompleted?
    ensures !w.tables.items[id].status.Pending? ==>
              && w.tables.items[id].kind == Some(w.tables.claims[id].kind)
              && w.tables.items[id].target == w.tables.claims[id].target
              && (w.tables.items[id].status.Dismissed? <==> w.tables.claims[id].kind.Dismissal?)
  {
    ReachableOk(w);
    assert ItemOk(w.tables, w.now, id);
  }

  /** What a stored item is: pending and open, or settled with an instant, a kind and, where its kind lives in another
      store, a target; dismissed exactly when it was settled by dismissal. */
  predicate WellKeptItem(i: Item) {
    && i.created <= i.updated
    && (i.status.Pending? ==> i.resolvedAt.None? && i.kind.None? && i.target.None?)
    && (!i.status.Pending? ==>
          && i.resolvedAt.Some? && i.created <= i.resolvedAt.value && i.kind.Some?
          && (i.status.Dismissed? <==> i.kind == Some(Dismissal))
          && (if i.kind == Some(Note) || i.kind == Some(Dismissal) then i.target.None?
              else i.target.Some? && i.target.value != ""))
  }

  /** What a stored claim is: it has a key where its kind lives in another store, and a target once one was made. */
  predicate WellKeptClaim(c: Claim) {
    && c.created <= c.updated
    && (if c.kind.Note? || c.kind.Dismissal? then c.key.None? && c.target.None?
        else && c.key.Some? && c.key.value != ""
             && (!c.state.Claimed? ==> c.target.Some? && c.target.value != ""))
  }

  /** The models' checks accept exactly such rows. */
  lemma ChecksAcceptWellKeptRows(i: Item, c: Claim)
    ensures ItemValid(i) <==> WellKeptItem(i)
    ensures ClaimValid(c) <==> WellKeptClaim(c)
  {
  }

  /** Every stored row is such, and passes the check that its model makes when it is read. */
  lemma RowsPassTheirChecks(w: World)
    requires Reachable(w)
    ensures forall id | id in w.tables.items :: ItemValid(w.tables.items[id]) && WellKeptItem(w.tables.items[id])
    ensures forall id | id in w.tables.claims :: ClaimValid(w.tables.claims[id]) && WellKeptClaim(w.tables.claims[id])
  {
    ReachableOk(w);
    forall id | id in w.tables.items
      ensures ItemValid(w.tables.items[id]) && WellKeptItem(w.tables.items[id])
    {
      assert ItemOk(w.tables, w.now, id);
    }
    forall id | id in w.tables.claims
      ensures ClaimValid(w.tables.claims[id]) && WellKeptClaim(w.tables.claims[id])
    {
      assert ClaimOk(w.tables, w.now, id);
    }
  }

  /** The target an item is resolved to exists in its own store and, reminders aside, its metadata names this
      item in this workspace; a waiting-for also names the item's source, a work log the inbox. */
  lemma SettledTargetIsTheItems(w: World, id: Id)
    requires Reachable(w) && id in w.tables.items
    requires w.tables.items[id].kind.Some? && External(w.tables.items[id].kind.value)
    ensures id in w.tables.claims && w.tables.claims[id].key.Some?
    ensures var i, k := w.tables.items[id], w.tables.items[id].kind.value;
            var slot := SlotOf(i.scope, k, w.tables.claims[id].key.value);
            && slot in w.targets && i.target == Some(w.targets[slot].id)
            && (!k.Reminder? ==> w.targets[slot].scope == i.scope && w.targets[slot].item == Some(id))
            && (k.WaitingFor? ==> w.targets[slot].source == Some(i.source))
            && (k.WorkLog? ==> w.targets[slot].source == Some(INBOX_SOURCE))
  {
    ReachableOk(w);
    assert ItemOk(w.tables, w.now, id);
    assert ClaimOk(w.tables, w.now, id);
    assert Backed(w, id);
  }

  /** A record that already has the claim's id and whose metadata does not say it is this item's target (it names
      another item, is in another workspace, or has another source than the kind asks for) is never adopted: over
      every later run the claim stays where it is, the item stays pending, and nothing is made. */
  lemma ForeignTargetIsNeverAdopted(w: World, steps: seq<Step>, id: Id)
    requires Reachable(w) && Valid(w, steps)
    requires id in w.tables.claims && id in w.tables.items && External(w.tables.claims[id].kind)
    requires ClaimSlot(w.tables.claims[id]) in w.targets
    requires !Bears(w.targets[ClaimSlot(w.tables.claims[id])], w.tables.items[id], w.tables.claims[id].kind)
    ensures var u := Run(w, steps);
            && id in u.tables.claims && u.tables.claims[id].state.Claimed?
            && id in u.tables.items && u.tables.items[id].status.Pending?
            && forall m | m in u.made :: m.item != id
  {
    ReachableOk(w);
    RunKeeps(w, steps);
    StaysForeign(w, Run(w, steps), id);
  }

  lemma StaysForeign(w: World, u: World, id: Id)
    requires Inv(u) && Evolves(w, u)
    requires id in w.tables.claims && id in w.tables.items && External(w.tables.claims[id].kind)
    requires ClaimSlot(w.tables.claims[id]) in w.targets
    requires !Bears(w.targets[ClaimSlot(w.tables.claims[id])], w.tables.items[id], w.tables.claims[id].kind)
    ensures id in u.tables.claims && u.tables.claims[id].state.Claimed?
    ensures id in u.tables.items && u.tables.items[id].status.Pending?
    ensures forall m | m in u.made :: m.item != id
  {
    assert ClaimEvolves(w.tables.claims[id], u.tables.claims[id]);
    assert ItemEvolves(w.tables.items[id], u.tables.items[id]);
    assert ClaimOk(u.tables, u.now, id) && ItemOk(u.tables, u.now, id) && Backed(u, id);
    forall m | m in u.made
      ensures m.item != id
    {
      assert MadeOk(u, m);
    }
  }

  /** Over every run a claim keeps its kind, key and workspace, its state never goes back, a recorded target
      stays, and a settled item never changes again. */
  lemma RowsOnlyMoveForward(w: World, steps: seq<Step>, id: Id)
    requires Reachable(w) && Valid(w, steps)
    ensures id in w.tables.claims ==> id in Run(w, steps).tables.claims
                                      && ClaimEvolves(w.tables.claims[id], Run(w, steps).tables.claims[id])
    ensures id in w.tables.items ==> id in Run(w, steps).tables.items
                                     && ItemEvolves(w.tables.items[id], Run(w, steps).tables.items[id])
  {
    ReachableOk(w);
    RunKeeps(w, steps);
  }

  /** Every way a call can end: with the item settled by its kind; with the claim of a competing kind, or one
      already completed; with a refusal of the target store; or because the workspace has no such item. The
      saga's own conflict and persistence failures never reach a caller. */
  lemma EveryEndingIsExplained(w: World, n: nat)
    requires Reachable(w) && n in w.calls && w.calls[n].pc.Finished?
    ensures var q, t := w.calls[n].request, w.tables;
            match w.calls[n].pc.outcome
            case Success(i) => q.item in t.items && t.items[q.item] == i && i.kind == Some(q.kind) && !i.status.Pending?
            case AlreadyResolved(c) =>
              q.item in t.claims && t.claims[q.item].kind == c.kind
              && (c.kind != q.kind || t.claims[q.item].state.ClaimCompleted?)
            case TargetRefused => External(q.kind)
            case Refused(f) => f.ItemMissing? || f.OtherWorkspace?
  {
    ReachableOk(w);
    assert CallOk(w, w.calls[n]);
  }

  /** What the next step of a call does when another call has settled the item meanwhile. */
  predicate Overtaken(w: World, u: World, n: nat, reply: Reply)
    requires n in w.calls && n in u.calls && w.calls[n].request.item in w.tables.claims
    requires w.calls[n].request.item in w.tables.items
  {
    var q := w.calls[n].request;
    && u.tables == w.tables && u.targets == w.targets && u.made == w.made
    && match w.calls[n].pc
       case Fetching => u.calls[n].pc == Finished(AlreadyResolved(w.tables.claims[q.item]))
       case Rereading(_) => u.calls[n].pc == Completing
       case Creating(_, _) => u.calls[n].pc.Recording? || u.calls[n].pc == Finished(TargetRefused)
       case Recording(_) => u.calls[n].pc == Completing
       case Completing => u.calls[n].pc == Finished(Success(w.tables.items[q.item]))
       case _ => true
  }

  /** A call that is overtaken changes nothing any more. If it had read the item before, it goes on and ends with
      success; if not, it is told of the claim. */
  lemma OvertakenChangesNothing(w: World, n: nat, at: Time, reply: Reply)
    requires Reachable(w) && Enabled(w, Advance(n, at, reply)) && !w.calls[n].pc.Claiming? && !w.calls[n].pc.Finished?
    requires w.calls[n].request.item in w.tables.claims
    requires w.tables.claims[w.calls[n].request.item].state.ClaimCompleted?
    ensures w.calls[n].request.item in w.tables.items
    ensures Overtaken(w, Next(w, Advance(n, at, reply)), n, reply)
  {
    ReachableOk(w);
    var q := w.calls[n].request;
    assert CallOk(w, w.calls[n]) && ClaimOk(w.tables, w.now, q.item) && ItemOk(w.tables, w.now, q.item) && Backed(w, q.item);
    hide Inv, Reachable, ItemValid, ClaimValid;
  }

  /** A target that another call has recorded meanwhile is recorded once: the claim stays as it is. */
  lemma RecordedOnce(w: World, n: nat, at: Time, reply: Reply)
    requires Reachable(w) && Enabled(w, Advance(n, at, reply)) && w.calls[n].pc.Recording?
    requires w.calls[n].request.item in w.tables.claims
    requires !w.tables.claims[w.calls[n].request.item].state.Claimed?
    ensures w.tables.claims[w.calls[n].request.item].target == Some(w.calls[n].pc.target)
    ensures var u := Next(w, Advance(n, at, reply)); u.tables == w.tables && u.calls[n].pc == Completing
  {
    ReachableOk(w);
    var q := w.calls[n].request;
    assert CallOk(w, w.calls[n]) && ClaimOk(w.tables, w.now, q.item) && Backed(w, q.item);
    hide Inv, Reachable, ItemValid, ClaimValid;
  }
}
