/** The two Inbox tables and the three transactions of the saga on them. Each transaction is a method on the
    stored rows, proved equal to a function on table values that the saga proofs reason about. */
module InboxTables {
  import opened Basics
  import opened InboxModels

  datatype Tables = Tables(items: map<Id, Item>, claims: map<Id, Claim>)

  function NewClaim(q: Request, now: Time): Claim {
    Claim(q.item, q.scope, q.kind, q.key, Reserved(q), Claimed, now, now, 1)
  }

  /** `claim_resolution`: the first caller's claim is the one every caller gets back. */
  function ClaimResolution(t: Tables, q: Request, now: Time): (r: (Tables, Answer<Claim>)) {
    if q.item !in t.items then (t, Bad(ItemMissing))
    else if t.items[q.item].scope != q.scope then (t, Bad(OtherWorkspace))
    else if q.item in t.claims then
      (t, if t.claims[q.item].scope != q.scope then Bad(OtherWorkspace) else Good(t.claims[q.item]))
    else if !t.items[q.item].status.Pending? then (t, Bad(NoRecoverableClaim))
    else if !ClaimValid(NewClaim(q, now)) then (t, Bad(PersistenceFailure))
    else (t.(claims := t.claims[q.item := NewClaim(q, now)]), Good(NewClaim(q, now)))
  }

  function Recorded(c: Claim, target: Id, now: Time): Claim {
    c.(target := Some(target), state := TargetCreated, updated := now, revision := c.revision + 1)
  }

  /** `record_target_created`: the row is validated only after its transaction has committed. */
  function RecordTargetCreated(t: Tables, q: Request, target: Id, now: Time): (Tables, Answer<Claim>) {
    if q.item !in t.claims then (t, Bad(ClaimMissing))
    else if t.claims[q.item].scope != q.scope then (t, Bad(OtherWorkspace))
    else
      var c := t.claims[q.item];
      if c.kind != q.kind then (t, Bad(ClaimConflict))
      else if !c.state.Claimed? then (t, if c.target == Some(target) then Good(c) else Bad(ClaimConflict))
      else
        (t.(claims := t.claims[q.item := Recorded(c, target, now)]),
         if ClaimValid(Recorded(c, target, now)) then Good(Recorded(c, target, now)) else Bad(PersistenceFailure))
  }

  function FinalStatus(k: Kind): Status {
    if k.Dismissal? then Dismissed else Resolved
  }

  function Settled(i: Item, c: Claim, now: Time): Item {
    i.(status := FinalStatus(c.kind), updated := now, resolvedAt := Some(now), kind := Some(c.kind),
       target := c.target, revision := i.revision + 1)
  }

  function Closed(c: Claim, now: Time): Claim {
    if c.state.ClaimCompleted? then c
    else c.(state := ClaimCompleted, updated := now, revision := c.revision + 1)
  }

  predicate SettledAs(i: Item, c: Claim) {
    i.status == FinalStatus(c.kind) && i.kind == Some(c.kind) && i.target == c.target
  }

  /** `complete_resolution`: item and claim are completed together. */
  function CompleteResolution(t: Tables, q: Request, now: Time): (Tables, Answer<Item>) {
    if q.item !in t.items then (t, Bad(ItemMissing))
    else if t.items[q.item].scope != q.scope then (t, Bad(OtherWorkspace))
    else if q.item !in t.claims then (t, Bad(ClaimMissing))
    else if t.claims[q.item].scope != q.scope then (t, Bad(OtherWorkspace))
    else
      var i, c := t.items[q.item], t.claims[q.item];
      if c.kind != q.kind then (t, Bad(ClaimConflict))
      else if External(c.kind) && c.state.Claimed? then (t, Bad(ClaimConflict))
      else if i.status.Pending? then
        if !ItemValid(Settled(i, c, now)) then (t, Bad(PersistenceFailure))
        else
          (Tables(t.items[q.item := Settled(i, c, now)], t.claims[q.item := Closed(c, now)]),
           if ClaimValid(Closed(c, now)) then Good(Settled(i, c, now)) else Bad(PersistenceFailure))
      else if !SettledAs(i, c) then (t, Bad(ClaimConflict))
      else
        (t.(claims := t.claims[q.item := Closed(c, now)]),
         if ClaimValid(Closed(c, now)) then Good(i) else Bad(PersistenceFailure))
  }

  /** The repository; every method either leaves the rows alone or writes exactly what its function says. */
  class InboxRepository {
    var items: map<Id, Item>
    var claims: map<Id, Claim>

    constructor ()
      ensures State() == Tables(map[], map[])
    {
      items, claims := map[], map[];
    }

    ghost function State(): Tables
      reads this
    {
      Tables(items, claims)
    }

    method Save(i: Item) returns (saved: bool)
      modifies this`items
      ensures saved <==> i.id !in old(items)
      ensures items == if saved then old(items)[i.id := i] else old(items)
    {
      saved := i.id !in items;
      if saved {
        items := items[i.id := i];
      }
    }

    method Get(scope: Scope, id: Id) returns (r: Answer<Item>)
      ensures r == if id !in items then Bad(ItemMissing)
                   else if items[id].scope != scope then Bad(OtherWorkspace) else Good(items[id])
    {
      if id in items && items[id].scope == scope {
        return Good(items[id]);
      }
      return Bad(if id in items then OtherWorkspace else ItemMissing);
    }

    method GetClaim(scope: Scope, id: Id) returns (r: Answer<InboxModels.Claim>)
      ensures r == if id !in claims then Bad(ClaimMissing)
                   else if claims[id].scope != scope then Bad(OtherWorkspace) else Good(claims[id])
    {
      if id in claims && claims[id].scope == scope {
        return Good(claims[id]);
      }
      return Bad(if id in claims then OtherWorkspace else ClaimMissing);
    }

    method Claim(q: Request, now: Time) returns (r: Answer<InboxModels.Claim>)
      modifies this`claims
      ensures (State(), r) == ClaimResolution(old(State()), q, now)
    {
      if q.item !in items {
        return Bad(ItemMissing);
      }
      var item := items[q.item];
      if item.scope != q.scope {
        return Bad(OtherWorkspace);
      }
      if q.item in claims {
        var found := claims[q.item];
        if found.scope != q.scope {
          return Bad(OtherWorkspace);
        }
        return Good(found);
      }
      if item.status != Pending {
        return Bad(NoRecoverableClaim);
      }
      var claim := InboxModels.Claim(q.item, q.scope, q.kind, q.key, Reserved(q), Claimed, now, now, 1);
      if !ClaimValid(claim) {
        return Bad(PersistenceFailure);
      }
      claims := claims[q.item := claim];
      return Good(claim);
    }

    method RecordTarget(q: Request, target: Id, now: Time) returns (r: Answer<InboxModels.Claim>)
      modifies this`claims
      ensures (State(), r) == RecordTargetCreated(old(State()), q, target, now)
    {
      if q.item !in claims {
        return Bad(ClaimMissing);
      }
      var current := claims[q.item];
      if current.scope != q.scope {
        return Bad(OtherWorkspace);
      }
      if current.kind != q.kind {
        return Bad(ClaimConflict);
      }
      if current.state == TargetCreated || current.state == ClaimCompleted {
        if current.target != Some(target) {
          return Bad(ClaimConflict);
        }
        return Good(current);
      }
      current := current.(target := Some(target), state := TargetCreated);
      current := current.(updated := now, revision := current.revision + 1);
      claims := claims[q.item := current];
      if !ClaimValid(current) {
        return Bad(PersistenceFailure);
      }
      return Good(current);
    }

    method Complete(q: Request, now: Time) returns (r: Answer<Item>)
      modifies this
      ensures (State(), r) == CompleteResolution(old(State()), q, now)
    {
      if q.item !in items {
        return Bad(ItemMissing);
      }
      var item := items[q.item];
      if item.scope != q.scope {
        return Bad(OtherWorkspace);
      }
      if q.item !in claims {
        return Bad(ClaimMissing);
      }
      var claim := claims[q.item];
      if claim.scope != q.scope {
        return Bad(OtherWorkspace);
      }
      if claim.kind != q.kind || (External(q.kind) && claim.state == Claimed) {
        return Bad(ClaimConflict);
      }
      var final := if q.kind == Dismissal then Dismissed else Resolved;
      if item.status == Pending {
        item := item.(status := final, updated := now, resolvedAt := Some(now));
        item := item.(kind := Some(q.kind), target := claim.target, revision := item.revision + 1);
        if !ItemValid(item) {
          return Bad(PersistenceFailure);
        }
        items := items[q.item := item];
      } else if item.status != final || item.kind != Some(q.kind) || item.target != claim.target {
        return Bad(ClaimConflict);
      }
      if claim.state != ClaimCompleted {
        claim := claim.(state := ClaimCompleted, updated := now, revision := claim.revision + 1);
      }
      claims := claims[q.item := claim];
      if !ClaimValid(claim) {
        return Bad(PersistenceFailure);
      }
      return Good(item);
    }
  }
}
