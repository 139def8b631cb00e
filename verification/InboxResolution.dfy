/** `_resolve` as one undisturbed call executes it, proved to be the lone run of the saga machine. */
module InboxResolution {
  import opened Basics
  import opened InboxModels
  import opened InboxTables
  import opened InboxSaga
  import opened InboxRecovery

  class InboxService {
    const repository: InboxRepository
    var targets: map<Slot, Target>
    ghost var made: seq<Made>

    constructor (store: InboxRepository)
      ensures repository == store && targets == map[] && made == []
    {
      repository, targets, made := store, map[], [];
    }

    /** The stored state with this call alone in it. */
    ghost function Alone(q: Request, pc: Pc, now: Time): World
      reads this, repository
    {
      World(repository.State(), targets, made, map[0 := Call(q, pc, now)], now)
    }

    /** The creators of `resolve_to_...`: create under the claim's key, and take over what is already there
        only if it is this item's own. */
    method CreateTarget(q: Request, item: Item, claim: Claim, reply: Reply) returns (target: Option<Id>)
      modifies this
      ensures forall now ::
                Alone(q, if target.Some? then Recording(target.value) else Finished(TargetRefused), now)
                == CreateStep(old(Alone(q, Creating(item, claim), now)), 0, reply)
    {
      if reply == Unavailable {
        return None;
      }
      var key := if claim.key.Some? then claim.key.value else "";
      var slot := SlotOf(item.scope, q.kind, key);
      if slot !in targets {
        var created := Stamped(item, q.kind, key, reply.drawn, q.intent);
        targets := targets[slot := created];
        made := made + [Made(item.id, slot)];
        return if reply.Served? then Some(created.id) else None;
      }
      var existing := targets[slot];
      if reply.Served? && Adoptable(existing, item, q.kind, q.intent) {
        return Some(existing.id);
      }
      return None;
    }

    /** The clock is read three times on the way; `start` is when the call came in. */
    method Resolve(q: Request, clock: Clock, reply: Reply, ghost start: Time) returns (outcome: Outcome)
      modifies this, repository
      ensures var u := Drive(old(Alone(q, Claiming, start)), 0, reply, clock, 6);
              u == Alone(q, Finished(outcome), u.now)
    {
      hide Drive;
      var answer := repository.Claim(q, clock.claimed);
      Onward(old(Alone(q, Claiming, start)), reply, clock, 6);
      if answer.Bad? || answer.value.kind != q.kind || answer.value.state == ClaimCompleted {
        outcome := AtOnce(q, answer);
        DriveFinished(Alone(q, Finished(outcome), clock.claimed), 0, reply, clock, 5);
        return;
      }
      assert Alone(q, Fetching, clock.claimed)
             == ClaimStep(old(Alone(q, Claiming, start)).(now := clock.claimed), 0, clock.claimed);
      outcome := AfterFetch(q, clock, reply);
    }

    /** The answers that need no saga: a refused claim, one of another kind, and a completed one. */
    method AtOnce(q: Request, answer: Answer<Claim>) returns (outcome: Outcome)
      requires answer.Bad? || answer.value.kind != q.kind || answer.value.state == ClaimCompleted
      ensures Finished(outcome) == AfterClaim(repository.State(), q, answer)
    {
      if answer.Bad? {
        return Refused(answer.failure);
      }
      var claim := answer.value;
      if claim.kind == q.kind && ReturnsCompleted(q.kind) && q.item in repository.items {
        var completed := repository.items[q.item];
        if completed.kind == Some(q.kind) && completed.target == claim.target {
          return Success(completed);
        }
      }
      return AlreadyResolved(claim);
    }

    method AfterFetch(q: Request, clock: Clock, reply: Reply) returns (outcome: Outcome)
      modifies this, repository
      ensures var u := Drive(old(Alone(q, Fetching, clock.claimed)), 0, reply, clock, 5);
              u == Alone(q, Finished(outcome), u.now)
    {
      hide Drive;
      Onward(Alone(q, Fetching, clock.claimed), reply, clock, 5);
      var fetched := repository.Get(q.scope, q.item);
      if fetched.Bad? {
        outcome := Refused(fetched.failure);
        DriveFinished(Alone(q, Finished(outcome), clock.claimed), 0, reply, clock, 4);
        return;
      }
      if fetched.value.status != Pending {
        outcome := if q.item in repository.claims then AlreadyResolved(repository.claims[q.item]) else Refused(ClaimMissing);
        DriveFinished(Alone(q, Finished(outcome), clock.claimed), 0, reply, clock, 4);
        return;
      }
      outcome := AfterReread(q, fetched.value, clock, reply);
    }

    method AfterReread(q: Request, item: Item, clock: Clock, reply: Reply) returns (outcome: Outcome)
      modifies this, repository
      ensures var u := Drive(old(Alone(q, Rereading(item), clock.claimed)), 0, reply, clock, 4);
              u == Alone(q, Finished(outcome), u.now)
    {
      hide Drive;
      Onward(Alone(q, Rereading(item), clock.claimed), reply, clock, 4);
      var reread := repository.GetClaim(q.scope, q.item);
      if reread.Bad? {
        outcome := Refused(reread.failure);
        DriveFinished(Alone(q, Finished(outcome), clock.claimed), 0, reply, clock, 3);
        return;
      }
      if External(q.kind) && reread.value.state == Claimed {
        outcome := MakeTarget(q, item, reread.value, clock, reply);
      } else {
        outcome := Close(q, clock, reply, clock.claimed, 3);
      }
    }

    method MakeTarget(q: Request, item: Item, claim: Claim, clock: Clock, reply: Reply)
      returns (outcome: Outcome)
      modifies this, repository
      ensures var u := Drive(old(Alone(q, Creating(item, claim), clock.claimed)), 0, reply, clock, 3);
              u == Alone(q, Finished(outcome), u.now)
    {
      hide Drive, CreateStep, RecordTargetCreated;
      Onward(Alone(q, Creating(item, claim), clock.claimed), reply, clock, 3);
      var target := CreateTarget(q, item, claim, reply);
      if target == None {
        outcome := TargetRefused;
        DriveFinished(Alone(q, Finished(outcome), clock.claimed), 0, reply, clock, 2);
        return;
      }
      Onward(Alone(q, Recording(target.value), clock.claimed), reply, clock, 2);
      var recorded := repository.RecordTarget(q, target.value, clock.recorded);
      if recorded.Bad? {
        outcome := Report(q, recorded.failure);
        DriveFinished(Alone(q, Finished(outcome), clock.recorded), 0, reply, clock, 1);
        return;
      }
      outcome := Close(q, clock, reply, clock.recorded, 1);
    }

    method Close(q: Request, clock: Clock, reply: Reply, ghost now: Time, ghost k: nat)
      returns (outcome: Outcome)
      requires k > 0
      modifies repository
      ensures var u := Drive(old(Alone(q, Completing, now)), 0, reply, clock, k);
              u == Alone(q, Finished(outcome), u.now)
    {
      hide Drive, CompleteResolution;
      Onward(Alone(q, Completing, now), reply, clock, k);
      var completed := repository.Complete(q, clock.completed);
      if completed.Bad? {
        outcome := Report(q, completed.failure);
      } else {
        outcome := Success(completed.value);
      }
      DriveFinished(Alone(q, Finished(outcome), clock.completed), 0, reply, clock, k - 1);
    }

    /** A refused repository call is reported with the claim as it stands. */
    method Report(q: Request, failure: Failure) returns (outcome: Outcome)
      ensures Finished(outcome) == Refusal(repository.State(), q, failure)
    {
      if (failure == ClaimConflict || failure == NoRecoverableClaim) && q.item in repository.claims {
        var current := repository.claims[q.item];
        if current.kind != q.kind || current.state == ClaimCompleted {
          return AlreadyResolved(current);
        }
      }
      return Refused(failure);
    }
  }

  /** Alone, a call's world holds nothing but that call. */
  lemma Onward(w: World, reply: Reply, clock: Clock, k: nat)
    requires w.calls.Keys == {0} && k > 0
    ensures Drive(w, 0, reply, clock, k) == Drive(Moved(w, 0, reply, clock), 0, reply, clock, k - 1)
    ensures var u := Moved(w, 0, reply, clock); u.calls == map[0 := u.calls[0]]
  {
  }
}
