/** The records of the Inbox resolution saga and the checks their models make whenever a row is built or read. */
module InboxModels {
  import opened Basics

  datatype Status = Pending | Resolved | Dismissed

  datatype Kind = UserTask | Reminder | WorkLog | Note | WaitingFor | Dismissal

  datatype ClaimState = Claimed | TargetCreated | ClaimCompleted

  datatype Item = Item(
    id: Id, scope: Scope, source: string, status: Status, created: Time, updated: Time,
    resolvedAt: Option<Time>, kind: Option<Kind>, target: Option<Id>, revision: nat)

  datatype Claim = Claim(
    item: Id, scope: Scope, kind: Kind, key: Option<Id>, target: Option<Id>,
    state: ClaimState, created: Time, updated: Time, revision: nat)

  /** The kinds whose resolution lives in another store. */
  predicate External(k: Kind) {
    k.UserTask? || k.Reminder? || k.WorkLog? || k.WaitingFor?
  }

  predicate Named(id: Option<Id>) {
    id.Some? && id.value != ""
  }

  /** `_validate_claim`. */
  predicate ClaimValid(c: Claim) {
    && c.created <= c.updated
    && (External(c.kind) ==> Named(c.key))
    && (!External(c.kind) ==> c.key.None? && c.target.None?)
    && (!c.state.Claimed? && External(c.kind) ==> Named(c.target))
  }

  /** `_validate_state`. */
  predicate ItemValid(i: Item) {
    && i.created <= i.updated
    && (i.status.Pending? ==> i.resolvedAt.None? && i.kind.None? && i.target.None?)
    && (!i.status.Pending? ==>
          && i.resolvedAt.Some? && i.kind.Some? && i.created <= i.resolvedAt.value
          && (i.status.Dismissed? <==> i.kind.value.Dismissal?)
          && (if External(i.kind.value) then Named(i.target) else i.target.None?))
  }

  function StateRank(s: ClaimState): nat {
    match s
    case Claimed => 0
    case TargetCreated => 1
    case ClaimCompleted => 2
  }

  /** Where a target lives: ids of tasks, work logs and waiting-fors are global within their store; a
      reminder is found by its idempotency key, and the key counts within one workspace. */
  datatype Slot = Slot(kind: Kind, scope: Option<Scope>, key: Id)

  /** A record of a target store: the workspace it is in, what its metadata says about an Inbox item, and,
      for a reminder, the intent (title, time and time zone) its key was first used for. */
  datatype Target = Target(id: Id, scope: Scope, item: Option<Id>, source: Option<string>, intent: string)

  function SlotOf(scope: Scope, kind: Kind, key: Id): Slot {
    Slot(kind, if kind.Reminder? then Some(scope) else None, key)
  }

  const INBOX_SOURCE := "inbox"

  /** What the creators write beside the target: the item it comes from and where the item came from. */
  function Stamped(i: Item, kind: Kind, key: Id, drawn: Id, intent: string): Target {
    match kind
    case Reminder => Target(drawn, i.scope, None, None, intent)
    case WorkLog => Target(key, i.scope, Some(i.id), Some(INBOX_SOURCE), intent)
    case _ => Target(key, i.scope, Some(i.id), Some(i.source), intent)
  }

  /** When an id that is already taken is accepted as this item's own target. */
  predicate Adoptable(t: Target, i: Item, kind: Kind, intent: string) {
    match kind
    case UserTask => t.scope == i.scope && t.item == Some(i.id)
    case WorkLog => t.scope == i.scope && t.item == Some(i.id) && t.source == Some(INBOX_SOURCE)
    case WaitingFor => t.scope == i.scope && t.item == Some(i.id) && t.source == Some(i.source)
    case Reminder => t.intent == intent
    case _ => false
  }

  /** One call of a `resolve_to_...` operation, with the key it computes and the reminder intent. */
  datatype Request = Request(scope: Scope, item: Id, kind: Kind, key: Option<Id>, intent: string)

  predicate WellFormed(q: Request) {
    if External(q.kind) then Named(q.key) else q.key.None?
  }

  /** A reminder's id is drawn by the reminder service, so nothing is reserved for it. */
  function Reserved(q: Request): Option<Id> {
    if q.kind.Reminder? then None else q.key
  }

  predicate ReturnsCompleted(k: Kind) {
    k.WorkLog? || k.WaitingFor?
  }

  datatype Failure =
    | ItemMissing | OtherWorkspace | NoRecoverableClaim | ClaimMissing | ClaimConflict | PersistenceFailure

  datatype Answer<T> = Good(value: T) | Bad(failure: Failure)
}
