/** The persistent state seen interaction by interaction, and the two transactions that change it.
    Each function is one SQLite transaction: it either yields the whole new state or an error and no change. */
module InteractionStore {
  import opened Basics
  import opened Texts
  import opened InteractionModels

  /** One interaction: its snapshot, its facts by id, and its audit rows in insertion order. */
  datatype Aggregate = Aggregate(record: Interaction, facts: map<Id, Fact>, audits: seq<Audit>)

  datatype Store = Store(
    aggregates: map<Id, Aggregate>,
    rows: map<IdempotencyKey, IdempotencyRow>,
    evidence: map<Id, EvidenceRow>,
    challenges: map<Id, ChallengeRow>)

  const EMPTY_STORE := Store(map[], map[], map[], map[])

  /** What one call of `transition` asks to be written. */
  datatype Commit = Commit(
    next: Interaction, expected: nat, facts: map<Id, Fact>, audits: seq<Audit>,
    operation: Operation, key: string, digest: Digest, consumption: Option<Consumption>)

  function RowKey(c: Commit): IdempotencyKey {
    IdempotencyKey(c.next.origin.scope, c.operation, c.key)
  }

  function Apply(a: Aggregate, c: Commit): Aggregate {
    Aggregate(c.next, a.facts + c.facts, a.audits + c.audits)
  }

  /** The two guarded updates that spend an evidence row and a challenge row both hit. */
  predicate Spendable(s: Store, c: Commit)
    requires c.consumption.Some?
  {
    var u := c.consumption.value;
    && u.evidenceId in s.evidence
    && s.evidence[u.evidenceId].consumed.None?
    && s.evidence[u.evidenceId].revision == u.evidenceRevision
    && u.challengeId in s.challenges
    && var h := s.challenges[u.challengeId];
    && h.active
    && h.interactionId == c.next.id
    && h.previewId == u.previewId
    && h.previewRevision == u.previewRevision
    && h.interactionRevision == c.expected
  }

  /** The compare-and-swap on the record finds a row to update. */
  predicate Swappable(s: Store, c: Commit) {
    && c.next.id in s.aggregates
    && s.aggregates[c.next.id].record.origin.scope == c.next.origin.scope
    && s.aggregates[c.next.id].record.revision == c.expected
  }

  /** The idempotency row is absent, or was written for this payload and interaction. */
  predicate Claimable(s: Store, c: Commit) {
    RowKey(c) in s.rows ==>
      s.rows[RowKey(c)].digest == c.digest && s.rows[RowKey(c)].interactionId == c.next.id
  }

  predicate Committable(s: Store, c: Commit) {
    && (c.consumption.Some? ==> Spendable(s, c))
    && Swappable(s, c)
    && Claimable(s, c)
  }

  function Spend(s: Store, c: Commit): Store
    requires c.consumption.Some? ==> Spendable(s, c)
  {
    match c.consumption
    case None => s
    case Some(u) =>
      var e := s.evidence[u.evidenceId];
      s.(evidence := s.evidence[u.evidenceId :=
           e.(revision := e.revision + 1, consumed := Some((c.next.id, u.previewId, u.previewRevision)))],
         challenges := s.challenges[u.challengeId := s.challenges[u.challengeId].(active := false)])
  }

  function Written(s: Store, c: Commit): Store
    requires Committable(s, c)
  {
    Spend(s, c).(
      aggregates := s.aggregates[c.next.id := Apply(s.aggregates[c.next.id], c)],
      rows := s.rows[RowKey(c) := IdempotencyRow(c.digest, c.next.id, c.next)])
  }

  function Transition(s: Store, c: Commit): Result<Store> {
    if Committable(s, c) then Ok(Written(s, c)) else Err(RevisionConflict)
  }

  function Fresh(id: Id, origin: Origin): Interaction {
    Interaction(id, origin, Requested, NotStarted, VerificationNotRequired, RecoveryNotRequired, 1,
                None, None, None, None, None, None, None, None)
  }

  function Opened(id: Id, origin: Origin, key: string): Aggregate {
    Aggregate(Fresh(id, origin), map[], [Audit(None, Requested, 1, key)])
  }

  function CreateKey(origin: Origin, key: string): IdempotencyKey {
    IdempotencyKey(origin.scope, Create, key)
  }

  /** `create`: claim the idempotency key first, and insert the aggregate only when the claim was new. */
  function CreateInteraction(s: Store, id: Id, origin: Origin, key: string): Result<(Store, Interaction)> {
    var k := CreateKey(origin, key);
    if Blank(key) then Err(IdempotencyKeyMissing)
    else if k !in s.rows then
      Ok((s.(aggregates := s.aggregates[id := Opened(id, origin, key)],
             rows := s.rows[k := IdempotencyRow(CreateDigest(origin), id, Fresh(id, origin))]),
          Fresh(id, origin)))
    else if s.rows[k].digest != CreateDigest(origin) then Err(IdempotencyConflict)
    else Ok((s, s.rows[k].result))
  }

  /** `get`: the record is visible only from its own workspace. */
  function Get(s: Store, scope: Scope, id: Id): Option<Interaction> {
    if id in s.aggregates && s.aggregates[id].record.origin.scope == scope
    then Some(s.aggregates[id].record) else None
  }

  /** `fact`, before the type filter. */
  function Lookup(s: Store, interactionId: Id, id: Id): Option<Fact> {
    if interactionId in s.aggregates && id in s.aggregates[interactionId].facts
    then Some(s.aggregates[interactionId].facts[id]) else None
  }

  function AcceptEvidence(s: Store, id: Id, payload: string, now: Time): Result<Store> {
    if id !in s.evidence then
      Ok(s.(evidence := s.evidence[id := EvidenceRow(payload, now, 1, None)]))
    else if s.evidence[id].payload != payload then Err(IdempotencyConflict)
    else Ok(s)
  }

  function IssueChallenge(s: Store, id: Id, row: ChallengeRow): Result<Store> {
    if id in s.challenges then Err(IdempotencyConflict)
    else Ok(s.(challenges := s.challenges[id := row.(active := true)]))
  }
}
