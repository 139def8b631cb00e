/** The interaction tables as the repository keeps them, one row at a time, and the proof that a
    transaction on the tables is the transaction on interactions that the lifecycle proofs use. */
module InteractionTables {
  import opened Basics
  import opened Texts
  import opened InteractionModels
  import Store = InteractionStore

  /** A row of the fact table: `interaction_id` and payload, under the globally unique `fact_id`. */
  datatype FactRow = FactRow(interactionId: Id, fact: Fact)

  datatype AuditRow = AuditRow(interactionId: Id, audit: Audit)

  datatype Tables = Tables(
    records: map<Id, Interaction>, facts: map<Id, FactRow>,
    idempotency: map<IdempotencyKey, IdempotencyRow>, audit: seq<AuditRow>,
    evidence: map<Id, EvidenceRow>, challenges: map<Id, ChallengeRow>)

  // ---------- a transaction on the tables ----------

  /** `INSERT OR REPLACE`, fact by fact. */
  function WithFacts(rows: map<Id, FactRow>, i: Id, facts: seq<Fact>): map<Id, FactRow>
    decreases |facts|
  {
    if facts == [] then rows
    else
      var n := |facts| - 1;
      WithFacts(rows, i, facts[..n])[FactId(facts[n]) := FactRow(i, facts[n])]
  }

  function WithAudits(rows: seq<AuditRow>, i: Id, audits: seq<Audit>): seq<AuditRow>
    decreases |audits|
  {
    if audits == [] then rows
    else
      var n := |audits| - 1;
      WithAudits(rows, i, audits[..n]) + [AuditRow(i, audits[n])]
  }

  /** The arguments of `transition`; the facts come as a list. */
  datatype Request = Request(
    next: Interaction, expected: nat, facts: seq<Fact>, audits: seq<Audit>,
    operation: Operation, key: string, digest: Digest, consumption: Option<Consumption>)

  function RowKey(q: Request): IdempotencyKey {
    IdempotencyKey(q.next.origin.scope, q.operation, q.key)
  }

  predicate EvidenceUnused(t: Tables, u: Consumption) {
    && u.evidenceId in t.evidence
    && t.evidence[u.evidenceId].consumed.None?
    && t.evidence[u.evidenceId].revision == u.evidenceRevision
  }

  predicate ChallengeOpen(t: Tables, q: Request, u: Consumption) {
    && u.challengeId in t.challenges
    && var h := t.challenges[u.challengeId];
    && h.active && h.interactionId == q.next.id && h.previewId == u.previewId
    && h.previewRevision == u.previewRevision && h.interactionRevision == q.expected
  }

  predicate RecordMatches(t: Tables, q: Request) {
    && q.next.id in t.records
    && t.records[q.next.id].origin.scope == q.next.origin.scope
    && t.records[q.next.id].revision == q.expected
  }

  predicate KeyFree(t: Tables, q: Request) {
    RowKey(q) in t.idempotency ==>
      t.idempotency[RowKey(q)].digest == q.digest && t.idempotency[RowKey(q)].interactionId == q.next.id
  }

  /** No statement of the transaction raises. */
  predicate Admissible(t: Tables, q: Request) {
    && (q.consumption.Some? ==> EvidenceUnused(t, q.consumption.value) && ChallengeOpen(t, q, q.consumption.value))
    && RecordMatches(t, q)
    && KeyFree(t, q)
  }

  function SpentEvidence(t: Tables, q: Request): map<Id, EvidenceRow>
    requires q.consumption.Some? ==> EvidenceUnused(t, q.consumption.value)
  {
    if q.consumption.None? then t.evidence
    else
      var u := q.consumption.value;
      t.evidence[u.evidenceId := t.evidence[u.evidenceId].(
        revision := t.evidence[u.evidenceId].revision + 1,
        consumed := Some((q.next.id, u.previewId, u.previewRevision)))]
  }

  function SpentChallenges(t: Tables, q: Request): map<Id, ChallengeRow>
    requires q.consumption.Some? ==> ChallengeOpen(t, q, q.consumption.value)
  {
    if q.consumption.None? then t.challenges
    else
      var u := q.consumption.value;
      t.challenges[u.challengeId := t.challenges[u.challengeId].(active := false)]
  }

  function After(t: Tables, q: Request): Tables
    requires Admissible(t, q)
  {
    Tables(t.records[q.next.id := q.next],
           WithFacts(t.facts, q.next.id, q.facts),
           t.idempotency[RowKey(q) := IdempotencyRow(q.digest, q.next.id, q.next)],
           WithAudits(t.audit, q.next.id, q.audits),
           SpentEvidence(t, q), SpentChallenges(t, q))
  }

  // ---------- the repository ----------

  class InteractionRepository {
    var records: map<Id, Interaction>
    var facts: map<Id, FactRow>
    var idempotency: map<IdempotencyKey, IdempotencyRow>
    var audit: seq<AuditRow>
    var evidence: map<Id, EvidenceRow>
    var challenges: map<Id, ChallengeRow>

    constructor ()
      ensures State() == Tables(map[], map[], map[], [], map[], map[])
    {
      records, facts, idempotency, audit := map[], map[], map[], [];
      evidence, challenges := map[], map[];
    }

    ghost function State(): Tables
      reads this
    {
      Tables(records, facts, idempotency, audit, evidence, challenges)
    }

    /** `idempotent_result`: absent, answered, or a conflict of payloads. */
    method IdempotentResult(scope: Scope, operation: Operation, key: string, digest: Digest)
      returns (r: Result<Option<Interaction>>)
      ensures var k := IdempotencyKey(scope, operation, key);
              && (r == Ok(None) <==> k !in idempotency)
              && (r == Err(IdempotencyConflict) <==> k in idempotency && idempotency[k].digest != digest)
              && (k in idempotency && idempotency[k].digest == digest ==> r == Ok(Some(idempotency[k].result)))
    {
      var k := IdempotencyKey(scope, operation, key);
      if k !in idempotency {
        return Ok(None);
      }
      var row := idempotency[k];
      if row.digest != digest {
        return Err(IdempotencyConflict);
      }
      return Ok(Some(row.result));
    }

    /** `create`: the key is claimed before the record is inserted; a used key answers with its first result. */
    method Create(interaction: Interaction, first: Audit, key: string, digest: Digest)
      returns (r: Result<Interaction>)
      requires interaction.id !in records  // the id has just been drawn
      modifies this
      ensures var k := IdempotencyKey(interaction.origin.scope, InteractionModels.Create, key);
              && (k !in old(idempotency) ==>
                    && r == Ok(interaction)
                    && State() == old(State()).(
                         records := old(records)[interaction.id := interaction],
                         idempotency := old(idempotency)[k := IdempotencyRow(digest, interaction.id, interaction)],
                         audit := old(audit) + [AuditRow(interaction.id, first)]))
              && (k in old(idempotency) ==>
                    && State() == old(State())
                    && r == if old(idempotency)[k].digest != digest
                            then Err(IdempotencyConflict) else Ok(old(idempotency)[k].result))
    {
      var k := IdempotencyKey(interaction.origin.scope, InteractionModels.Create, key);
      if k in idempotency {
        var row := idempotency[k];
        if row.digest != digest {
          return Err(IdempotencyConflict);
        }
        return Ok(row.result);
      }
      idempotency := idempotency[k := IdempotencyRow(digest, interaction.id, interaction)];
      records := records[interaction.id := interaction];
      audit := audit + [AuditRow(interaction.id, first)];
      return Ok(interaction);
    }

    method WriteFacts(i: Id, written: seq<Fact>)
      modifies this`facts
      ensures facts == WithFacts(old(facts), i, written)
    {
      var j := 0;
      while j < |written|
        invariant 0 <= j <= |written|
        invariant facts == WithFacts(old(facts), i, written[..j])
      {
        assert written[..j + 1][..j] == written[..j];
        facts := facts[FactId(written[j]) := FactRow(i, written[j])];
        j := j + 1;
      }
      assert written[..j] == written;
    }

    method WriteAudits(i: Id, written: seq<Audit>)
      modifies this`audit
      ensures audit == WithAudits(old(audit), i, written)
    {
      var j := 0;
      while j < |written|
        invariant 0 <= j <= |written|
        invariant audit == WithAudits(old(audit), i, written[..j])
      {
        assert written[..j + 1][..j] == written[..j];
        audit := audit + [AuditRow(i, written[j])];
        j := j + 1;
      }
      assert written[..j] == written;
    }

    /** The two guarded updates that use evidence and challenge up: both hit, or neither stays. */
    method SpendConsumption(q: Request) returns (ok: bool)
      modifies this`evidence, this`challenges
      ensures ok <==> (q.consumption.Some? ==> EvidenceUnused(old(State()), q.consumption.value)
                                               && ChallengeOpen(old(State()), q, q.consumption.value))
      ensures ok ==> evidence == SpentEvidence(old(State()), q) && challenges == SpentChallenges(old(State()), q)
      ensures !ok ==> evidence == old(evidence) && challenges == old(challenges)
    {
      if q.consumption.None? {
        return true;
      }
      var savedEvidence, savedChallenges := evidence, challenges;
      var u := q.consumption.value;
      var spent := 0;
      if u.evidenceId in evidence && evidence[u.evidenceId].consumed.None?
         && evidence[u.evidenceId].revision == u.evidenceRevision {
        evidence := evidence[u.evidenceId := evidence[u.evidenceId].(
          revision := evidence[u.evidenceId].revision + 1,
          consumed := Some((q.next.id, u.previewId, u.previewRevision)))];
        spent := spent + 1;
      }
      if u.challengeId in challenges {
        var h := challenges[u.challengeId];
        if h.active && h.interactionId == q.next.id && h.previewId == u.previewId
           && h.previewRevision == u.previewRevision && h.interactionRevision == q.expected {
          challenges := challenges[u.challengeId := h.(active := false)];
          spent := spent + 1;
        }
      }
      if spent != 2 {
        evidence, challenges := savedEvidence, savedChallenges;
        return false;
      }
      return true;
    }

    /** `transition`: spend the evidence and the challenge, swap the record, write the facts and the audit
        rows, claim the key; any statement that misses rolls all of it back. */
    method Transition(q: Request) returns (r: Result<()>)
      modifies this
      ensures r.Ok? <==> Admissible(old(State()), q)
      ensures r.Ok? ==> State() == After(old(State()), q)
      ensures r.Err? ==> State() == old(State()) && r.error == RevisionConflict
    {
      hide EvidenceUnused, ChallengeOpen, SpentEvidence, SpentChallenges;
      var savedEvidence, savedChallenges, savedRecords := evidence, challenges, records;
      var savedFacts, savedAudit := facts, audit;
      var spent := SpendConsumption(q);
      if !spent {
        return Err(RevisionConflict);
      }
      if q.next.id !in records || records[q.next.id].origin.scope != q.next.origin.scope
         || records[q.next.id].revision != q.expected {
        evidence, challenges := savedEvidence, savedChallenges;
        return Err(RevisionConflict);
      }
      records := records[q.next.id := q.next];
      WriteFacts(q.next.id, q.facts);
      WriteAudits(q.next.id, q.audits);
      var key := RowKey(q);
      if key in idempotency && (idempotency[key].digest != q.digest || idempotency[key].interactionId != q.next.id) {
        evidence, challenges, records := savedEvidence, savedChallenges, savedRecords;
        facts, audit := savedFacts, savedAudit;
        return Err(RevisionConflict);
      }
      idempotency := idempotency[key := IdempotencyRow(q.digest, q.next.id, q.next)];
      return Ok(());
    }

    /** `store_trusted_ingress_evidence`: the first payload under an identity stays, with the time it came; only
        the same may repeat. */
    method StoreEvidence(id: Id, payload: string, now: Time) returns (r: Result<()>)
      modifies this`evidence
      ensures r.Ok? <==> id !in old(evidence) || old(evidence)[id].payload == payload
      ensures evidence == if id in old(evidence) then old(evidence)
                          else old(evidence)[id := EvidenceRow(payload, now, 1, None)]
    {
      if id !in evidence {
        evidence := evidence[id := EvidenceRow(payload, now, 1, None)];
        return Ok(());
      }
      if evidence[id].payload != payload {
        return Err(IdempotencyConflict);
      }
      return Ok(());
    }

    /** `store_confirmation_challenge`, under an id that has just been drawn. */
    method StoreChallenge(id: Id, row: ChallengeRow)
      requires id !in challenges
      modifies this`challenges
      ensures challenges == old(challenges)[id := row.(active := true)]
    {
      challenges := challenges[id := row.(active := true)];
    }
  }

  // ---------- the tables as interactions ----------

  function FactsOf(rows: map<Id, FactRow>, i: Id): map<Id, Fact> {
    map id | id in rows && rows[id].interactionId == i :: rows[id].fact
  }

  function AuditsOf(rows: seq<AuditRow>, i: Id): seq<Audit>
    decreases |rows|
  {
    if rows == [] then []
    else
      var n := |rows| - 1;
      AuditsOf(rows[..n], i) + if rows[n].interactionId == i then [rows[n].audit] else []
  }

  /** Everything the tables hold about one interaction. */
  function Row(t: Tables, i: Id): Store.Aggregate
    requires i in t.records
  {
    Store.Aggregate(t.records[i], FactsOf(t.facts, i), AuditsOf(t.audit, i))
  }

  function AsStore(t: Tables): Store.Store {
    Store.Store(map i | i in t.records :: Row(t, i), t.idempotency, t.evidence, t.challenges)
  }

  function AsMap(facts: seq<Fact>): map<Id, Fact>
    decreases |facts|
  {
    if facts == [] then map[]
    else
      var n := |facts| - 1;
      AsMap(facts[..n])[FactId(facts[n]) := facts[n]]
  }

  function AsCommit(q: Request): Store.Commit {
    Store.Commit(q.next, q.expected, AsMap(q.facts), q.audits, q.operation, q.key, q.digest, q.consumption)
  }

  /** No fact id the transaction writes belongs to another interaction. */
  predicate OwnIds(t: Tables, q: Request) {
    forall id | id in AsMap(q.facts) && id in t.facts :: t.facts[id].interactionId == q.next.id
  }

  lemma {:induction false} FactsWritten(rows: map<Id, FactRow>, i: Id, facts: seq<Fact>)
    ensures var after := WithFacts(rows, i, facts);
            && (forall id | id in AsMap(facts) :: id in after && after[id] == FactRow(i, AsMap(facts)[id]))
            && (forall id | id !in AsMap(facts) :: (id in after <==> id in rows) && (id in rows ==> after[id] == rows[id]))
    decreases |facts|
  {
    if facts == [] {
    } else {
      FactsWritten(rows, i, facts[..|facts| - 1]);
    }
  }

  lemma {:induction false} AuditsWritten(rows: seq<AuditRow>, i: Id, audits: seq<Audit>, j: Id)
    ensures AuditsOf(WithAudits(rows, i, audits), j) == AuditsOf(rows, j) + if i == j then audits else []
    decreases |audits|
  {
    if audits == [] {
    } else {
      var n := |audits| - 1;
      AuditsWritten(rows, i, audits[..n], j);
      var before := WithAudits(rows, i, audits[..n]);
      assert WithAudits(rows, i, audits) == before + [AuditRow(i, audits[n])];
      assert audits[..n] + [audits[n]] == audits;
      AuditsOfOneMore(before, AuditRow(i, audits[n]), j);
      hide WithAudits, AuditsOf;
      Together(AuditsOf(rows, j), audits[..n], [audits[n]]);
    }
  }

  lemma AuditsOfOneMore(rows: seq<AuditRow>, row: AuditRow, i: Id)
    ensures AuditsOf(rows + [row], i) == if row.interactionId == i then AuditsOf(rows, i) + [row.audit] else AuditsOf(rows, i)
  {
    assert (rows + [row])[..|rows|] == rows;
  }

  lemma Together(a: seq<Audit>, b: seq<Audit>, c: seq<Audit>)
    ensures (a + b) + c == a + (b + c) && a + [] == a
  {
  }

  /** A transaction is accepted on the tables exactly when its commit is on the interactions. */
  lemma AdmissibleAlike(t: Tables, q: Request)
    ensures Admissible(t, q) <==> Store.Committable(AsStore(t), AsCommit(q))
  {
  }

  lemma FactsAfter(t: Tables, q: Request, i: Id)
    requires Admissible(t, q) && OwnIds(t, q)
    ensures FactsOf(After(t, q).facts, i) == FactsOf(t.facts, i) + if i == q.next.id then AsMap(q.facts) else map[]
  {
    hide Admissible;
    FactsWritten(t.facts, q.next.id, q.facts);
    var after, expected :=
      FactsOf(After(t, q).facts, i), FactsOf(t.facts, i) + if i == q.next.id then AsMap(q.facts) else map[];
    assert forall id :: id in after <==> id in expected;
  }

  lemma RowAfter(t: Tables, q: Request, i: Id)
    requires Admissible(t, q) && OwnIds(t, q) && i in t.records
    ensures i in After(t, q).records
    ensures Row(After(t, q), i) == if i == q.next.id then Store.Apply(Row(t, i), AsCommit(q)) else Row(t, i)
  {
    hide Admissible, OwnIds;
    FactsAfter(t, q, i);
    AuditsWritten(t.audit, q.next.id, q.audits, i);
  }

  /** With ids of its own, a transaction on the tables is the commit on the interactions the lifecycle
      proofs reason about, and no other interaction sees it. */
  lemma TransitionRefines(t: Tables, q: Request)
    requires Admissible(t, q) && OwnIds(t, q)
    ensures Store.Committable(AsStore(t), AsCommit(q))
    ensures AsStore(After(t, q)) == Store.Written(AsStore(t), AsCommit(q))
  {
    AdmissibleAlike(t, q);
    hide OwnIds, FactsOf, AuditsOf, WithFacts, WithAudits, AsMap, Store.Apply, Row;
    var s, u := AsStore(After(t, q)), Store.Written(AsStore(t), AsCommit(q));
    forall i | i in t.records
      ensures s.aggregates[i] == u.aggregates[i]
    {
      RowAfter(t, q, i);
    }
    assert s.aggregates.Keys == u.aggregates.Keys;
    assert s.aggregates == u.aggregates;
  }

  /** `fact_id` alone is the primary key: a transaction leaves the facts of every other interaction alone
      exactly when none of the ids it writes is one of theirs. An id handed in from outside, such as the
      commit authority's evidence id, therefore has to be new. */
  lemma OthersUntouchedIffOwnIds(t: Tables, q: Request)
    requires Admissible(t, q)
    ensures (forall j | j != q.next.id :: FactsOf(After(t, q).facts, j) == FactsOf(t.facts, j)) <==> OwnIds(t, q)
  {
    FactsWritten(t.facts, q.next.id, q.facts);
    if OwnIds(t, q) {
      forall j | j != q.next.id
        ensures FactsOf(After(t, q).facts, j) == FactsOf(t.facts, j)
      {
        assert FactsOf(After(t, q).facts, j).Keys == FactsOf(t.facts, j).Keys;
      }
    } else {
      var id :| id in AsMap(q.facts) && id in t.facts && t.facts[id].interactionId != q.next.id;
      var j := t.facts[id].interactionId;
      assert id in FactsOf(t.facts, j) && id !in FactsOf(After(t, q).facts, j);
    }
  }

  const SOME_ORIGIN := Origin(Scope("t", "w", "n"), "owner", "op", "low", "policy", "r", "t", "", map[])

  /** An interaction that succeeded on the evidence of a commit authority, and that evidence. */
  const SETTLED :=
    Store.Fresh("first", SOME_ORIGIN).(state := Succeeded, revision := 5, commitEvidenceId := Some("evidence_1"))

  function EvidenceFor(i: Id): Fact {
    CommitEvidenceFact(CommitEvidence("evidence_1", i, "exe", "prv", SOME_ORIGIN.scope, "policy", true, Committed,
                                      Some("object"), Some(1), "digest"))
  }

  /** A second interaction under verification. */
  const UNPROVEN := Store.Fresh("second", SOME_ORIGIN).(state := Verifying, revision := 4)

  const TWO_INTERACTIONS :=
    Tables(map["first" := SETTLED, "second" := UNPROVEN],
           map["evidence_1" := FactRow("first", EvidenceFor("first"))], map[], [], map[], map[])

  /** The authority answers for the second interaction under the evidence id it used for the first. */
  const SECOND_PROOF :=
    Request(UNPROVEN.(state := Succeeded, revision := 5, commitEvidenceId := Some("evidence_1")), 4,
            [EvidenceFor("second")], [], Verify, "v", PlainDigest("second", 4), None)

  /** Such an id: the transaction is accepted, and the first interaction, although untouched, refers to
      evidence that now belongs to the second. */
  lemma EvidenceChangesHands()
    ensures Admissible(TWO_INTERACTIONS, SECOND_PROOF) && !OwnIds(TWO_INTERACTIONS, SECOND_PROOF)
    ensures var before, after := TWO_INTERACTIONS, After(TWO_INTERACTIONS, SECOND_PROOF);
            && after.records["first"] == before.records["first"]
            && "evidence_1" in FactsOf(before.facts, "first")
            && "evidence_1" !in FactsOf(after.facts, "first")
            && "evidence_1" in FactsOf(after.facts, "second")
  {
    FactsWritten(TWO_INTERACTIONS.facts, "second", SECOND_PROOF.facts);
    assert SECOND_PROOF.facts[..0] == [];
    assert AsMap(SECOND_PROOF.facts) == map["evidence_1" := EvidenceFor("second")];
    assert |"first"| != |"second"| && "evidence_1" in TWO_INTERACTIONS.facts;
  }

  /** Every fact and audit row belongs to a stored interaction, as the foreign keys demand. */
  predicate Referential(t: Tables) {
    && (forall f | f in t.facts :: t.facts[f].interactionId in t.records)
    && (forall j | 0 <= j < |t.audit| :: t.audit[j].interactionId in t.records)
  }

  function AfterCreate(t: Tables, id: Id, origin: Origin, key: string): Tables {
    t.(records := t.records[id := Store.Fresh(id, origin)],
       idempotency := t.idempotency[Store.CreateKey(origin, key) :=
         IdempotencyRow(CreateDigest(origin), id, Store.Fresh(id, origin))],
       audit := t.audit + [AuditRow(id, Audit(None, Requested, 1, key))])
  }

  lemma RowCreated(t: Tables, id: Id, origin: Origin, key: string, i: Id)
    requires id !in t.records && Referential(t) && (i in t.records || i == id)
    ensures Row(AfterCreate(t, id, origin, key), i) ==
            if i == id then Store.Opened(id, origin, key) else Row(t, i)
  {
    NoAudits(t.audit, id);
    var u := AfterCreate(t, id, origin, key);
    assert u.audit[..|t.audit|] == t.audit;
    assert i == id ==> FactsOf(t.facts, i) == map[];
  }

  /** Creating an interaction on the tables opens it, with no facts and one audit row, in the store. */
  lemma CreateRefines(t: Tables, id: Id, origin: Origin, key: string)
    requires id !in t.records && Referential(t)
    requires !Blank(key) && Store.CreateKey(origin, key) !in t.idempotency
    ensures Store.CreateInteraction(AsStore(t), id, origin, key)
            == Ok((AsStore(AfterCreate(t, id, origin, key)), Store.Fresh(id, origin)))
  {
    hide Referential, FactsOf, AuditsOf, Row, Store.Opened;
    var u := AfterCreate(t, id, origin, key);
    var expected := AsStore(t).aggregates[id := Store.Opened(id, origin, key)];
    forall i | i in u.records
      ensures AsStore(u).aggregates[i] == expected[i]
    {
      RowCreated(t, id, origin, key, i);
    }
    assert AsStore(u).aggregates.Keys == expected.Keys;
    assert AsStore(u).aggregates == expected;
  }

  lemma {:induction false} AuditOwners(rows: seq<AuditRow>, i: Id, audits: seq<Audit>, j: nat)
    requires j < |WithAudits(rows, i, audits)|
    ensures var row := WithAudits(rows, i, audits)[j]; row in rows || row.interactionId == i
    decreases |audits|
  {
    if audits == [] {
    } else {
      var before := WithAudits(rows, i, audits[..|audits| - 1]);
      if j < |before| {
        AuditOwners(rows, i, audits[..|audits| - 1], j);
      }
    }
  }

  /** A transition keeps every fact and audit row attached to a stored interaction. */
  lemma ReferentialKept(t: Tables, q: Request)
    requires Referential(t) && Admissible(t, q)
    ensures Referential(After(t, q))
  {
    FactsWritten(t.facts, q.next.id, q.facts);
    forall j | 0 <= j < |After(t, q).audit|
      ensures After(t, q).audit[j].interactionId in After(t, q).records
    {
      AuditOwners(t.audit, q.next.id, q.audits, j);
    }
  }

  lemma {:induction false} NoAudits(rows: seq<AuditRow>, i: Id)
    requires forall j | 0 <= j < |rows| :: rows[j].interactionId != i
    ensures AuditsOf(rows, i) == []
    decreases |rows|
  {
    if rows == [] {
    } else {
      NoAudits(rows[..|rows| - 1], i);
    }
  }
}
