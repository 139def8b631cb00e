/** The pilot's trusted confirmation: evidence is accepted from the configured channel only, a challenge is put up
    for one Preview, and what the confirm operation checked when it read is still true when its commit wins. */
module PilotConfirmation {
  import opened Basics
  import opened InteractionModels
  import opened InteractionStore
  import opened InteractionDecisions
  import opened InteractionAggregates
  import opened InteractionRuns
  import opened InteractionProtocol
  import opened InteractionSafety
  import opened InteractionTheorems
  import opened InteractionRetries
  import opened InteractionAnswers
  import Tables = InteractionTables
  import Issuer = IssuerJournal

  /** Five minutes in microseconds. */
  const CHALLENGE_TTL := 300_000_000

  // ---------- accepting evidence ----------

  /** What an envelope's wire text says, if it is well formed. */
  type Parser = string -> Option<Issuer.Envelope>

  datatype Acceptance = EvidenceAccepted | SignatureInvalid | BindingDenied | AlreadyKnownOtherwise

  /** `accept_evidence`: only a genuine envelope of the configured account, owner and conversation is stored, once. */
  method AcceptEvidence(repository: Tables.InteractionRepository, wire: string, parse: Parser,
                        name: Issuer.EvidenceId -> Id, trusted: set<Issuer.KeyId>, configured: Issuer.Bindings, now: Time)
    returns (r: Acceptance)
    modifies repository`evidence
    ensures r.EvidenceAccepted? <==>
              && parse(wire).Some? && parse(wire).value.content.issuer in trusted
              && parse(wire).value.signature == Issuer.Signature(parse(wire).value.content.issuer, parse(wire).value.content)
              && parse(wire).value.content.bindings == configured
              && var id := name(parse(wire).value.content.id);
              (id in old(repository.evidence) ==> old(repository.evidence)[id].payload == wire)
    ensures !r.EvidenceAccepted? ==> repository.evidence == old(repository.evidence)
    ensures r.EvidenceAccepted? ==>
              var id := name(parse(wire).value.content.id);
              repository.evidence == if id in old(repository.evidence) then old(repository.evidence)
                                     else old(repository.evidence)[id := EvidenceRow(wire, now, 1, None)]
  {
    var parsed := parse(wire);
    if parsed == None {
      return SignatureInvalid;
    }
    var envelope := parsed.value;
    if envelope.content.issuer !in trusted
       || envelope.signature != Issuer.Signature(envelope.content.issuer, envelope.content) {
      return SignatureInvalid;
    }
    if envelope.content.bindings != configured {
      return BindingDenied;
    }
    var stored := repository.StoreEvidence(name(envelope.content.id), wire, now);
    return if stored.Ok? then EvidenceAccepted else AlreadyKnownOtherwise;
  }

  // ---------- putting up a challenge ----------

  /** The challenge that `preview` puts up, with its times. */
  function NewChallenge(i: Id, p: Preview, interactionRevision: nat, text: string, now: Time): ChallengeRow {
    var created := if now <= p.created then p.created + 1 else now;
    ChallengeRow(i, p.id, p.revision, interactionRevision, text, created,
                 InteractionDecisions.Min(p.expires, created + CHALLENGE_TTL), true)
  }

  /** A challenge begins now, or just after its Preview if the clock does not show that yet; and it ends with its
      Preview, or five minutes after it began if that is sooner. */
  lemma ChallengeFitsPreview(i: Id, p: Preview, interactionRevision: nat, text: string, now: Time)
    ensures var h := NewChallenge(i, p, interactionRevision, text, now);
            && h.active && h.text == text && h.interactionId == i && h.interactionRevision == interactionRevision
            && h.previewId == p.id && h.previewRevision == p.revision
            && (now > p.created ==> h.created == now) && (now <= p.created ==> h.created == p.created + 1)
            && (h.created + 300_000_000 <= p.expires ==> h.expires == h.created + 300_000_000)
            && (h.created + 300_000_000 > p.expires ==> h.expires == p.expires)
  {
  }

  // ---------- the checks of confirm ----------

  datatype PilotRequest = PilotRequest(interactionId: Id, expected: nat, evidenceId: Id, text: string)

  /** What confirm is configured with: the parser, the normalisation of message texts, and the bindings. */
  datatype Setting = Setting(parse: Parser, normalize: string -> string, configured: Issuer.Bindings)

  /** The checks on what is stored, for the challenge that was read. */
  predicate Matches(s: Store, q: PilotRequest, challengeId: Id, k: Setting) {
    && q.interactionId in s.aggregates && q.evidenceId in s.evidence && challengeId in s.challenges
    && var a, r, h := s.aggregates[q.interactionId], s.evidence[q.evidenceId], s.challenges[challengeId];
    && a.record.state.AwaitingConfirmation? && a.record.revision == q.expected && HasPreview(a)
    && r.consumed.None? && h.active
    && k.parse(r.payload).Some?
    && var p, e := CurrentPreview(a), k.parse(r.payload).value;
    && e.signature == Issuer.Signature(e.content.issuer, e.content) && e.content.bindings == k.configured
    && h.interactionId == q.interactionId && h.previewId == a.record.previewId.value
    && h.previewRevision == p.revision && h.interactionRevision == q.expected
    && p.created < e.content.received && p.created < r.accepted && p.created < h.created
    && q.text == h.text && k.normalize(q.text) == e.content.text
  }

  /** The checks that hold only when they are made: the key is trusted, nothing has expired, and no newer challenge
      was put up for the Preview. */
  ghost predicate Momentary(s: Store, site: Issuer.Site, q: PilotRequest, challengeId: Id, k: Setting, now: Time)
    requires Matches(s, q, challengeId, k)
  {
    var h, e := s.challenges[challengeId], k.parse(s.evidence[q.evidenceId].payload).value;
    && Issuer.Verifies(site, e)
    && now < e.content.expires && now < h.expires
    && forall id | id in s.challenges && s.challenges[id].interactionId == q.interactionId
                   && s.challenges[id].previewId == h.previewId :: s.challenges[id].created <= h.created
  }

  /** What confirm asks to be spent, with the revisions it read. */
  function Spending(s: Store, q: PilotRequest, challengeId: Id): Consumption
    requires q.interactionId in s.aggregates && HasPreview(s.aggregates[q.interactionId]) && q.evidenceId in s.evidence
  {
    var a := s.aggregates[q.interactionId];
    Consumption(q.evidenceId, s.evidence[q.evidenceId].revision, challengeId,
                a.record.previewId.value, CurrentPreview(a).revision)
  }

  // ---------- evidence and challenges over time ----------

  predicate RowPersists(r: EvidenceRow, t: EvidenceRow) {
    t.payload == r.payload && t.accepted == r.accepted && r.revision <= t.revision && (r.revision == t.revision ==> t == r)
  }

  /** No evidence row or challenge is lost; evidence changes only together with its revision, a challenge only by
      being answered. */
  predicate SpendingPersists(s: Store, t: Store) {
    && (forall id | id in s.evidence :: id in t.evidence && RowPersists(s.evidence[id], t.evidence[id]))
    && (forall id | id in s.challenges ::
          id in t.challenges && t.challenges[id].(active := s.challenges[id].active) == s.challenges[id])
  }

  lemma CommitPersists(w: World, n: nat, env: Env)
    requires n in w.calls && w.calls[n].pc.Working?
    ensures SpendingPersists(w.store, CommitStep(w, n, env).store)
  {
    hide Decide, AfterCommit;
  }

  lemma StepPersists(w: World, step: Step)
    requires Enabled(w, step)
    ensures SpendingPersists(w.store, Next(w, step).store)
  {
    hide CommitStep, AfterReadRow, AfterReadRecord, AfterReadFact, NewEverywhere, Needs;
    if step.Commits? {
      CommitPersists(w, step.call, step.env);
    }
  }

  lemma {:induction false} RunPersists(w: World, steps: seq<Step>)
    requires Valid(w, steps)
    ensures SpendingPersists(w.store, Run(w, steps).store)
    decreases |steps|
  {
    hide Enabled, Next;
    if steps == [] {
    } else {
      StepPersists(w, steps[0]);
      RunPersists(Next(w, steps[0]), steps[1..]);
    }
  }

  /** A commit that spends what was read finds interaction, evidence and challenge as they were read. */
  lemma ReadRowsAreCurrent(s: Store, t: Store, q: PilotRequest, challengeId: Id, k: Setting, c: Commit)
    requires Matches(s, q, challengeId, k) && SpendingPersists(s, t)
    requires q.interactionId in t.aggregates
    requires Advances(s.aggregates[q.interactionId], t.aggregates[q.interactionId])
    requires c.consumption == Some(Spending(s, q, challengeId))
    requires c.next.id == q.interactionId && c.expected == q.expected && Committable(t, c)
    ensures q.evidenceId in t.evidence && challengeId in t.challenges
    ensures t.aggregates[q.interactionId] == s.aggregates[q.interactionId]
    ensures t.evidence[q.evidenceId] == s.evidence[q.evidenceId]
    ensures t.challenges[challengeId] == s.challenges[challengeId]
  {
    hide HasPreview, CurrentPreview, FactsKept;
    assert RowPersists(s.evidence[q.evidenceId], t.evidence[q.evidenceId]);
  }

  lemma PersistsOverRun(w: World, steps: seq<Step>, i: Id)
    requires Inv(w) && Valid(w, steps) && i in w.store.aggregates
    ensures var t := Run(w, steps).store;
            SpendingPersists(w.store, t) && i in t.aggregates && Advances(w.store.aggregates[i], t.aggregates[i])
  {
    hide Inv, Enabled, Next, SpendingPersists, Advances;
    RunAdvances(w, steps);
    RunPersists(w, steps);
  }

  lemma MatchesAlike(s: Store, t: Store, q: PilotRequest, challengeId: Id, k: Setting)
    requires Matches(s, q, challengeId, k)
    requires q.interactionId in t.aggregates && t.aggregates[q.interactionId] == s.aggregates[q.interactionId]
    requires q.evidenceId in t.evidence && t.evidence[q.evidenceId] == s.evidence[q.evidenceId]
    requires challengeId in t.challenges && t.challenges[challengeId] == s.challenges[challengeId]
    ensures Matches(t, q, challengeId, k)
  {
  }

  lemma MatchesHere(s: Store, q: PilotRequest, challengeId: Id, k: Setting)
    requires Matches(s, q, challengeId, k)
    ensures q.interactionId in s.aggregates && HasPreview(s.aggregates[q.interactionId])
    ensures q.evidenceId in s.evidence && challengeId in s.challenges
  {
  }

  /** Between the reads of confirm and its commit anything may happen; but if the commit wins, every check it made
      on what is stored is true of what is stored then. */
  lemma ChecksHoldAtCommit(w: World, steps: seq<Step>, q: PilotRequest, challengeId: Id, k: Setting, c: Commit)
    requires Inv(w) && Valid(w, steps)
    requires Matches(w.store, q, challengeId, k)
    requires c.consumption == Some(Spending(w.store, q, challengeId))
    requires c.next.id == q.interactionId && c.expected == q.expected && Committable(Run(w, steps).store, c)
    ensures Matches(Run(w, steps).store, q, challengeId, k)
  {
    hide Inv, Valid, Run, Enabled, Next, Matches, HasPreview, Advances, SpendingPersists, Committable, Spending;
    MatchesHere(w.store, q, challengeId, k);
    PersistsOverRun(w, steps, q.interactionId);
    ReadRowsAreCurrent(w.store, Run(w, steps).store, q, challengeId, k, c);
    MatchesAlike(w.store, Run(w, steps).store, q, challengeId, k);
  }

  /** A challenge as `preview` puts it up, answered in time, is answered before its Preview expires. */
  lemma TimelyMeansUnexpired(s: Store, site: Issuer.Site, q: PilotRequest, challengeId: Id, k: Setting, now: Time,
                             p: Preview, put: Time)
    requires Matches(s, q, challengeId, k) && Momentary(s, site, q, challengeId, k, now)
    requires p == CurrentPreview(s.aggregates[q.interactionId])
    requires s.challenges[challengeId] == NewChallenge(q.interactionId, p, q.expected, q.text, put)
    ensures now < p.expires
    ensures now < s.challenges[challengeId].created + CHALLENGE_TTL
  {
    ChallengeFitsPreview(q.interactionId, p, q.expected, q.text, put);
  }

  /** That no newer challenge exists is true only when it is checked: one that is put up before the commit leaves
      the commit as possible as before. */
  lemma NewestIsMomentary(w: World, site: Issuer.Site, q: PilotRequest, challengeId: Id, k: Setting, now: Time,
                          id: Id, c: Commit)
    requires Matches(w.store, q, challengeId, k) && Momentary(w.store, site, q, challengeId, k, now)
    requires id !in w.store.challenges && Committable(w.store, c)
    ensures var h := w.store.challenges[challengeId];
            var u := Next(w, Challenge(id, h.(created := h.created + 1)));
            && Matches(u.store, q, challengeId, k) && Committable(u.store, c)
            && !Momentary(u.store, site, q, challengeId, k, now)
  {
    var h := w.store.challenges[challengeId];
    var u := Next(w, Challenge(id, h.(created := h.created + 1)));
    hide CommitStep, AfterReadRow, AfterReadRecord, AfterReadFact, OpenStep, Issuer.Verifies;
    assert u.store.challenges[id].created > u.store.challenges[challengeId].created;
  }

  /** The confirmation that commits spends evidence of a message that came from the configured owner after the
      Preview was made, and whose text is the answer asked for by the challenge it spends; both are used up for
      exactly this Preview. */
  lemma ConfirmedByTheOwnersMessage(w: World, steps: seq<Step>, q: PilotRequest, challengeId: Id, k: Setting, c: Commit)
    requires Inv(w) && Valid(w, steps)
    requires Matches(w.store, q, challengeId, k)
    requires c.consumption == Some(Spending(w.store, q, challengeId))
    requires c.next.id == q.interactionId && c.expected == q.expected && Committable(Run(w, steps).store, c)
    ensures var t, u := Run(w, steps).store, Written(Run(w, steps).store, c);
            && q.evidenceId in u.evidence && challengeId in u.challenges && q.interactionId in t.aggregates
            && HasPreview(t.aggregates[q.interactionId])
            && var p, r, h := CurrentPreview(t.aggregates[q.interactionId]), u.evidence[q.evidenceId],
                              u.challenges[challengeId];
            && r.consumed == Some((q.interactionId, t.aggregates[q.interactionId].record.previewId.value, p.revision))
            && !h.active
            && k.parse(r.payload).Some?
            && var m := k.parse(r.payload).value.content;
            && m.bindings == k.configured && m.text == k.normalize(h.text)
            && p.created < m.received && p.created < r.accepted && p.created < h.created
  {
    ChecksHoldAtCommit(w, steps, q, challengeId, k, c);
    hide Inv, Valid, Run, HasPreview, CurrentPreview, SpendingPersists;
  }

  // ---------- the owner's answer ----------

  /** The situation in which the owner's message is the answer to the challenge put up for the current Preview: the
      evidence of it is a genuine envelope, unused, and no newer challenge was put up. */
  ghost predicate OwnersAnswer(s: Store, site: Issuer.Site, q: PilotRequest, challengeId: Id, k: Setting,
                               p: Preview, put: Time, issuer: Issuer.KeyId, m: Issuer.Message, received: Time) {
    && q.interactionId in s.aggregates && q.evidenceId in s.evidence && challengeId in s.challenges
    && var a, r := s.aggregates[q.interactionId], s.evidence[q.evidenceId];
    && a.record.state.AwaitingConfirmation? && a.record.revision == q.expected
    && HasPreview(a) && CurrentPreview(a) == p && a.record.previewId == Some(p.id)
    && s.challenges[challengeId] == NewChallenge(q.interactionId, p, q.expected, q.text, put)
    && (forall id | id in s.challenges && s.challenges[id].interactionId == q.interactionId
                    && s.challenges[id].previewId == p.id :: s.challenges[id].created <= s.challenges[challengeId].created)
    && r.consumed.None?
    && k.parse(r.payload) == Some(Issuer.Signed(issuer, m, received))
    && Issuer.Verifies(site, Issuer.Signed(issuer, m, received))
    && m.bindings == k.configured && m.text == k.normalize(q.text)
  }

  /** The message came, and was accepted, after the Preview was made, and five minutes have not passed since it came
      nor since the challenge began, nor the Preview's own time. */
  predicate InTime(p: Preview, put: Time, received: Time, accepted: Time, now: Time) {
    && p.created < received && p.created < accepted
    && now < received + 300_000_000
    && now < (if put > p.created then put else p.created + 1) + 300_000_000
    && now < p.expires
  }

  /** Such an answer passes all checks exactly when it is in time. */
  lemma OwnersAnswerPassesInTime(s: Store, site: Issuer.Site, q: PilotRequest, challengeId: Id, k: Setting, p: Preview,
                                 put: Time, issuer: Issuer.KeyId, m: Issuer.Message, received: Time, now: Time)
    requires OwnersAnswer(s, site, q, challengeId, k, p, put, issuer, m, received)
    ensures InTime(p, put, received, s.evidence[q.evidenceId].accepted, now) <==>
              Matches(s, q, challengeId, k) && Momentary(s, site, q, challengeId, k, now)
  {
    ChallengeFitsPreview(q.interactionId, p, q.expected, q.text, put);
    hide NewChallenge, Issuer.Verifies;
  }

  /** The request `confirm` makes of the lifecycle for it. */
  predicate ConfirmsSo(r: Request, s: Store, q: PilotRequest, challengeId: Id, p: Preview)
    requires q.evidenceId in s.evidence
  {
    && r.interactionId == q.interactionId && r.expected == q.expected && r.actor == p.actor
    && r.action.ConfirmAction? && r.action.previewId == p.id && r.action.previewRevision == p.revision
    && r.action.ttl > 0
    && r.action.spend == Some((q.evidenceId, s.evidence[q.evidenceId].revision, challengeId))
  }

  /** And then, undisturbed, it confirms the Preview. */
  lemma OwnersAnswerConfirms(w: World, n: nat, r: Request, env: Env, site: Issuer.Site, q: PilotRequest, challengeId: Id,
                             k: Setting, p: Preview, put: Time, issuer: Issuer.KeyId, m: Issuer.Message, received: Time)
    returns (v: World)
    requires OwnersAnswer(w.store, site, q, challengeId, k, p, put, issuer, m, received) && p.status.Active?
    requires InTime(p, put, received, w.store.evidence[q.evidenceId].accepted, env.now)
    requires Asked(w, n, r, env) && ConfirmsSo(r, w.store, q, challengeId, p)
    ensures Alone(w, n, v) && Answered(w, n, v, FactAnswer(env.id0))
  {
    CurrentIsNamed(w, n, r, env);
    hide Alone, Asked, Became, Inv;
    v := ConfirmAnswers(w, n, r, env);
  }

  lemma CurrentIsNamed(w: World, n: nat, r: Request, env: Env)
    requires Asked(w, n, r, env)
    ensures r.interactionId in w.store.aggregates
    ensures var a := w.store.aggregates[r.interactionId];
            HasPreview(a) ==> CurrentPreview(a).id == a.record.previewId.value
  {
    Here(w, n, r, env);
    hide Inv, PreviewsNumbered, Trailed, Bound;
    var a := w.store.aggregates[r.interactionId];
    if HasPreview(a) { assert FactId(a.facts[a.record.previewId.value]) == a.record.previewId.value; }
  }
}
