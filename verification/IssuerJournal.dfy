/** The evidence issuer: length-prefixed identities, the issuance journal, key rotation, and the projection of
    public keys to the verifier. Signatures are Ed25519 (section 5.1 of RFC 8032) over canonical JSON (section
    3.2 of RFC 8785); here a signature is the pair of its key and the content it was made over. */
module IssuerJournal {
  import opened Basics
  import opened Texts

  // ---------- identities ----------

  type Bytes = seq<int>

  const LENGTH_LIMIT := 0x1_0000_0000

  /** `struct.pack(">I", n)`. */
  function Pack(n: nat): Bytes {
    [n / 0x1_000000, n / 0x1_0000 % 0x100, n / 0x100 % 0x100, n % 0x100]
  }

  /** `_lp`: the length as four bytes, then the text. Its code points stand in for UTF-8: all that matters is that
      equal encodings mean equal texts. */
  function LengthPrefixed(s: string): Bytes {
    Pack(|s|) + CodePoints(s)
  }

  function Framed(fields: seq<string>): Bytes {
    if fields == [] then [] else LengthPrefixed(fields[0]) + Framed(fields[1..])
  }

  predicate Packable(fields: seq<string>) {
    forall f | f in fields :: |f| < LENGTH_LIMIT
  }

  lemma PackTellsTheLength(m: nat, n: nat)
    requires m < LENGTH_LIMIT && n < LENGTH_LIMIT && Pack(m) == Pack(n)
    ensures m == n
  {
    var a, b := Pack(m), Pack(n);
    assert a[0] == b[0] && a[1] == b[1] && a[2] == b[2] && a[3] == b[3];
    Bytewise(m);
    Bytewise(n);
  }

  lemma Bytewise(n: nat)
    ensures n == n / 0x1_000000 * 0x1_000000 + n / 0x1_0000 % 0x100 * 0x1_0000 + n / 0x100 % 0x100 * 0x100 + n % 0x100
  {
    var a, b, c := n / 0x100, n / 0x1_0000, n / 0x1_000000;
    assert n == a * 0x100 + n % 0x100;
    assert a == b * 0x100 + a % 0x100 by { OneByteDown(n, 0x100); }
    assert b == c * 0x100 + b % 0x100 by { OneByteDown(n, 0x1_0000); }
  }

  lemma OneByteDown(n: nat, k: nat)
    requires k == 0x100 || k == 0x1_0000
    ensures n / k / 0x100 == n / (k * 0x100)
  {
    var q := n / k / 0x100;
    assert n / k == q * 0x100 + n / k % 0x100 && n == n / k * k + n % k;
  }

  lemma PrefixTellsTheText(s: string, t: string, u: Bytes, v: Bytes)
    requires |s| < LENGTH_LIMIT && |t| < LENGTH_LIMIT
    requires LengthPrefixed(s) + u == LengthPrefixed(t) + v
    ensures s == t && u == v
  {
    var x, y := LengthPrefixed(s) + u, LengthPrefixed(t) + v;
    assert x[..4] == Pack(|s|) && y[..4] == Pack(|t|);
    PackTellsTheLength(|s|, |t|);
    assert x[4..][..|s|] == CodePoints(s) && y[4..][..|t|] == CodePoints(t);
    CodePointsTellTheText(s, t);
    assert x[4..][|s|..] == u && y[4..][|t|..] == v;
  }

  /** Length prefixes keep fields apart: equal framings of equally many fields have equal fields. */
  lemma {:induction false} FramedIsInjective(a: seq<string>, b: seq<string>)
    requires |a| == |b| && Packable(a) && Packable(b) && Framed(a) == Framed(b)
    ensures a == b
  {
    if a == [] {
    } else {
      PrefixTellsTheText(a[0], b[0], Framed(a[1..]), Framed(b[1..]));
      FramedIsInjective(a[1..], b[1..]);
      assert a == [a[0]] + a[1..] && b == [b[0]] + b[1..];
    }
  }

  const CHANNEL := "wecom"

  /** Five minutes in microseconds; an issuing clock reading is cut to whole milliseconds before it is used. */
  const TTL := 300_000_000

  datatype Bindings = Bindings(account: string, owner: string, conversation: string)

  /** The keyed hash of the framed fields; two identities agree exactly when what is hashed does. */
  datatype EvidenceId = EvidenceId(material: Bytes)

  function Fields(b: Bindings, message: string): seq<string> {
    [CHANNEL, b.account, b.owner, b.conversation, message]
  }

  /** `evidence_id`. */
  function IdentityOf(b: Bindings, message: string): EvidenceId {
    EvidenceId(Framed(Fields(b, message)))
  }

  /** One identity, one message of one account, owner and conversation. */
  lemma IdentityNamesOneMessage(b: Bindings, m: string, c: Bindings, n: string)
    requires Packable(Fields(b, m)) && Packable(Fields(c, n))
    ensures IdentityOf(b, m) == IdentityOf(c, n) <==> b == c && m == n
  {
    if IdentityOf(b, m) == IdentityOf(c, n) {
      FramedIsInjective(Fields(b, m), Fields(c, n));
      var x, y := Fields(b, m), Fields(c, n);
      assert x[1] == y[1] && x[2] == y[2] && x[3] == y[3] && x[4] == y[4];
    }
  }

  // ---------- envelopes ----------

  type KeyId = string

  datatype Unsigned = Unsigned(
    id: EvidenceId, issuer: KeyId, bindings: Bindings, received: Time, expires: Time, text: string)

  datatype Signature = Signature(signer: KeyId, content: Unsigned)

  datatype Envelope = Envelope(content: Unsigned, signature: Signature)

  /** The content a row stands for; the text is the normalised message text. */
  datatype Payload = Payload(bindings: Bindings, text: string)

  datatype Row = Row(envelope: Envelope, payload: Payload)

  /** A message as it arrives at `issue`. */
  datatype Message = Message(bindings: Bindings, id: string, text: string)

  datatype IssueError = EventIdUnavailable | IdentityConflict

  datatype Issued = Granted(envelope: Envelope) | Denied(error: IssueError)

  function Signed(k: KeyId, m: Message, now: Time): Envelope {
    var content := Unsigned(IdentityOf(m.bindings, m.id), k, m.bindings, now, now + TTL, m.text);
    Envelope(content, Signature(k, content))
  }

  type Journal = map<EvidenceId, Row>

  function Answer(j: Journal, k: KeyId, m: Message, now: Time): Issued {
    var id := IdentityOf(m.bindings, m.id);
    if Blank(m.id) then Denied(EventIdUnavailable)
    else if id !in j then Granted(Signed(k, m, now))
    else if j[id].payload != Payload(m.bindings, m.text) then Denied(IdentityConflict)
    else Granted(j[id].envelope)
  }

  function Entered(j: Journal, k: KeyId, m: Message, now: Time): Journal {
    var id := IdentityOf(m.bindings, m.id);
    if Blank(m.id) || id in j then j else j[id := Row(Signed(k, m, now), Payload(m.bindings, m.text))]
  }

  // ---------- the key files ----------

  /** What is on disk: the issuer's signing keys, its active key and journal; the verifier's public keys and
      trusted ids. `started` is false until the first bootstrap has chosen a key. */
  datatype Disk = Disk(
    started: bool, keys: set<KeyId>, active: KeyId, journal: Journal, published: set<KeyId>, trusted: set<KeyId>)

  /** The one operation on the key files that may be under way. A rotation goes through writing the key,
      making it active, and the two writes of the projection. */
  datatype Task =
    | Idle
    | Publishing(key: KeyId)
    | Trusting(key: KeyId)
    | Activating(key: KeyId)

  /** The issuer objects callers hold, by the key each has in memory, and the verifier's loaded keys. Bootstrap
      and rotation hand out their object only after its key was projected. */
  datatype Site = Site(disk: Disk, task: Task, live: set<KeyId>, loaded: set<KeyId>)

  const EMPTY_SITE := Site(Disk(false, {}, "", map[], {}, {}), Idle, {}, {})

  datatype Step =
    | FirstStart(key: KeyId)                     // bootstrap on empty roots, up to the projection
    | Restart                                    // bootstrap again: load the active key, then project it
    | PlainStart                                 // the issuer process: load the active key, project nothing
    | Issue(key: KeyId, message: Message, now: Time)
    | Rotate(key: KeyId)                         // a new key pair is written
    | Continue                                   // the operation under way makes its next write
    | Refuse                                     // the projection finds the verifier's files in conflict and gives up
    | Crash
    | Reload                                     // the verifier reads its projection

  predicate Enabled(s: Site, t: Step) {
    match t
    case FirstStart(k) => !s.disk.started && s.task.Idle? && k !in s.disk.keys
    case Restart => s.disk.started && s.task.Idle?
    case PlainStart => s.disk.started && s.task.Idle?
    case Issue(k, _, _) => k in s.live
    case Rotate(k) => s.disk.started && s.task.Idle? && s.live != {} && k !in s.disk.keys
    case Continue => !s.task.Idle?
    case Refuse => s.task.Publishing?
    case Crash => true
    case Reload => true
  }

  function Continued(s: Site): Site {
    match s.task
    case Idle => s
    case Activating(k) => s.(disk := s.disk.(active := k), task := Publishing(k))
    case Publishing(k) => s.(disk := s.disk.(published := s.disk.published + {k}), task := Trusting(k))
    case Trusting(k) => s.(disk := s.disk.(trusted := s.disk.trusted + {k}), task := Idle, live := s.live + {k})
  }

  function Next(s: Site, t: Step): Site
    requires Enabled(s, t)
  {
    match t
    case FirstStart(k) =>
      s.(disk := s.disk.(started := true, keys := s.disk.keys + {k}, active := k), task := Publishing(k))
    case Restart => s.(task := Publishing(s.disk.active))
    case PlainStart => s.(live := s.live + {s.disk.active})
    case Issue(k, m, now) => s.(disk := s.disk.(journal := Entered(s.disk.journal, k, m, now)))
    case Rotate(k) => s.(disk := s.disk.(keys := s.disk.keys + {k}), task := Activating(k))
    case Continue => Continued(s)
    case Refuse => s.(task := Idle)
    case Crash => s.(task := Idle, live := {}, loaded := {})
    case Reload => s.(loaded := s.disk.trusted)
  }

  predicate Valid(s: Site, steps: seq<Step>)
    decreases |steps|
  {
    steps == [] || (Enabled(s, steps[0]) && Valid(Next(s, steps[0]), steps[1..]))
  }

  function Run(s: Site, steps: seq<Step>): Site
    requires Valid(s, steps)
    decreases |steps|
  {
    if steps == [] then s else Run(Next(s, steps[0]), steps[1..])
  }

  ghost predicate Reachable(s: Site) {
    exists steps: seq<Step> :: Valid(EMPTY_SITE, steps) && Run(EMPTY_SITE, steps) == s
  }

  /** `verify`: the signature checks under the key it names, and that key is trusted, after a reload if need be. */
  predicate Verifies(s: Site, e: Envelope) {
    && e.signature == Signature(e.content.issuer, e.content)
    && (e.content.issuer in s.loaded || e.content.issuer in s.disk.trusted)
  }

  // ---------- what every step keeps ----------

  predicate RowOk(d: Disk, id: EvidenceId)
    requires id in d.journal
  {
    var e := d.journal[id].envelope;
    && e.content.id == id && e.content.issuer in d.keys
    && e.signature == Signature(e.content.issuer, e.content)
    && e.content.expires == e.content.received + TTL
    && d.journal[id].payload == Payload(e.content.bindings, e.content.text)
  }

  ghost predicate Sound(s: Site) {
    && (forall id | id in s.disk.journal :: RowOk(s.disk, id))
    && s.disk.trusted <= s.disk.published <= s.disk.keys
    && s.loaded <= s.disk.trusted
    && s.live <= s.disk.keys
    && (s.disk.started ==> s.disk.active in s.disk.keys)
    && (!s.disk.started ==> s.live == {} && s.task.Idle? && s.disk.keys == {})
    && (!s.task.Idle? ==> s.task.key in s.disk.keys)
    && (s.task.Trusting? ==> s.task.key in s.disk.published)
  }

  /** Keys and trust are only added to, and a journal row is never changed. */
  ghost predicate Grows(s: Site, u: Site) {
    && s.disk.keys <= u.disk.keys && s.disk.published <= u.disk.published && s.disk.trusted <= u.disk.trusted
    && forall id | id in s.disk.journal :: id in u.disk.journal && u.disk.journal[id] == s.disk.journal[id]
  }

  lemma StepKeeps(s: Site, t: Step)
    requires Sound(s) && Enabled(s, t)
    ensures Sound(Next(s, t)) && Grows(s, Next(s, t))
  {
    var u := Next(s, t);
    forall id | id in u.disk.journal
      ensures RowOk(u.disk, id)
    {
      if id in s.disk.journal { assert RowOk(s.disk, id); }
    }
  }

  lemma {:induction false} RunKeeps(s: Site, steps: seq<Step>)
    requires Sound(s) && Valid(s, steps)
    ensures Sound(Run(s, steps)) && Grows(s, Run(s, steps))
    decreases |steps|
  {
    hide Sound, Next, Enabled;
    if steps == [] {
    } else {
      StepKeeps(s, steps[0]);
      RunKeeps(Next(s, steps[0]), steps[1..]);
    }
  }

  lemma ReachableOk(s: Site)
    requires Reachable(s)
    ensures Sound(s)
  {
    var steps: seq<Step> :| Valid(EMPTY_SITE, steps) && Run(EMPTY_SITE, steps) == s;
    RunKeeps(EMPTY_SITE, steps);
  }

  // ---------- stable issuance ----------

  /** Once evidence was issued, then after any restarts, rotations and crashes, and by whichever key is asked,
      the same message gets the same envelope, and another text under its identity is refused; neither changes
      the journal. */
  lemma IssuanceIsStable(s: Site, k: KeyId, m: Message, now: Time, steps: seq<Step>, j: KeyId, n: Message, later: Time)
    requires Reachable(s) && Enabled(s, Issue(k, m, now)) && Valid(Next(s, Issue(k, m, now)), steps)
    requires Answer(s.disk.journal, k, m, now).Granted? && n.bindings == m.bindings && n.id == m.id
    ensures var u := Run(Next(s, Issue(k, m, now)), steps);
            && Answer(u.disk.journal, j, n, later)
               == (if n.text == m.text then Answer(s.disk.journal, k, m, now) else Denied(IdentityConflict))
            && Entered(u.disk.journal, j, n, later) == u.disk.journal
  {
    ReachableOk(s);
    var v := Next(s, Issue(k, m, now));
    StepKeeps(s, Issue(k, m, now));
    RunKeeps(v, steps);
    hide Sound, Valid, Run;
    var id := IdentityOf(m.bindings, m.id);
    assert id in v.disk.journal && v.disk.journal[id].payload == Payload(m.bindings, m.text);
  }

  /** An envelope is handed out for every message with an id, unless its identity stands for another text; it tells
      the message it is for, and its own times, five minutes apart to the microsecond, and key say when and by whom
      it was first issued: now and by the key asked, if it is new. */
  lemma GrantedEnvelopeIsTheMessages(s: Site, k: KeyId, m: Message, now: Time)
    requires Reachable(s) && k in s.live
    ensures var answer, id := Answer(s.disk.journal, k, m, now), IdentityOf(m.bindings, m.id);
            && (answer == Denied(EventIdUnavailable) <==> Blank(m.id))
            && (answer == Denied(IdentityConflict) <==>
                  !Blank(m.id) && id in s.disk.journal && s.disk.journal[id].payload != Payload(m.bindings, m.text))
            && (answer.Granted? ==>
                  var e := answer.envelope;
                  && e.content.id == id && e.content.bindings == m.bindings
                  && e.content.text == m.text && e.content.expires == e.content.received + 300_000_000
                  && e.signature == Signature(e.content.issuer, e.content) && e.content.issuer in s.disk.keys
                  && (id in s.disk.journal ==> e == s.disk.journal[id].envelope)
                  && (id !in s.disk.journal ==> e.content.received == now && e.content.issuer == k))
  {
    ReachableOk(s);
    var id := IdentityOf(m.bindings, m.id);
    if id in s.disk.journal { assert RowOk(s.disk, id); }
  }

  // ---------- verification ----------

  /** A journaled envelope verifies exactly when the key that issued it has been projected, and once it does it
      does for good. */
  lemma VerifiesIffProjected(s: Site, steps: seq<Step>, id: EvidenceId)
    requires Reachable(s) && Valid(s, steps) && id in s.disk.journal
    ensures var e := s.disk.journal[id].envelope;
            && (Verifies(s, e) <==> e.content.issuer in s.disk.trusted)
            && (Verifies(s, e) ==> Verifies(Run(s, steps), e))
  {
    ReachableOk(s);
    assert RowOk(s.disk, id);
    RunKeeps(s, steps);
  }

  /** A start that projects nothing is careful when the active key has been projected already, which a caller
      can see in the verifier's file. */
  predicate Careful(s: Site, t: Step) {
    t.PlainStart? ==> s.disk.active in s.disk.trusted
  }

  predicate CarefulRun(s: Site, steps: seq<Step>)
    requires Valid(s, steps)
    decreases |steps|
  {
    steps == [] || (Careful(s, steps[0]) && CarefulRun(Next(s, steps[0]), steps[1..]))
  }

  /** Every key a caller can issue with is trusted, and so is every key the journal was signed with. */
  ghost predicate AllTrusted(s: Site) {
    && (forall id | id in s.disk.journal :: s.disk.journal[id].envelope.content.issuer in s.disk.trusted)
    && s.live <= s.disk.trusted
  }

  lemma CarefulStep(s: Site, t: Step)
    requires Sound(s) && AllTrusted(s) && Enabled(s, t) && Careful(s, t)
    ensures AllTrusted(Next(s, t))
  {
  }

  lemma {:induction false} CarefulRunKeeps(s: Site, steps: seq<Step>)
    requires Sound(s) && AllTrusted(s) && Valid(s, steps) && CarefulRun(s, steps)
    ensures AllTrusted(Run(s, steps))
    decreases |steps|
  {
    hide Sound, AllTrusted, Next, Enabled;
    if steps == [] {
    } else {
      StepKeeps(s, steps[0]);
      CarefulStep(s, steps[0]);
      CarefulRunKeeps(Next(s, steps[0]), steps[1..]);
    }
  }

  /** Over every careful run every journaled envelope verifies, whatever was rotated, restarted or interrupted. */
  lemma JournalAlwaysVerifies(steps: seq<Step>, id: EvidenceId)
    requires Valid(EMPTY_SITE, steps) && CarefulRun(EMPTY_SITE, steps)
    requires id in Run(EMPTY_SITE, steps).disk.journal
    ensures Verifies(Run(EMPTY_SITE, steps), Run(EMPTY_SITE, steps).disk.journal[id].envelope)
  {
    RunKeeps(EMPTY_SITE, steps);
    CarefulRunKeeps(EMPTY_SITE, steps);
    assert RowOk(Run(EMPTY_SITE, steps).disk, id);
  }

  const SOME_MESSAGE := Message(Bindings("a", "o", "c"), "m", "hello")

  function Interrupted(): seq<Step> {
    [FirstStart("k1"), Continue, Continue, Rotate("k2"), Continue, Crash, PlainStart, Issue("k2", SOME_MESSAGE, 0)]
  }

  function AfterCrash(): Site {
    Site(Disk(true, {"k1", "k2"}, "k2", map[], {"k1"}, {"k1"}), Idle, {}, {})
  }

  lemma CrashBetweenActivationAndProjection()
    ensures Valid(EMPTY_SITE, Interrupted()[..6]) && Run(EMPTY_SITE, Interrupted()[..6]) == AfterCrash()
  {
    var s1 := Next(EMPTY_SITE, FirstStart("k1"));
    var s3 := Next(Next(s1, Continue), Continue);
    var s6 := Next(Next(Next(s3, Rotate("k2")), Continue), Crash);
    assert s6.disk.keys == {"k1", "k2"} && s6.disk.published == {"k1"} && s6.disk.trusted == {"k1"};
    var steps := Interrupted()[..6];
    assert steps[1..][0] == Continue && steps[1..][1..][0] == Continue && steps[1..][1..][1..][0] == Rotate("k2");
    assert steps[1..][1..][1..][1..] == [Continue, Crash];
    TwoSteps(Next(s3, Rotate("k2")), Continue, Crash);
  }

  lemma TwoSteps(s: Site, t: Step, u: Step)
    requires Enabled(s, t) && Enabled(Next(s, t), u)
    ensures Valid(s, [t, u]) && Run(s, [t, u]) == Next(Next(s, t), u)
  {
    var v := Next(s, t);
    assert [u][1..] == [] && [t, u][1..] == [u];
    assert Valid(Next(v, u), []) && Valid(v, [u]) && Run(v, [u]) == Run(Next(v, u), []);
  }

  /** A start that projects, whether the first or a later one, ends with the active key published, trusted and in
      use, unless it is interrupted or refused. */
  lemma StartsProject(s: Site, k: KeyId)
    requires s.task.Idle? && (if s.disk.started then k == s.disk.active else k !in s.disk.keys)
    ensures var steps := [if s.disk.started then Restart else FirstStart(k), Continue, Continue];
            && Valid(s, steps)
            && var u := Run(s, steps);
            && u.task.Idle? && u.disk.started && u.disk.active == k && u.live == s.live + {k}
            && u.disk.published == s.disk.published + {k} && u.disk.trusted == s.disk.trusted + {k}
            && u.disk.journal == s.disk.journal
  {
    var first := if s.disk.started then Restart else FirstStart(k);
    var u := Next(s, first);
    TwoSteps(u, Continue, Continue);
    var steps := [first, Continue, Continue];
    assert steps[0] == first && steps[1..] == [Continue, Continue];
  }

  /** Without that care the promise fails: a crash after the new key became active and before it was projected,
      a plain start, and the evidence then issued does not verify. */
  lemma UnprojectedKeyIssues()
    ensures Valid(AfterCrash(), Interrupted()[6..])
    ensures var u := Run(AfterCrash(), Interrupted()[6..]); var id := IdentityOf(SOME_MESSAGE.bindings, SOME_MESSAGE.id);
            id in u.disk.journal && !Verifies(u, u.disk.journal[id].envelope)
  {
    assert Interrupted()[6..] == [PlainStart, Issue("k2", SOME_MESSAGE, 0)];
    assert !Blank("m") by { assert "m"[0] == 'm'; }
    TwoSteps(AfterCrash(), PlainStart, Issue("k2", SOME_MESSAGE, 0));
  }
}
