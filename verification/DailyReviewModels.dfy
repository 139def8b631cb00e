/** The facts a Daily Review is made of, the keys they are selected and sorted by, and the checks the review
    models make. */
module DailyReviewModels {
  import opened Basics
  import opened Texts

  datatype Section = Blocked | FollowUps | InProgress | Completed | Informational | PendingInbox

  datatype Source = WorkLog | UserTask | WaitingFor | Reminder | Inbox

  datatype Item = Item(
    source: Source, id: string, title: string, status: string, reason: string, effective: Option<int>)

  datatype Candidate = Candidate(section: Section, severity: int, item: Item)

  datatype Identity = Identity(source: Source, id: string)

  function IdentityOf(c: Candidate): Identity {
    Identity(c.item.source, c.item.id)
  }

  function SectionPriority(s: Section): int {
    match s
    case Blocked => 0
    case FollowUps => 1
    case InProgress => 2
    case Completed => 3
    case Informational => 4
    case PendingInbox => 5
  }

  function SourcePriority(s: Source): int {
    match s
    case WorkLog => 0
    case UserTask => 1
    case WaitingFor => 2
    case Reminder => 3
    case Inbox => 4
  }

  /** A tuple of numbers that ends in a text is a sequence of numbers, the text's code points last; comparing
      such tuples is comparing the sequences lexicographically. */
  type Key = seq<int>

  predicate Before(a: Key, b: Key)
    decreases |a|
  {
    b != [] && (a == [] || a[0] < b[0] || (a[0] == b[0] && Before(a[1..], b[1..])))
  }

  const LATEST := 253402300799

  function SelectionKey(c: Candidate): Key {
    [SectionPriority(c.section), c.severity] + CodePoints(c.item.reason)
  }

  function SortKey(c: Candidate): Key {
    [SectionPriority(c.section), c.severity,
     if c.item.effective.None? then 1 else 0,
     if c.item.effective.None? then LATEST else c.item.effective.value,
     SourcePriority(c.item.source)] + CodePoints(c.item.id)
  }

  lemma {:induction false} BeforeIsStrict(a: Key, b: Key)
    ensures !Before(a, a)
    ensures a == b || Before(a, b) || Before(b, a)
    ensures !(Before(a, b) && Before(b, a))
    decreases |a|
  {
    if a == [] {
    } else {
      BeforeIsStrict(a[1..], if b == [] then [] else b[1..]);
      if b != [] && a[0] == b[0] {
        assert a == [a[0]] + a[1..] && b == [b[0]] + b[1..];
      }
    }
  }

  lemma {:induction false} BeforeIsTransitive(a: Key, b: Key, c: Key)
    requires Before(a, b) && Before(b, c)
    ensures Before(a, c)
    decreases |a|
  {
    if a == [] {
    } else if a[0] == b[0] && b[0] == c[0] {
      BeforeIsTransitive(a[1..], b[1..], c[1..]);
    }
  }

  /** No two facts of different identity have the same sort key. */
  lemma SortKeyIdentifies(c: Candidate, d: Candidate)
    requires SortKey(c) == SortKey(d)
    ensures IdentityOf(c) == IdentityOf(d)
  {
    assert SortKey(c)[4] == SortKey(d)[4];
    assert SortKey(c)[5..] == CodePoints(c.item.id) && SortKey(d)[5..] == CodePoints(d.item.id);
    CodePointsTellTheText(c.item.id, d.item.id);
  }

  /** The section of a fact comes first in its sort key. */
  lemma SectionComesFirst(c: Candidate, d: Candidate)
    requires Before(SortKey(c), SortKey(d))
    ensures SectionPriority(c.section) <= SectionPriority(d.section)
  {
    assert SortKey(c)[0] == SectionPriority(c.section) && SortKey(d)[0] == SectionPriority(d.section);
  }

  // ---------- the orders, told on the facts ----------

  /** Sections and sources in the order in which a review names them. */
  const SECTION_ORDER := [Blocked, FollowUps, InProgress, Completed, Informational, PendingInbox]
  const SOURCE_ORDER := [WorkLog, UserTask, WaitingFor, Reminder, Inbox]

  ghost predicate Earlier<T>(order: seq<T>, x: T, y: T) {
    exists i, j :: 0 <= i < j < |order| && order[i] == x && order[j] == y
  }

  /** A fact stands before another: by section, then by severity, then those with an instant by instant and before
      those without, then by source, then by id. */
  ghost predicate StandsBefore(c: Candidate, d: Candidate) {
    if c.section != d.section then Earlier(SECTION_ORDER, c.section, d.section)
    else if c.severity != d.severity then c.severity < d.severity
    else if c.item.effective.None? != d.item.effective.None? then c.item.effective.Some?
    else if c.item.effective != d.item.effective then c.item.effective.value < d.item.effective.value
    else if c.item.source != d.item.source then Earlier(SOURCE_ORDER, c.item.source, d.item.source)
    else TextBefore(c.item.id, d.item.id)
  }

  /** Of two facts of one identity this one is kept: by section, then by severity, then by reason. */
  ghost predicate KeptBefore(c: Candidate, d: Candidate) {
    if c.section != d.section then Earlier(SECTION_ORDER, c.section, d.section)
    else if c.severity != d.severity then c.severity < d.severity
    else TextBefore(c.item.reason, d.item.reason)
  }

  lemma SectionOrder(s: Section, t: Section)
    ensures SectionPriority(s) < SectionPriority(t) <==> Earlier(SECTION_ORDER, s, t)
    ensures SectionPriority(s) == SectionPriority(t) <==> s == t
  {
    assert SECTION_ORDER[SectionPriority(s)] == s && SECTION_ORDER[SectionPriority(t)] == t;
    assert forall i | 0 <= i < 6 :: SectionPriority(SECTION_ORDER[i]) == i;
  }

  lemma SourceOrder(s: Source, t: Source)
    ensures SourcePriority(s) < SourcePriority(t) <==> Earlier(SOURCE_ORDER, s, t)
    ensures SourcePriority(s) == SourcePriority(t) <==> s == t
  {
    assert SOURCE_ORDER[SourcePriority(s)] == s && SOURCE_ORDER[SourcePriority(t)] == t;
    assert forall i | 0 <= i < 5 :: SourcePriority(SOURCE_ORDER[i]) == i;
  }

  lemma {:induction false} TextOrder(s: string, t: string)
    ensures Before(CodePoints(s), CodePoints(t)) <==> TextBefore(s, t)
    decreases |s|
  {
    var a, b := CodePoints(s), CodePoints(t);
    if s == "" || t == "" {
      if s == "" && t != "" { assert s[..0] == t[..0]; }
    } else if s[0] != t[0] {
      if s[0] < t[0] { assert s[..0] == t[..0]; }
      assert forall k | 0 < k <= |s| && k < |t| :: s[..k][0] != t[..k][0];
    } else {
      TextOrder(s[1..], t[1..]);
      TextBeforeFrom(s, t);
      assert a[1..] == CodePoints(s[1..]) && b[1..] == CodePoints(t[1..]);
    }
  }

  /** Comparing keys that begin with as many numbers: at the first in which they differ. */
  lemma FirstDecides(xs: seq<int>, a: Key, ys: seq<int>, b: Key)
    requires |xs| == |ys| > 0
    ensures Before(xs + a, ys + b) <==> xs[0] < ys[0] || (xs[0] == ys[0] && Before(xs[1..] + a, ys[1..] + b))
  {
    assert (xs + a)[1..] == xs[1..] + a && (ys + b)[1..] == ys[1..] + b;
  }

  lemma NothingBefore(a: Key, b: Key)
    ensures Before([] + a, [] + b) == Before(a, b)
  {
    assert [] + a == a && [] + b == b;
  }

  lemma TwoDecide(x0: int, x1: int, a: Key, y0: int, y1: int, b: Key)
    ensures Before([x0, x1] + a, [y0, y1] + b) <==>
              if x0 != y0 then x0 < y0 else if x1 != y1 then x1 < y1 else Before(a, b)
  {
    FirstDecides([x0, x1], a, [y0, y1], b);
    FirstDecides([x1], a, [y1], b);
    NothingBefore(a, b);
    hide Before;
    assert [x0, x1][1..] == [x1] && [y0, y1][1..] == [y1] && [x1][1..] == [] && [y1][1..] == [];
  }

  lemma FiveDecide(x0: int, x1: int, x2: int, x3: int, x4: int, a: Key, y0: int, y1: int, y2: int, y3: int, y4: int, b: Key)
    ensures Before([x0, x1, x2, x3, x4] + a, [y0, y1, y2, y3, y4] + b) <==>
              if x0 != y0 then x0 < y0 else if x1 != y1 then x1 < y1 else if x2 != y2 then x2 < y2
              else if x3 != y3 then x3 < y3 else if x4 != y4 then x4 < y4 else Before(a, b)
  {
    hide Before;
    FirstDecides([x0, x1, x2, x3, x4], a, [y0, y1, y2, y3, y4], b);
    FirstDecides([x1, x2, x3, x4], a, [y1, y2, y3, y4], b);
    FirstDecides([x2, x3, x4], a, [y2, y3, y4], b);
    TwoDecide(x3, x4, a, y3, y4, b);
    assert [x0, x1, x2, x3, x4][1..] == [x1, x2, x3, x4] && [y0, y1, y2, y3, y4][1..] == [y1, y2, y3, y4];
    assert [x1, x2, x3, x4][1..] == [x2, x3, x4] && [y1, y2, y3, y4][1..] == [y2, y3, y4];
    assert [x2, x3, x4][1..] == [x3, x4] && [y2, y3, y4][1..] == [y3, y4];
  }

  /** The sort key puts facts in that order. */
  lemma SortKeyOrders(c: Candidate, d: Candidate)
    ensures Before(SortKey(c), SortKey(d)) <==> StandsBefore(c, d)
  {
    SectionOrder(c.section, d.section);
    SourceOrder(c.item.source, d.item.source);
    TextOrder(c.item.id, d.item.id);
    var i, j := c.item.effective, d.item.effective;
    FiveDecide(SectionPriority(c.section), c.severity, if i.None? then 1 else 0, if i.None? then LATEST else i.value,
               SourcePriority(c.item.source), CodePoints(c.item.id),
               SectionPriority(d.section), d.severity, if j.None? then 1 else 0, if j.None? then LATEST else j.value,
               SourcePriority(d.item.source), CodePoints(d.item.id));
    hide Before, Earlier, TextBefore, SectionPriority, SourcePriority, CodePoints;
  }

  /** The selection key keeps facts in that order. */
  lemma SelectionKeyOrders(c: Candidate, d: Candidate)
    ensures Before(SelectionKey(c), SelectionKey(d)) <==> KeptBefore(c, d)
  {
    SectionOrder(c.section, d.section);
    TextOrder(c.item.reason, d.item.reason);
    TwoDecide(SectionPriority(c.section), c.severity, CodePoints(c.item.reason),
              SectionPriority(d.section), d.severity, CodePoints(d.item.reason));
    hide Before, Earlier, TextBefore, SectionPriority, CodePoints;
  }

  // ---------- the review and its checks ----------

  datatype SectionView = SectionView(total: int, count: int, items: seq<Item>)

  datatype PageView = PageView(count: int, total: int, limit: int, offset: int, hasMore: bool)

  datatype SourceStatus = Available | Disabled | NotConfigured

  const SOURCES: set<Source> := {WorkLog, UserTask, WaitingFor, Reminder, Inbox}

  datatype Review = Review(
    periodStart: int, periodEnd: int, generatedAt: int, asOf: int, sourceStatus: map<Source, SourceStatus>,
    page: PageView, blocked: SectionView, followUps: SectionView, inProgress: SectionView,
    completed: SectionView, informational: SectionView, pendingInbox: SectionView)

  /** `_page_count_matches_items`. */
  predicate SectionValid(s: SectionView) {
    s.total >= 0 && s.count == |s.items| && s.count <= s.total
  }

  /** `_validate_page`. */
  predicate PageValid(p: PageView) {
    && p.count >= 0 && p.total >= 0 && 1 <= p.limit <= 100 && p.offset >= 0
    && p.count <= p.limit && (p.hasMore <==> p.offset + p.count < p.total)
  }

  /** `_validate_review`, with the checks of the parts. */
  predicate ReviewValid(r: Review) {
    && r.periodStart < r.periodEnd
    && r.generatedAt == r.asOf
    && r.sourceStatus.Keys == SOURCES
    && PageValid(r.page)
    && SectionValid(r.blocked) && SectionValid(r.followUps) && SectionValid(r.inProgress)
    && SectionValid(r.completed) && SectionValid(r.informational) && SectionValid(r.pendingInbox)
    && r.completed.total + r.inProgress.total + r.blocked.total + r.informational.total
       + r.followUps.total + r.pendingInbox.total == r.page.total
    && r.completed.count + r.inProgress.count + r.blocked.count + r.informational.count
       + r.followUps.count + r.pendingInbox.count == r.page.count
  }

  // ---------- action hints ----------

  /** The decision table: source, status and reason of a fact to the actions offered for it. */
  type Decisions = map<(Source, string, string), seq<string>>

  datatype Hint = Hint(source: Source, id: string, status: string, reason: string, action: string)

  /** `_for_item`; `lowered` strips and lowers the status. */
  function HintsFor(i: Item, table: Decisions, lowered: string -> string): seq<Hint> {
    var key := (i.source, lowered(i.status), i.reason);
    var actions := if key in table then table[key] else [];
    seq(|actions|, j requires 0 <= j < |actions| => Hint(i.source, i.id, i.status, i.reason, actions[j]))
  }

  function HintsForAll(items: seq<Item>, table: Decisions, lowered: string -> string): seq<Hint> {
    if items == [] then [] else HintsFor(items[0], table, lowered) + HintsForAll(items[1..], table, lowered)
  }

  /** The items in the order in which `build_action_hints` reads the sections. */
  function Read(r: Review): seq<Item> {
    r.blocked.items + (r.followUps.items + (r.inProgress.items + (r.completed.items
    + (r.informational.items + r.pendingInbox.items))))
  }

  function BuildActionHints(r: Review, table: Decisions, lowered: string -> string): seq<Hint> {
    HintsForAll(r.blocked.items, table, lowered) + (HintsForAll(r.followUps.items, table, lowered)
    + (HintsForAll(r.inProgress.items, table, lowered) + (HintsForAll(r.completed.items, table, lowered)
    + (HintsForAll(r.informational.items, table, lowered) + HintsForAll(r.pendingInbox.items, table, lowered)))))
  }

  /** The hints of a fact are its decisions, one by one: each offers the action, and nothing that was not decided for
      the source, the lowered status and the reason of the fact. */
  lemma HintsAreDecisions(i: Item, table: Decisions, lowered: string -> string)
    ensures var hs, key := HintsFor(i, table, lowered), (i.source, lowered(i.status), i.reason);
            && (key !in table ==> hs == [])
            && (key in table ==>
                  && |hs| == |table[key]|
                  && forall k | 0 <= k < |hs| ::
                       && hs[k].action == table[key][k] && hs[k].source == i.source && hs[k].id == i.id
                       && hs[k].status == i.status && hs[k].reason == i.reason)
  {
  }
}
