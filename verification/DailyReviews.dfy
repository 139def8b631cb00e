/** `_finalize`: select one fact per identity, sort, cut a page, and spread it over the sections. */
module DailyReviews {
  import opened Basics
  import opened DailyReviewModels

  // ---------- selection ----------

  /** The dictionary after one more candidate has been offered. */
  function Offered(before: map<Identity, Candidate>, c: Candidate): map<Identity, Candidate> {
    if IdentityOf(c) !in before || Before(SelectionKey(c), SelectionKey(before[IdentityOf(c)]))
    then before[IdentityOf(c) := c] else before
  }

  /** The dictionary after the candidates have been offered one by one. */
  function Selected(cs: seq<Candidate>): map<Identity, Candidate>
    decreases |cs|
  {
    if cs == [] then map[] else Offered(Selected(cs[..|cs| - 1]), cs[|cs| - 1])
  }

  /** No candidate of its identity comes before it. */
  predicate Minimal(cs: seq<Candidate>, c: Candidate) {
    c in cs && forall d | d in cs && IdentityOf(d) == IdentityOf(c) :: !Before(SelectionKey(d), SelectionKey(c))
  }

  predicate AllMinimal(m: map<Identity, Candidate>, cs: seq<Candidate>) {
    && (forall c | c in cs :: IdentityOf(c) in m)
    && (forall i | i in m :: IdentityOf(m[i]) == i && Minimal(cs, m[i]))
  }

  /** What the dictionary holds for an identity is not behind any candidate seen before, nor behind the new one. */
  lemma NoneBefore(cs: seq<Candidate>, m: map<Identity, Candidate>, last: Candidate, i: Identity, d: Candidate)
    requires AllMinimal(m, cs) && i in Offered(m, last) && (d in cs || d == last)
    requires IdentityOf(d) == IdentityOf(Offered(m, last)[i])
    ensures IdentityOf(Offered(m, last)[i]) == i && !Before(SelectionKey(d), SelectionKey(Offered(m, last)[i]))
  {
    hide Before, SelectionKey;
    var s := Offered(m, last)[i];
    BeforeIsStrict(SelectionKey(d), SelectionKey(s));
    if d != last && s == last && Before(SelectionKey(d), SelectionKey(s)) {
      assert Minimal(cs, m[i]);
      BeforeIsTransitive(SelectionKey(d), SelectionKey(s), SelectionKey(m[i]));
    }
  }

  lemma OfferKeeps(cs: seq<Candidate>, m: map<Identity, Candidate>, last: Candidate)
    requires AllMinimal(m, cs)
    ensures AllMinimal(Offered(m, last), cs + [last])
  {
    hide Before, SelectionKey;
    var u := Offered(m, last);
    forall i | i in u
      ensures IdentityOf(u[i]) == i && Minimal(cs + [last], u[i])
    {
      NoneBefore(cs, m, last, i, u[i]);
      forall d | d in cs + [last] && IdentityOf(d) == IdentityOf(u[i])
        ensures !Before(SelectionKey(d), SelectionKey(u[i]))
      {
        NoneBefore(cs, m, last, i, d);
      }
    }
  }

  /** Exactly one candidate per identity is selected, and it has the least selection key. */
  lemma {:induction false} SelectedAreMinimal(cs: seq<Candidate>)
    ensures forall c | c in cs :: IdentityOf(c) in Selected(cs)
    ensures forall i | i in Selected(cs) :: IdentityOf(Selected(cs)[i]) == i && Minimal(cs, Selected(cs)[i])
    decreases |cs|
  {
    if cs == [] {
    } else {
      var n := |cs| - 1;
      SelectedAreMinimal(cs[..n]);
      assert cs == cs[..n] + [cs[n]];
      OfferKeeps(cs[..n], Selected(cs[..n]), cs[n]);
    }
  }

  // ---------- order ----------

  predicate Rising(cs: seq<Candidate>) {
    forall i, j | 0 <= i < j < |cs| :: Before(SortKey(cs[i]), SortKey(cs[j]))
  }

  /** A list holds the selected facts, each once, by rising sort key. */
  ghost predicate IsOrdering(cs: seq<Candidate>, out: seq<Candidate>) {
    && Rising(out)
    && forall c :: c in out <==> IdentityOf(c) in Selected(cs) && Selected(cs)[IdentityOf(c)] == c
  }

  function Insert(c: Candidate, sorted: seq<Candidate>): seq<Candidate> {
    if sorted == [] || Before(SortKey(c), SortKey(sorted[0])) then [c] + sorted
    else [sorted[0]] + Insert(c, sorted[1..])
  }

  /** `sorted` by the sort key. */
  function Sort(cs: seq<Candidate>): seq<Candidate> {
    if cs == [] then [] else Insert(cs[0], Sort(cs[1..]))
  }

  lemma {:induction false} InsertKeeps(c: Candidate, sorted: seq<Candidate>)
    requires Rising(sorted) && forall d | d in sorted :: SortKey(d) != SortKey(c)
    ensures Rising(Insert(c, sorted))
    ensures forall d :: d in Insert(c, sorted) <==> d == c || d in sorted
  {
    if sorted == [] {
    } else {
      BeforeIsStrict(SortKey(c), SortKey(sorted[0]));
      if Before(SortKey(c), SortKey(sorted[0])) {
        forall j | 0 < j < |sorted|
          ensures Before(SortKey(c), SortKey(sorted[j]))
        {
          BeforeIsTransitive(SortKey(c), SortKey(sorted[0]), SortKey(sorted[j]));
        }
      } else {
        InsertKeeps(c, sorted[1..]);
        assert sorted == [sorted[0]] + sorted[1..];
        forall d | d in Insert(c, sorted[1..])
          ensures Before(SortKey(sorted[0]), SortKey(d))
        {
          if d != c { var j :| 0 <= j < |sorted[1..]| && sorted[1..][j] == d; }
        }
      }
    }
  }

  lemma {:induction false} SortIsRising(cs: seq<Candidate>)
    requires forall i, j | 0 <= i < j < |cs| :: IdentityOf(cs[i]) != IdentityOf(cs[j])
    ensures Rising(Sort(cs))
    ensures forall d :: d in Sort(cs) <==> d in cs
  {
    if cs == [] {
    } else {
      SortIsRising(cs[1..]);
      assert cs == [cs[0]] + cs[1..];
      forall d | d in Sort(cs[1..])
        ensures SortKey(d) != SortKey(cs[0])
      {
        var j :| 0 <= j < |cs[1..]| && cs[1..][j] == d;
        assert cs[j + 1] == d;
        if SortKey(d) == SortKey(cs[0]) { SortKeyIdentifies(d, cs[0]); }
      }
      InsertKeeps(cs[0], Sort(cs[1..]));
    }
  }

  /** The identities in the order in which the dictionary got them. */
  function Seen(cs: seq<Candidate>): seq<Identity>
    decreases |cs|
  {
    if cs == [] then []
    else
      var before, i := Seen(cs[..|cs| - 1]), IdentityOf(cs[|cs| - 1]);
      if i in before then before else before + [i]
  }

  lemma {:induction false} SeenAreSelected(cs: seq<Candidate>)
    ensures forall i :: i in Seen(cs) <==> i in Selected(cs)
    ensures forall j, k | 0 <= j < k < |Seen(cs)| :: Seen(cs)[j] != Seen(cs)[k]
    decreases |cs|
  {
    if cs == [] {
    } else {
      SeenAreSelected(cs[..|cs| - 1]);
    }
  }

  function Values(ids: seq<Identity>, m: map<Identity, Candidate>): (r: seq<Candidate>)
    requires forall i | i in ids :: i in m
    ensures |r| == |ids| && forall j | 0 <= j < |ids| :: r[j] == m[ids[j]]
  {
    seq(|ids|, j requires 0 <= j < |ids| => m[ids[j]])
  }

  function Ordered(cs: seq<Candidate>): seq<Candidate> {
    SeenAreSelected(cs);
    Sort(Values(Seen(cs), Selected(cs)))
  }

  /** Sorting the dictionary gives each selected fact once, by rising key. */
  lemma OrderedIsOrdering(cs: seq<Candidate>)
    ensures IsOrdering(cs, Ordered(cs))
  {
    SeenAreSelected(cs);
    SelectedAreMinimal(cs);
    var vs := Values(Seen(cs), Selected(cs));
    SortIsRising(vs);
    forall c
      ensures c in Ordered(cs) <==> IdentityOf(c) in Selected(cs) && Selected(cs)[IdentityOf(c)] == c
    {
      if c in vs {
        var j :| 0 <= j < |vs| && vs[j] == c;
        assert IdentityOf(c) == Seen(cs)[j];
      }
      if IdentityOf(c) in Selected(cs) && Selected(cs)[IdentityOf(c)] == c {
        var j :| 0 <= j < |Seen(cs)| && Seen(cs)[j] == IdentityOf(c);
        assert vs[j] == c;
      }
    }
  }

  lemma EmptyTogether(s: seq<Candidate>, t: seq<Candidate>)
    requires forall c :: c in s <==> c in t
    ensures s == [] <==> t == []
    ensures s != [] ==> s[0] in t && t[0] in s
  {
    if s != [] { assert s[0] in t; }
    if t != [] { assert t[0] in s; }
  }

  /** A rising list is determined by what it holds. */
  lemma {:induction false} RisingIsUnique(s: seq<Candidate>, t: seq<Candidate>)
    requires Rising(s) && Rising(t) && forall c :: c in s <==> c in t
    ensures s == t
    decreases |s|
  {
    EmptyTogether(s, t);
    if s == [] {
    } else {
      LeastIsFirst(s, t);
      forall c
        ensures c in s[1..] <==> c in t[1..]
      {
        BeforeIsStrict(SortKey(s[0]), SortKey(s[0]));
        assert s == [s[0]] + s[1..] && t == [t[0]] + t[1..];
        if c in s[1..] {
          var j :| 0 < j < |s| && s[j] == c;
          assert Before(SortKey(s[0]), SortKey(s[j])) && c in s && c != s[0];
          assert c in t;
        }
        if c in t[1..] {
          var j :| 0 < j < |t| && t[j] == c;
          assert Before(SortKey(t[0]), SortKey(t[j])) && c in t && c != t[0];
          assert c in s;
        }
      }
      RisingIsUnique(s[1..], t[1..]);
      assert s == [s[0]] + s[1..] && t == [t[0]] + t[1..];
    }
  }

  lemma LeastIsFirst(s: seq<Candidate>, t: seq<Candidate>)
    requires Rising(s) && Rising(t) && s != [] && t != [] && s[0] in t && t[0] in s
    ensures s[0] == t[0]
  {
    BeforeIsStrict(SortKey(s[0]), SortKey(t[0]));
    var j :| 0 <= j < |t| && t[j] == s[0];
    var k :| 0 <= k < |s| && s[k] == t[0];
  }

  /** No other fact of its identity should have been kept instead. */
  ghost predicate RightlyKept(cs: seq<Candidate>, c: Candidate) {
    c in cs && forall d | d in cs && IdentityOf(d) == IdentityOf(c) :: !KeptBefore(d, c)
  }

  ghost predicate Represented(o: seq<Candidate>, c: Candidate) {
    exists d :: d in o && IdentityOf(d) == IdentityOf(c)
  }

  /** The ordered list, told on its facts: one of each identity, rightly kept, and each standing before those
      after it. */
  lemma OrderedByItsFacts(cs: seq<Candidate>)
    ensures forall c | c in cs :: Represented(Ordered(cs), c)
    ensures forall c | c in Ordered(cs) :: RightlyKept(cs, c)
    ensures forall i, j | 0 <= i < j < |Ordered(cs)| :: StandsBefore(Ordered(cs)[i], Ordered(cs)[j])
  {
    OrderedIsOrdering(cs);
    SelectedAreMinimal(cs);
    hide StandsBefore, KeptBefore, Before, SortKey, SelectionKey, Ordered, Selected;
    var o := Ordered(cs);
    forall i, j | 0 <= i < j < |o|
      ensures StandsBefore(o[i], o[j])
    {
      SortKeyOrders(o[i], o[j]);
    }
    forall c, d | c in o && d in cs && IdentityOf(d) == IdentityOf(c)
      ensures c in cs && !KeptBefore(d, c)
    {
      assert Minimal(cs, c);
      SelectionKeyOrders(d, c);
    }
    forall c | c in cs
      ensures Represented(o, c)
    {
      assert Selected(cs)[IdentityOf(c)] in o;
    }
  }

  // ---------- arrival order ----------

  /** Facts of one identity that share the least selection key are the same fact. */
  predicate MinimalUnique(cs: seq<Candidate>) {
    forall c, d | c in cs && d in cs ::
      Minimal(cs, c) && Minimal(cs, d) && IdentityOf(c) == IdentityOf(d) ==> c == d
  }

  lemma SameMinimal(p: seq<Candidate>, q: seq<Candidate>, c: Candidate)
    requires multiset(p) == multiset(q)
    ensures c in p <==> c in q
    ensures Minimal(p, c) <==> Minimal(q, c)
  {
    forall d
      ensures d in p <==> d in q
    {
      assert d in p <==> d in multiset(p);
      assert d in q <==> d in multiset(q);
    }
  }

  lemma SameOrdering(p: seq<Candidate>, q: seq<Candidate>)
    requires multiset(p) == multiset(q) && MinimalUnique(p)
    ensures Ordered(p) == Ordered(q)
  {
    SelectedAreMinimal(p);
    SelectedAreMinimal(q);
    forall i
      ensures i in Selected(p) <==> i in Selected(q)
      ensures i in Selected(p) ==> Selected(p)[i] == Selected(q)[i]
    {
      if i in Selected(p) {
        SameMinimal(p, q, Selected(p)[i]);
        assert i in Selected(q);
        SameMinimal(p, q, Selected(q)[i]);
      }
      if i in Selected(q) {
        SameMinimal(p, q, Selected(q)[i]);
      }
    }
    assert Selected(p) == Selected(q);
    OrderedIsOrdering(p);
    OrderedIsOrdering(q);
    RisingIsUnique(Ordered(p), Ordered(q));
  }

  /** Among candidates with the least key the one that arrives first is kept. */
  lemma {:induction false} FirstLeastStays(c: Candidate, cs: seq<Candidate>)
    requires forall d | d in cs && IdentityOf(d) == IdentityOf(c) :: !Before(SelectionKey(d), SelectionKey(c))
    ensures IdentityOf(c) in Selected([c] + cs) && Selected([c] + cs)[IdentityOf(c)] == c
    decreases |cs|
  {
    var all := [c] + cs;
    if cs == [] {
      assert all[..0] == [];
    } else {
      var n := |cs| - 1;
      FirstLeastStays(c, cs[..n]);
      assert all[..|all| - 1] == [c] + cs[..n];
      assert cs[n] in cs;
    }
  }

  lemma Moved(cs: seq<Candidate>, k: nat) returns (rest: seq<Candidate>)
    requires k < |cs|
    ensures multiset([cs[k]] + rest) == multiset(cs)
    ensures forall d | d in rest :: d in cs
  {
    rest := cs[..k] + cs[k + 1..];
    assert cs == cs[..k] + [cs[k]] + cs[k + 1..];
  }

  /** A candidate with the least key can be made to arrive first, and is then the one that is listed. */
  lemma ArrivesFirst(p: seq<Candidate>, c: Candidate) returns (q: seq<Candidate>)
    requires Minimal(p, c)
    ensures multiset(q) == multiset(p) && c in Ordered(q)
    ensures forall d | IdentityOf(d) == IdentityOf(c) && d != c :: d !in Ordered(q)
  {
    var k :| 0 <= k < |p| && p[k] == c;
    var rest := Moved(p, k);
    q := [c] + rest;
    FirstLeastStays(c, rest);
    OrderedIsOrdering(q);
  }

  /** The ordered list does not depend on the order in which candidates arrive exactly when, for every
      identity, the candidates with the least selection key are one and the same fact. */
  lemma OrderIndependentIffMinimalUnique(p: seq<Candidate>)
    ensures (forall q: seq<Candidate> | multiset(q) == multiset(p) :: Ordered(q) == Ordered(p)) <==> MinimalUnique(p)
  {
    if MinimalUnique(p) {
      forall q: seq<Candidate> | multiset(q) == multiset(p)
        ensures Ordered(q) == Ordered(p)
      {
        SameOrdering(p, q);
      }
    } else {
      var c, d :| c in p && d in p && Minimal(p, c) && Minimal(p, d) && IdentityOf(c) == IdentityOf(d) && c != d;
      var q := ArrivesFirst(p, c);
      var r := ArrivesFirst(p, d);
      assert c in Ordered(q) && c !in Ordered(r);
    }
  }

  // ---------- pages and sections ----------

  function Min(a: int, b: int): int {
    if a < b then a else b
  }

  function Cut<T>(ordered: seq<T>, limit: nat, offset: nat): seq<T> {
    ordered[Min(offset, |ordered|)..Min(offset + limit, |ordered|)]
  }

  function InSection(cs: seq<Candidate>, s: Section): seq<Item>
    decreases |cs|
  {
    if cs == [] then []
    else
      var n := |cs| - 1;
      InSection(cs[..n], s) + if cs[n].section == s then [cs[n].item] else []
  }

  function View(ordered: seq<Candidate>, page: seq<Candidate>, s: Section): SectionView {
    SectionView(|InSection(ordered, s)|, |InSection(page, s)|, InSection(page, s))
  }

  function PageOf(ordered: seq<Candidate>, limit: nat, offset: nat): PageView {
    var count := |Cut(ordered, limit, offset)|;
    PageView(count, |ordered|, limit, offset, offset + count < |ordered|)
  }

  /** What a review is about besides its facts: the day, the instant it is made, and the state of its sources. */
  datatype Setting = Setting(start: int, end: int, instant: int, statuses: map<Source, SourceStatus>)

  function ReviewOf(about: Setting, ordered: seq<Candidate>, limit: nat, offset: nat): Review {
    var page := Cut(ordered, limit, offset);
    Review(about.start, about.end, about.instant, about.instant, about.statuses, PageOf(ordered, limit, offset),
           View(ordered, page, Blocked), View(ordered, page, FollowUps), View(ordered, page, InProgress),
           View(ordered, page, Completed), View(ordered, page, Informational), View(ordered, page, PendingInbox))
  }

  function Items(cs: seq<Candidate>): (r: seq<Item>)
    ensures |r| == |cs| && forall i | 0 <= i < |cs| :: r[i] == cs[i].item
  {
    seq(|cs|, i requires 0 <= i < |cs| => cs[i].item)
  }

  function OwnItem(c: Candidate, s: Section): seq<Item> {
    if c.section == s then [c.item] else []
  }

  lemma LastInSection(cs: seq<Candidate>, c: Candidate, s: Section)
    ensures InSection(cs + [c], s) == InSection(cs, s) + OwnItem(c, s)
  {
    assert (cs + [c])[..|cs|] == cs;
  }

  lemma Regroup(a: seq<Item>, b: seq<Item>, c: seq<Item>)
    ensures (a + b) + c == a + (b + c)
  {
  }

  lemma {:induction false} InSectionSplits(a: seq<Candidate>, b: seq<Candidate>, s: Section)
    ensures InSection(a + b, s) == InSection(a, s) + InSection(b, s)
    decreases |b|
  {
    if b == [] {
      assert a + b == a;
    } else {
      var n := |b| - 1;
      InSectionSplits(a, b[..n], s);
      hide InSection, OwnItem;
      assert b == b[..n] + [b[n]] && a + b == (a + b[..n]) + [b[n]];
      LastInSection(b[..n], b[n], s);
      LastInSection(a + b[..n], b[n], s);
      Regroup(InSection(a, s), InSection(b[..n], s), OwnItem(b[n], s));
    }
  }

  /** Every fact is counted in exactly one section. */
  lemma {:induction false} SectionsCountAll(cs: seq<Candidate>)
    ensures |InSection(cs, Completed)| + |InSection(cs, InProgress)| + |InSection(cs, Blocked)|
            + |InSection(cs, Informational)| + |InSection(cs, FollowUps)| + |InSection(cs, PendingInbox)| == |cs|
    decreases |cs|
  {
    if cs == [] {
    } else {
      SectionsCountAll(cs[..|cs| - 1]);
    }
  }

  lemma PageHasNoMore(ordered: seq<Candidate>, limit: nat, offset: nat, s: Section)
    ensures |InSection(Cut(ordered, limit, offset), s)| <= |InSection(ordered, s)|
  {
    var lo, hi := Min(offset, |ordered|), Min(offset + limit, |ordered|);
    InSectionSplits(ordered[..lo], ordered[lo..hi], s);
    InSectionSplits(ordered[..hi], ordered[hi..], s);
    assert ordered[..lo] + ordered[lo..hi] == ordered[..hi];
    assert ordered[..hi] + ordered[hi..] == ordered;
  }

  /** The facts can never make a review fail the checks of its models: it passes them exactly when the day is
      not empty and every source has a status. */
  lemma ReviewIsValid(about: Setting, ordered: seq<Candidate>, limit: nat, offset: nat)
    requires 1 <= limit <= 100
    ensures ReviewValid(ReviewOf(about, ordered, limit, offset)) <==>
              about.start < about.end && about.statuses.Keys == SOURCES
  {
    SectionsCountAll(ordered);
    SectionsCountAll(Cut(ordered, limit, offset));
    forall s: Section
      ensures SectionValid(View(ordered, Cut(ordered, limit, offset), s))
    {
      PageHasNoMore(ordered, limit, offset, s);
    }
  }

  /** What a reader has who already got some facts and goes on from an offset while there is more. */
  function ReadOn(ordered: seq<Candidate>, limit: nat, offset: nat, got: seq<Candidate>): seq<Candidate>
    requires limit > 0
    decreases |ordered| - offset
  {
    var r := PageOf(ordered, limit, offset);
    var more := got + Cut(ordered, limit, offset);
    if r.hasMore then ReadOn(ordered, limit, offset + r.count, more) else more
  }

  lemma NextPage(ordered: seq<Candidate>, limit: nat, offset: nat)
    requires limit > 0 && offset <= |ordered|
    ensures var page := Cut(ordered, limit, offset); var n := offset + |page|;
            n <= |ordered| && (n < |ordered| ==> n > offset) && ordered[..offset] + page == ordered[..n]
  {
  }

  /** Successive pages tile the ordered list: reading on from any page boundary, with what lies before it, gives
      the whole list, every fact once and in order. */
  lemma {:induction false} PagesTile(ordered: seq<Candidate>, limit: nat, offset: nat)
    requires limit > 0 && offset <= |ordered|
    ensures ReadOn(ordered, limit, offset, ordered[..offset]) == ordered
    decreases |ordered| - offset
  {
    NextPage(ordered, limit, offset);
    hide Cut, View;
    var n := offset + |Cut(ordered, limit, offset)|;
    if n < |ordered| {
      PagesTile(ordered, limit, n);
    } else {
      assert ordered[..n] == ordered;
    }
  }

  // ---------- the order of action hints ----------

  function AtPriority(p: int): Section {
    if p <= 0 then Blocked else if p == 1 then FollowUps else if p == 2 then InProgress
    else if p == 3 then Completed else if p == 4 then Informational else PendingInbox
  }

  /** The sections of priority lo and above, one after another. */
  function FromPriority(cs: seq<Candidate>, lo: nat): seq<Item>
    requires lo <= 6
    decreases 6 - lo
  {
    if lo == 6 then [] else InSection(cs, AtPriority(lo)) + FromPriority(cs, lo + 1)
  }

  lemma {:induction false} OneSection(cs: seq<Candidate>, s: Section)
    ensures (forall c | c in cs :: c.section == s) ==> InSection(cs, s) == Items(cs)
    ensures (forall c | c in cs :: c.section != s) ==> InSection(cs, s) == []
    decreases |cs|
  {
    if cs == [] {
    } else {
      var n := |cs| - 1;
      OneSection(cs[..n], s);
      assert cs == cs[..n] + [cs[n]];
      assert cs[n] in cs && Items(cs) == Items(cs[..n]) + [cs[n].item];
    }
  }

  /** How many facts at the front belong to the section. */
  function Run(cs: seq<Candidate>, s: Section): (k: nat)
    ensures k <= |cs|
    ensures forall i | 0 <= i < k :: cs[i].section == s
    ensures k < |cs| ==> cs[k].section != s
  {
    if cs == [] || cs[0].section != s then 0 else 1 + Run(cs[1..], s)
  }

  predicate BySection(cs: seq<Candidate>, lo: nat) {
    && (forall i | 0 <= i < |cs| :: lo <= SectionPriority(cs[i].section))
    && (forall i, j | 0 <= i < j < |cs| :: SectionPriority(cs[i].section) <= SectionPriority(cs[j].section))
  }

  lemma BackRises(cs: seq<Candidate>, lo: nat, k: nat)
    requires lo < 6 && BySection(cs, lo) && k <= |cs| && (k < |cs| ==> cs[k].section != AtPriority(lo))
    ensures BySection(cs[k..], lo + 1)
  {
    var back := cs[k..];
    forall i | 0 <= i < |back|
      ensures SectionPriority(back[i].section) > lo
    {
      assert SectionPriority(cs[k].section) <= SectionPriority(cs[k + i].section);
    }
  }

  lemma SplitSection(front: seq<Candidate>, back: seq<Candidate>, lo: nat)
    requires lo < 6 && (forall c | c in front :: c.section == AtPriority(lo)) && BySection(back, lo + 1)
    ensures InSection(front + back, AtPriority(lo)) == Items(front)
  {
    forall c | c in back
      ensures c.section != AtPriority(lo)
    {
      var i :| 0 <= i < |back| && back[i] == c;
    }
    OneSection(front, AtPriority(lo));
    OneSection(back, AtPriority(lo));
    InSectionSplits(front, back, AtPriority(lo));
  }

  /** The facts of the lowest section stand in front of all others. */
  lemma CutOff(cs: seq<Candidate>, lo: nat) returns (k: nat)
    requires lo < 6 && BySection(cs, lo)
    ensures k <= |cs| && BySection(cs[k..], lo + 1)
    ensures InSection(cs, AtPriority(lo)) == Items(cs[..k])
    ensures FromPriority(cs, lo + 1) == FromPriority(cs[k..], lo + 1)
  {
    k := Run(cs, AtPriority(lo));
    BackRises(cs, lo, k);
    hide FromPriority, InSection, BySection, Items;
    assert cs == cs[..k] + cs[k..];
    SplitSection(cs[..k], cs[k..], lo);
    Above(cs[..k], cs[k..], lo + 1);
  }

  lemma {:induction false} SectionsInTurn(cs: seq<Candidate>, lo: nat)
    requires lo <= 6 && BySection(cs, lo)
    ensures FromPriority(cs, lo) == Items(cs)
    decreases 6 - lo
  {
    if lo == 6 {
      PrioritiesEnd(cs);
    } else {
      hide InSection, BySection, AtPriority;
      var k := CutOff(cs, lo);
      SectionsInTurn(cs[k..], lo + 1);
      ItemsJoin(cs, k);
    }
  }

  lemma ItemsJoin(cs: seq<Candidate>, k: nat)
    requires k <= |cs|
    ensures Items(cs) == Items(cs[..k]) + Items(cs[k..])
  {
  }

  lemma PrioritiesEnd(cs: seq<Candidate>)
    ensures cs != [] ==> SectionPriority(cs[0].section) < 6
  {
  }

  lemma NotInFront(front: seq<Candidate>, back: seq<Candidate>, lo: nat)
    requires lo < 6 && forall c | c in front :: SectionPriority(c.section) < lo
    ensures InSection(front + back, AtPriority(lo)) == InSection(back, AtPriority(lo))
  {
    OneSection(front, AtPriority(lo));
    InSectionSplits(front, back, AtPriority(lo));
  }

  lemma {:induction false} Above(front: seq<Candidate>, back: seq<Candidate>, lo: nat)
    requires lo <= 6 && forall c | c in front :: SectionPriority(c.section) < lo
    ensures FromPriority(front + back, lo) == FromPriority(back, lo)
    decreases 6 - lo
  {
    if lo == 6 {
    } else {
      hide InSection, AtPriority;
      NotInFront(front, back, lo);
      Above(front, back, lo + 1);
    }
  }

  /** Reading the sections of a page in the order of the action hints gives the page back in sort order. */
  lemma HintOrderIsSortOrder(about: Setting, ordered: seq<Candidate>, limit: nat, offset: nat)
    requires Rising(ordered)
    ensures Read(ReviewOf(about, ordered, limit, offset)) == Items(Cut(ordered, limit, offset))
  {
    var page := Cut(ordered, limit, offset);
    assert BySection(page, 0) by {
      forall i, j | 0 <= i < j < |page|
        ensures SectionPriority(page[i].section) <= SectionPriority(page[j].section)
      {
        SectionComesFirst(page[i], page[j]);
      }
    }
    SectionsInTurn(page, 0);
    SixSections(page);
  }

  lemma SixSections(cs: seq<Candidate>)
    ensures FromPriority(cs, 0) ==
            InSection(cs, Blocked) + (InSection(cs, FollowUps) + (InSection(cs, InProgress)
            + (InSection(cs, Completed) + (InSection(cs, Informational) + InSection(cs, PendingInbox)))))
  {
    assert FromPriority(cs, 5) == InSection(cs, PendingInbox);
    assert FromPriority(cs, 4) == InSection(cs, Informational) + FromPriority(cs, 5);
    assert FromPriority(cs, 3) == InSection(cs, Completed) + FromPriority(cs, 4);
    assert FromPriority(cs, 2) == InSection(cs, InProgress) + FromPriority(cs, 3);
    assert FromPriority(cs, 1) == InSection(cs, FollowUps) + FromPriority(cs, 2);
  }

  lemma {:induction false} HintsSplit(a: seq<Item>, b: seq<Item>, table: Decisions, lowered: string -> string)
    ensures HintsForAll(a + b, table, lowered) == HintsForAll(a, table, lowered) + HintsForAll(b, table, lowered)
  {
    hide HintsFor;
    if a == [] {
      assert a + b == b;
    } else {
      HintsSplit(a[1..], b, table, lowered);
      assert (a + b)[0] == a[0] && (a + b)[1..] == a[1..] + b;
      Associates(HintsFor(a[0], table, lowered), HintsForAll(a[1..], table, lowered), HintsForAll(b, table, lowered));
    }
  }

  lemma Associates(a: seq<Hint>, b: seq<Hint>, c: seq<Hint>)
    ensures (a + b) + c == a + (b + c)
  {
  }

  /** The hints of a page come in the sort order of its facts. */
  lemma HintsFollowThePage(about: Setting, ordered: seq<Candidate>, limit: nat, offset: nat,
                           table: Decisions, lowered: string -> string)
    requires Rising(ordered)
    ensures BuildActionHints(ReviewOf(about, ordered, limit, offset), table, lowered)
            == HintsForAll(Items(Cut(ordered, limit, offset)), table, lowered)
  {
    HintOrderIsSortOrder(about, ordered, limit, offset);
    var r := ReviewOf(about, ordered, limit, offset);
    hide ReviewOf, HintsFor, HintsForAll;
    var after5 := r.informational.items + r.pendingInbox.items;
    var after4 := r.completed.items + after5;
    var after3 := r.inProgress.items + after4;
    var after2 := r.followUps.items + after3;
    HintsSplit(r.informational.items, r.pendingInbox.items, table, lowered);
    HintsSplit(r.completed.items, after5, table, lowered);
    HintsSplit(r.inProgress.items, after4, table, lowered);
    HintsSplit(r.followUps.items, after3, table, lowered);
    HintsSplit(r.blocked.items, after2, table, lowered);
  }

  // ---------- the method ----------

  /** `_finalize`; the model of the review is checked as it is built, and no review comes of a failing check. */
  method Finalize(about: Setting, candidates: seq<Candidate>, limit: nat, offset: nat) returns (review: Option<Review>)
    requires 1 <= limit <= 100
    ensures review == if about.start < about.end && about.statuses.Keys == SOURCES
                      then Some(ReviewOf(about, Ordered(candidates), limit, offset)) else None
    ensures review.Some? ==> ReviewValid(review.value)
  {
    var selected: map<Identity, Candidate>, seen: seq<Identity> := map[], [];
    var i := 0;
    while i < |candidates|
      invariant 0 <= i <= |candidates|
      invariant selected == Selected(candidates[..i]) && seen == Seen(candidates[..i])
      invariant forall id :: id in seen <==> id in selected
    {
      assert candidates[..i + 1][..i] == candidates[..i];
      var candidate := candidates[i];
      var identity := IdentityOf(candidate);
      if identity !in selected {
        seen := seen + [identity];
        selected := selected[identity := candidate];
      } else if Before(SelectionKey(candidate), SelectionKey(selected[identity])) {
        selected := selected[identity := candidate];
      }
      i := i + 1;
    }
    assert candidates[..i] == candidates;
    var ordered := Sort(Values(seen, selected));
    var page := Cut(ordered, limit, offset);
    var bySection := Spread(page);
    var totals := Spread(ordered);
    ReviewIsValid(about, ordered, limit, offset);
    var built := Review(
      about.start, about.end, about.instant, about.instant, about.statuses,
      PageView(|page|, |ordered|, limit, offset, offset + |page| < |ordered|),
      SectionView(|totals[Blocked]|, |bySection[Blocked]|, bySection[Blocked]),
      SectionView(|totals[FollowUps]|, |bySection[FollowUps]|, bySection[FollowUps]),
      SectionView(|totals[InProgress]|, |bySection[InProgress]|, bySection[InProgress]),
      SectionView(|totals[Completed]|, |bySection[Completed]|, bySection[Completed]),
      SectionView(|totals[Informational]|, |bySection[Informational]|, bySection[Informational]),
      SectionView(|totals[PendingInbox]|, |bySection[PendingInbox]|, bySection[PendingInbox]));
    return if ReviewValid(built) then Some(built) else None;
  }

  const SECTIONS := {Blocked, FollowUps, InProgress, Completed, Informational, PendingInbox}

  lemma Listed(s: Section)
    ensures s in SECTIONS
  {
  }

  method Spread(page: seq<Candidate>) returns (bySection: map<Section, seq<Item>>)
    ensures forall s: Section :: s in bySection && bySection[s] == InSection(page, s)
  {
    bySection := map s | s in SECTIONS :: [];
    forall s: Section { Listed(s); }
    var i := 0;
    while i < |page|
      invariant 0 <= i <= |page|
      invariant forall s: Section :: s in bySection && bySection[s] == InSection(page[..i], s)
    {
      assert page[..i + 1][..i] == page[..i];
      bySection := bySection[page[i].section := bySection[page[i].section] + [page[i].item]];
      i := i + 1;
    }
    assert page[..i] == page;
  }
}
