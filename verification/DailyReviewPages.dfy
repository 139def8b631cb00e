/** The defensive page walker of the Daily Review: it reads a source page by page, trusts nothing the source
    says, and either returns everything it fetched or fails. */
module DailyReviewPages {
  import opened Basics

  /** A source is asked for the records from an offset; the number of the request is an argument because an
      unstable source need not give the same answer twice. */
  datatype Page<T> = Page(items: seq<T>, hasMore: bool)

  datatype Reason = OffsetLimit | PageTooLarge | RepeatedPage | EmptyPage

  datatype Walk<T> =
    | Walking(offset: nat, result: seq<T>, signatures: set<seq<string>>)
    | Returned(result: seq<T>)
    | Stopped(reason: Reason)

  function Signature<T>(items: seq<T>, identity: T -> string): (r: seq<string>)
    ensures |r| == |items| && forall i | 0 <= i < |r| :: r[i] == identity(items[i])
  {
    seq(|items|, i requires 0 <= i < |items| => identity(items[i]))
  }

  /** One turn of the loop. */
  function Turn<T>(w: Walk<T>, p: Page<T>, identity: T -> string, pageSize: nat, maxOffset: Option<nat>): Walk<T>
    requires w.Walking?
  {
    var s := Signature(p.items, identity);
    if maxOffset.Some? && w.offset > maxOffset.value then Stopped(OffsetLimit)
    else if |p.items| > pageSize then Stopped(PageTooLarge)
    else if s != [] && s in w.signatures then Stopped(RepeatedPage)
    else if !p.hasMore then Returned(w.result + p.items)
    else if p.items == [] then Stopped(EmptyPage)
    else Walking(w.offset + |p.items|, w.result + p.items, w.signatures + {s})
  }

  /** The walk after n turns. */
  function Turns<T>(fetch: (nat, nat) -> Page<T>, identity: T -> string, pageSize: nat, maxOffset: Option<nat>,
                    n: nat): Walk<T>
    decreases n
  {
    if n == 0 then Walking(0, [], {})
    else
      var w := Turns(fetch, identity, pageSize, maxOffset, n - 1);
      if w.Walking? then Turn(w, fetch(n - 1, w.offset), identity, pageSize, maxOffset) else w
  }

  /** The signatures a source over these ids can ever show. */
  ghost function Signatures(ids: set<string>, length: nat): set<seq<string>>
    decreases length
  {
    if length == 0 then {[]}
    else Signatures(ids, length - 1) + set s, id | s in Signatures(ids, length - 1) && id in ids :: s + [id]
  }

  lemma {:induction false} SignatureListed(ids: set<string>, length: nat, s: seq<string>)
    requires |s| <= length && forall i | 0 <= i < |s| :: s[i] in ids
    ensures s in Signatures(ids, length)
    decreases length
  {
    if |s| > 0 {
      var n := |s| - 1;
      SignatureListed(ids, length - 1, s[..n]);
      assert s == s[..n] + [s[n]];
    } else if length > 0 {
      SignatureListed(ids, length - 1, s);
    }
  }

  predicate ShowsOnly<T>(p: Page<T>, identity: T -> string, ids: set<string>) {
    forall i | 0 <= i < |p.items| :: identity(p.items[i]) in ids
  }

  ghost predicate KnownIds<T(!new)>(fetch: (nat, nat) -> Page<T>, identity: T -> string, ids: set<string>) {
    forall k: nat, o: nat :: ShowsOnly(fetch(k, o), identity, ids)
  }

  /** How many signatures a source over these ids has left to show. */
  ghost function Unused(ids: set<string>, pageSize: nat, seen: set<seq<string>>): nat {
    |Signatures(ids, pageSize) - seen|
  }

  lemma UnusedAtFirst(ids: set<string>, pageSize: nat)
    ensures Unused(ids, pageSize, {}) == |Signatures(ids, pageSize)|
  {
    assert Signatures(ids, pageSize) - {} == Signatures(ids, pageSize);
  }

  lemma Fewer(ids: set<string>, pageSize: nat, seen: set<seq<string>>, s: seq<string>)
    requires s in Signatures(ids, pageSize) && s !in seen
    ensures Unused(ids, pageSize, seen + {s}) < Unused(ids, pageSize, seen)
  {
    var all := Signatures(ids, pageSize);
    assert all - (seen + {s}) == (all - seen) - {s};
  }

  lemma NextTurn<T>(fetch: (nat, nat) -> Page<T>, identity: T -> string, pageSize: nat, maxOffset: Option<nat>, n: nat)
    requires Turns(fetch, identity, pageSize, maxOffset, n).Walking?
    ensures var w := Turns(fetch, identity, pageSize, maxOffset, n);
            Turns(fetch, identity, pageSize, maxOffset, n + 1)
            == Turn(w, fetch(n, w.offset), identity, pageSize, maxOffset)
  {
  }

  lemma Listed<T(!new)>(fetch: (nat, nat) -> Page<T>, identity: T -> string, ids: set<string>, pageSize: nat,
                  k: nat, o: nat)
    requires KnownIds(fetch, identity, ids) && |fetch(k, o).items| <= pageSize
    ensures Signature(fetch(k, o).items, identity) in Signatures(ids, pageSize)
  {
    assert ShowsOnly(fetch(k, o), identity, ids);
    SignatureListed(ids, pageSize, Signature(fetch(k, o).items, identity));
  }

  /** The rest of a turn, once the offset is within its limit and the page has arrived. */
  method TakePage<T>(page: Page<T>, identity: T -> string, pageSize: nat, maxOffset: Option<nat>,
                     offset: nat, result: seq<T>, signatures: set<seq<string>>)
    returns (next: Walk<T>)
    requires maxOffset.Some? ==> offset <= maxOffset.value
    ensures next == Turn(Walking(offset, result, signatures), page, identity, pageSize, maxOffset)
  {
    if |page.items| > pageSize {
      return Stopped(PageTooLarge);
    }
    var signature := Signature(page.items, identity);
    if signature != [] && signature in signatures {
      return Stopped(RepeatedPage);
    }
    var seen := signatures;
    if signature != [] {
      seen := seen + {signature};
    }
    var read := result + page.items;
    if !page.hasMore {
      return Returned(read);
    }
    if page.items == [] {
      return Stopped(EmptyPage);
    }
    return Walking(offset + |page.items|, read, seen);
  }

  /** Each turn that goes on uses up one signature and moves the offset. */
  lemma TurnUses<T(!new)>(fetch: (nat, nat) -> Page<T>, identity: T -> string, ids: set<string>, pageSize: nat,
                    maxOffset: Option<nat>, w: Walk<T>, k: nat)
    requires w.Walking? && Turn(w, fetch(k, w.offset), identity, pageSize, maxOffset).Walking?
    ensures var u := Turn(w, fetch(k, w.offset), identity, pageSize, maxOffset);
            && w.offset < u.offset
            && (KnownIds(fetch, identity, ids) ==>
                  Unused(ids, pageSize, u.signatures) < Unused(ids, pageSize, w.signatures))
  {
    if KnownIds(fetch, identity, ids) {
      Listed(fetch, identity, ids, pageSize, k, w.offset);
      assert |Signature(fetch(k, w.offset).items, identity)| > 0;
      Fewer(ids, pageSize, w.signatures, Signature(fetch(k, w.offset).items, identity));
    }
  }

  /** What the requests made so far have used up: an offset each, and a signature each if ids are known. */
  ghost predicate Afforded<T(!new)>(fetch: (nat, nat) -> Page<T>, identity: T -> string, ids: set<string>, pageSize: nat,
                              maxOffset: Option<nat>, requests: nat, offset: nat, signatures: set<seq<string>>) {
    && requests <= offset && (maxOffset.Some? ==> requests <= maxOffset.value + 1)
    && (KnownIds(fetch, identity, ids) ==>
          requests + Unused(ids, pageSize, signatures) <= |Signatures(ids, pageSize)|)
  }

  /** After so many requests, this is where the walk stands. */
  ghost predicate StandsAt<T(!new)>(fetch: (nat, nat) -> Page<T>, identity: T -> string, ids: set<string>, pageSize: nat,
                              maxOffset: Option<nat>, requests: nat, w: Walk<T>) {
    && w.Walking? && w == Turns(fetch, identity, pageSize, maxOffset, requests)
    && Afforded(fetch, identity, ids, pageSize, maxOffset, requests, w.offset, w.signatures)
  }

  ghost predicate Bounded<T(!new)>(fetch: (nat, nat) -> Page<T>, identity: T -> string, ids: set<string>, pageSize: nat,
                             maxOffset: Option<nat>, requests: nat) {
    && (maxOffset.Some? ==> requests <= maxOffset.value + 2)
    && (KnownIds(fetch, identity, ids) ==> requests <= |Signatures(ids, pageSize)| + 1)
  }

  /** How much is left to use up. */
  ghost function Left<T>(ids: set<string>, pageSize: nat, maxOffset: Option<nat>, w: Walk<T>): nat
    requires w.Walking?
  {
    if maxOffset.None? then Unused(ids, pageSize, w.signatures)
    else if w.offset <= maxOffset.value then maxOffset.value + 1 - w.offset else 0
  }

  lemma StandsAtFirst<T(!new)>(fetch: (nat, nat) -> Page<T>, identity: T -> string, ids: set<string>, pageSize: nat,
                         maxOffset: Option<nat>)
    ensures StandsAt(fetch, identity, ids, pageSize, maxOffset, 0, Walking(0, [], {}))
  {
    UnusedAtFirst(ids, pageSize);
  }

  /** Another request is afforded, and leaves less. */
  lemma OneMoreRequest<T(!new)>(fetch: (nat, nat) -> Page<T>, identity: T -> string, ids: set<string>, pageSize: nat,
                          maxOffset: Option<nat>, requests: nat, w: Walk<T>)
    requires maxOffset.Some? || KnownIds(fetch, identity, ids)
    requires StandsAt(fetch, identity, ids, pageSize, maxOffset, requests, w)
    ensures var u := Turn(w, fetch(requests, w.offset), identity, pageSize, maxOffset);
            && u == Turns(fetch, identity, pageSize, maxOffset, requests + 1)
            && Bounded(fetch, identity, ids, pageSize, maxOffset, requests + 1)
            && (maxOffset.Some? && w.offset > maxOffset.value ==> u == Stopped(OffsetLimit))
            && (u.Walking? ==> StandsAt(fetch, identity, ids, pageSize, maxOffset, requests + 1, u)
                               && Left(ids, pageSize, maxOffset, u) < Left(ids, pageSize, maxOffset, w))
  {
    NextTurn(fetch, identity, pageSize, maxOffset, requests);
    if Turn(w, fetch(requests, w.offset), identity, pageSize, maxOffset).Walking? {
      TurnUses(fetch, identity, ids, pageSize, maxOffset, w, requests);
    }
    hide KnownIds, Unused, Signatures, Turns;
  }

  /** `_walk_pages`. The walk ends for every source, however unstable, that has an offset limit or draws its
      ids from a finite set. In the one case every turn moves the offset, in the other no signature is accepted
      twice; so the limit, or the number of signatures, bounds the requests. */
  method WalkPages<T(!new)>(fetch: (nat, nat) -> Page<T>, identity: T -> string, pageSize: nat, maxOffset: Option<nat>,
                      ghost ids: set<string>)
    returns (outcome: Walk<T>, requests: nat)
    requires maxOffset.Some? || KnownIds(fetch, identity, ids)
    ensures !outcome.Walking?
    ensures outcome == Turns(fetch, identity, pageSize, maxOffset, requests)
    ensures Bounded(fetch, identity, ids, pageSize, maxOffset, requests)
  {
    var offset: nat, result: seq<T>, signatures: set<seq<string>> := 0, [], {};
    requests := 0;
    StandsAtFirst(fetch, identity, ids, pageSize, maxOffset);
    hide *;
    while true
      invariant StandsAt(fetch, identity, ids, pageSize, maxOffset, requests, Walking(offset, result, signatures))
      decreases Left(ids, pageSize, maxOffset, Walking(offset, result, signatures))
    {
      OneMoreRequest(fetch, identity, ids, pageSize, maxOffset, requests, Walking(offset, result, signatures));
      if maxOffset.Some? && offset > maxOffset.value {
        return Stopped(OffsetLimit), requests + 1;
      }
      var page := fetch(requests, offset);
      var next := TakePage(page, identity, pageSize, maxOffset, offset, result, signatures);
      requests := requests + 1;
      if !next.Walking? {
        return next, requests;
      }
      offset, result, signatures := next.offset, next.result, next.signatures;
    }
  }

  // ---------- what a walk returns ----------

  function Smaller(a: nat, b: nat): nat {
    if a < b then a else b
  }

  /** A source that answers from one fixed list. The user-task source does not know whether there is more: it
      guesses so from a full page. */
  function StablePage<T>(list: seq<T>, pageSize: nat, guesses: bool, offset: nat): Page<T> {
    var items := list[Smaller(offset, |list|)..Smaller(offset + pageSize, |list|)];
    Page(items, if guesses then |items| == pageSize else offset + pageSize < |list|)
  }

  ghost predicate Stable<T(!new)>(fetch: (nat, nat) -> Page<T>, list: seq<T>, pageSize: nat, guesses: bool) {
    forall k: nat, o: nat :: fetch(k, o) == StablePage(list, pageSize, guesses, o)
  }

  ghost predicate Distinct<T(!new)>(list: seq<T>, identity: T -> string) {
    forall i, j | 0 <= i < j < |list| :: identity(list[i]) != identity(list[j])
  }

  /** The first o records have been read, and every signature seen begins with one of them. */
  ghost predicate HasRead<T(!new)>(w: Walk<T>, list: seq<T>, identity: T -> string, o: nat) {
    && o <= |list| && w.Walking? && w.offset == o && w.result == list[..o]
    && forall s | s in w.signatures :: s != [] && exists j :: 0 <= j < o && s[0] == identity(list[j])
  }

  lemma StableTurn<T(!new)>(w: Walk<T>, list: seq<T>, identity: T -> string, pageSize: nat, guesses: bool,
                      maxOffset: Option<nat>, o: nat)
    requires HasRead(w, list, identity, o) && Distinct(list, identity) && pageSize > 0
    requires maxOffset.Some? ==> o <= maxOffset.value
    ensures var p := StablePage(list, pageSize, guesses, o);
            var u := Turn(w, p, identity, pageSize, maxOffset);
            if p.hasMore then o + pageSize <= |list| && HasRead(u, list, identity, o + pageSize) else u == Returned(list)
  {
    var p := StablePage(list, pageSize, guesses, o);
    var s := Signature(p.items, identity);
    if s != [] {
      assert |p.items| == |s| && p.items[0] == list[o] && s[0] == identity(list[o]);
      assert s !in w.signatures;
    }
    assert list[..o] + p.items == list[..Smaller(o + pageSize, |list|)];
    if p.hasMore {
      var u := Turn(w, p, identity, pageSize, maxOffset);
      forall t | t in u.signatures
        ensures t != [] && exists j :: 0 <= j < o + pageSize && t[0] == identity(list[j])
      {
        if t in w.signatures {
          var j :| 0 <= j < o && t[0] == identity(list[j]);
          assert 0 <= j < o + pageSize;
        } else {
          assert t == s && t[0] == identity(list[o]);
        }
      }
    }
  }

  lemma {:induction false} StableWalk<T(!new)>(fetch: (nat, nat) -> Page<T>, identity: T -> string, list: seq<T>,
                                         pageSize: nat, guesses: bool, n: nat, o: nat)
    requires Stable(fetch, list, pageSize, guesses) && Distinct(list, identity) && pageSize > 0
    requires HasRead(Turns(fetch, identity, pageSize, None, n), list, identity, o)
    ensures exists m: nat :: Turns(fetch, identity, pageSize, None, m) == Returned(list)
    decreases |list| - o
  {
    var w := Turns(fetch, identity, pageSize, None, n);
    StableTurn(w, list, identity, pageSize, guesses, None, o);
    assert Turns(fetch, identity, pageSize, None, n + 1)
        == Turn(w, StablePage(list, pageSize, guesses, o), identity, pageSize, None);
    if !StablePage(list, pageSize, guesses, o).hasMore {
    } else {
      StableWalk(fetch, identity, list, pageSize, guesses, n + 1, o + pageSize);
    }
  }

  /** A walk that has ended stays ended. */
  lemma {:induction false} EndedStays<T>(fetch: (nat, nat) -> Page<T>, identity: T -> string, pageSize: nat,
                                   maxOffset: Option<nat>, m: nat, n: nat)
    requires m <= n && !Turns(fetch, identity, pageSize, maxOffset, m).Walking?
    ensures Turns(fetch, identity, pageSize, maxOffset, n) == Turns(fetch, identity, pageSize, maxOffset, m)
    decreases n
  {
    if m == n {
    } else {
      EndedStays(fetch, identity, pageSize, maxOffset, m, n - 1);
    }
  }

  /** From a stable list with distinct ids the walk returns exactly that list, in order. */
  lemma StableListIsReturned<T(!new)>(fetch: (nat, nat) -> Page<T>, identity: T -> string, list: seq<T>,
                                pageSize: nat, guesses: bool, n: nat)
    requires Stable(fetch, list, pageSize, guesses) && Distinct(list, identity) && pageSize > 0
    ensures exists m: nat :: Turns(fetch, identity, pageSize, None, m) == Returned(list)
    ensures var w := Turns(fetch, identity, pageSize, None, n); w.Walking? || w == Returned(list)
  {
    assert HasRead(Turns(fetch, identity, pageSize, None, 0), list, identity, 0);
    StableWalk(fetch, identity, list, pageSize, guesses, 0, 0);
    var m: nat :| Turns(fetch, identity, pageSize, None, m) == Returned(list);
    if !Turns(fetch, identity, pageSize, None, n).Walking? {
      if m <= n { EndedStays(fetch, identity, pageSize, None, m, n); }
      else { EndedStays(fetch, identity, pageSize, None, n, m); }
    }
  }

  const WORK_LOG_PAGE := 200
  const WORK_LOG_MAX_OFFSET := 10_000
  const WORK_LOG_CAPACITY := 10_200

  function WorkLogTurns<T>(fetch: (nat, nat) -> Page<T>, identity: T -> string, n: nat): Walk<T> {
    Turns(fetch, identity, WORK_LOG_PAGE, Some(WORK_LOG_MAX_OFFSET), n)
  }

  /** One more turn of the walk over a stable list, from an offset within or past the limit. */
  lemma WorkLogTurn<T(!new)>(fetch: (nat, nat) -> Page<T>, identity: T -> string, list: seq<T>, n: nat, o: nat)
    requires Stable(fetch, list, WORK_LOG_PAGE, false) && Distinct(list, identity)
    requires HasRead(WorkLogTurns(fetch, identity, n), list, identity, o)
    ensures var u := WorkLogTurns(fetch, identity, n + 1);
            if o > WORK_LOG_MAX_OFFSET then u == Stopped(OffsetLimit)
            else if o + WORK_LOG_PAGE < |list| then HasRead(u, list, identity, o + WORK_LOG_PAGE)
            else u == Returned(list)
  {
    var w := WorkLogTurns(fetch, identity, n);
    if o <= WORK_LOG_MAX_OFFSET {
      StableTurn(w, list, identity, WORK_LOG_PAGE, false, Some(WORK_LOG_MAX_OFFSET), o);
    }
  }

  lemma Offsets(o: nat)
    requires o % WORK_LOG_PAGE == 0
    ensures (o + WORK_LOG_PAGE) % WORK_LOG_PAGE == 0 && WORK_LOG_PAGE > 0
    ensures if o <= WORK_LOG_MAX_OFFSET then o + WORK_LOG_PAGE <= WORK_LOG_CAPACITY else o > 0 && o >= WORK_LOG_CAPACITY
  {
  }

  lemma {:induction false} WorkLogWalk<T(!new)>(fetch: (nat, nat) -> Page<T>, identity: T -> string, list: seq<T>,
                                          n: nat, o: nat)
    returns (m: nat)
    requires Stable(fetch, list, WORK_LOG_PAGE, false) && Distinct(list, identity)
    requires HasRead(WorkLogTurns(fetch, identity, n), list, identity, o)
    requires o % WORK_LOG_PAGE == 0 && (o > 0 ==> o < |list|)
    ensures WorkLogTurns(fetch, identity, m)
            == if |list| <= WORK_LOG_CAPACITY then Returned(list) else Stopped(OffsetLimit)
    decreases |list| - o
  {
    hide *;
    WorkLogTurn(fetch, identity, list, n, o);
    Offsets(o);
    if o <= WORK_LOG_MAX_OFFSET && o + WORK_LOG_PAGE < |list| {
      m := WorkLogWalk(fetch, identity, list, n + 1, o + WORK_LOG_PAGE);
    } else {
      m := n + 1;
    }
  }

  /** The work-log walk returns a stable list exactly up to 10,200 records, and fails closed beyond. */
  lemma WorkLogCapacity<T(!new)>(fetch: (nat, nat) -> Page<T>, identity: T -> string, list: seq<T>, n: nat)
    requires Stable(fetch, list, WORK_LOG_PAGE, false) && Distinct(list, identity)
    requires !WorkLogTurns(fetch, identity, n).Walking?
    ensures WorkLogTurns(fetch, identity, n) == Returned(list) <==> |list| <= WORK_LOG_CAPACITY
    ensures WorkLogTurns(fetch, identity, n).Stopped? <==> |list| > WORK_LOG_CAPACITY
  {
    var max := Some(WORK_LOG_MAX_OFFSET);
    assert HasRead(WorkLogTurns(fetch, identity, 0), list, identity, 0);
    var m := WorkLogWalk(fetch, identity, list, 0, 0);
    if m <= n {
      EndedStays(fetch, identity, WORK_LOG_PAGE, max, m, n);
    } else {
      EndedStays(fetch, identity, WORK_LOG_PAGE, max, n, m);
    }
  }

  /** No two non-empty pages among the first n showed the same ids. */
  ghost predicate Unrepeated<T(!new)>(fetch: (nat, nat) -> Page<T>, identity: T -> string, n: nat) {
    forall j, k | 0 <= j < k < n && Asked(fetch, k).items != [] ::
      Signature(Asked(fetch, j).items, identity) != Signature(Asked(fetch, k).items, identity)
  }

  /** The first n pages kept to the size asked for, and promised more, except the last if it is said to end. */
  ghost predicate Orderly<T(!new)>(fetch: (nat, nat) -> Page<T>, pageSize: nat, n: nat, ended: bool) {
    forall k | 0 <= k < n ::
      && |Asked(fetch, k).items| <= pageSize
      && (Asked(fetch, k).hasMore <==> !(ended && k == n - 1))
  }

  /** The first n pages were within the limit, and only the very last may be empty. */
  ghost predicate Within<T(!new)>(fetch: (nat, nat) -> Page<T>, maxOffset: Option<nat>, n: nat, ended: bool) {
    forall k | 0 <= k < n ::
      && (maxOffset.Some? ==> |Shown(fetch, k)| <= maxOffset.value)
      && (Asked(fetch, k).items == [] ==> ended && k == n - 1)
  }

  /** The source showed m pages in order and then ended. */
  ghost predicate WellShown<T(!new)>(fetch: (nat, nat) -> Page<T>, identity: T -> string, pageSize: nat,
                               maxOffset: Option<nat>, m: nat) {
    m > 0 && Orderly(fetch, pageSize, m, true) && Unrepeated(fetch, identity, m) && Within(fetch, maxOffset, m, true)
  }

  /** Whatever the source did, a returned result is everything it showed: each page was asked for at the number
      of records read so far, within the limit; none was larger than asked for; each but the last promised more and
      was not empty; and no two non-empty pages showed the same ids. */
  lemma {:induction false} ReturnedIsAllThatWasShown<T(!new)>(fetch: (nat, nat) -> Page<T>, identity: T -> string,
      pageSize: nat, maxOffset: Option<nat>, n: nat)
    requires Turns(fetch, identity, pageSize, maxOffset, n).Returned?
    ensures exists m: nat ::
              && m <= n && Turns(fetch, identity, pageSize, maxOffset, n).result == Shown(fetch, m)
              && WellShown(fetch, identity, pageSize, maxOffset, m)
    decreases n
  {
    var w := Turns(fetch, identity, pageSize, maxOffset, n - 1);
    if w.Walking? {
      PagesSoFar(fetch, identity, pageSize, maxOffset, n - 1);
      LastPage(fetch, identity, pageSize, maxOffset, n - 1);
      WithinSoFar(fetch, identity, pageSize, maxOffset, n - 1);
      LastWithin(fetch, identity, pageSize, maxOffset, n - 1);
      hide Orderly, Unrepeated, Within;
      assert WellShown(fetch, identity, pageSize, maxOffset, n);
    } else {
      ReturnedIsAllThatWasShown(fetch, identity, pageSize, maxOffset, n - 1);
    }
  }

  lemma {:induction false} WithinSoFar<T(!new)>(fetch: (nat, nat) -> Page<T>, identity: T -> string,
                                          pageSize: nat, maxOffset: Option<nat>, n: nat)
    requires Turns(fetch, identity, pageSize, maxOffset, n).Walking?
    ensures Within(fetch, maxOffset, n, false)
    decreases n
  {
    if n == 0 {
    } else {
      WithinSoFar(fetch, identity, pageSize, maxOffset, n - 1);
      LastWithin(fetch, identity, pageSize, maxOffset, n - 1);
    }
  }

  lemma LastWithin<T(!new)>(fetch: (nat, nat) -> Page<T>, identity: T -> string,
                      pageSize: nat, maxOffset: Option<nat>, n: nat)
    requires Turns(fetch, identity, pageSize, maxOffset, n).Walking?
    requires !Turns(fetch, identity, pageSize, maxOffset, n + 1).Stopped?
    requires Within(fetch, maxOffset, n, false)
    ensures Within(fetch, maxOffset, n + 1, Turns(fetch, identity, pageSize, maxOffset, n + 1).Returned?)
  {
    StandsAtTheEnd(fetch, identity, pageSize, maxOffset, n);
    NextTurn(fetch, identity, pageSize, maxOffset, n);
    hide Turns, Shown, SignaturesShown, Signature;
  }

  lemma {:induction false} ShownWas<T>(fetch: (nat, nat) -> Page<T>, identity: T -> string, n: nat, s: seq<string>)
    requires s in SignaturesShown(fetch, identity, n)
    ensures exists j :: 0 <= j < n && Signature(Asked(fetch, j).items, identity) == s
    decreases n
  {
    if n == 0 {
    } else if s in SignaturesShown(fetch, identity, n - 1) {
      ShownWas(fetch, identity, n - 1, s);
    } else {
      assert 0 <= n - 1 < n && Signature(Asked(fetch, n - 1).items, identity) == s;
    }
  }

  lemma {:induction false} WalksOn<T(!new)>(fetch: (nat, nat) -> Page<T>, identity: T -> string, pageSize: nat,
                                      maxOffset: Option<nat>, m: nat, k: nat)
    requires WellShown(fetch, identity, pageSize, maxOffset, m) && k < m
    ensures Turns(fetch, identity, pageSize, maxOffset, k).Walking?
    decreases k
  {
    if k == 0 {
    } else {
      WalksOn(fetch, identity, pageSize, maxOffset, m, k - 1);
      PageIsTaken(fetch, identity, pageSize, maxOffset, m, k - 1);
    }
  }

  /** A page of an orderly source is taken. */
  lemma PageIsTaken<T(!new)>(fetch: (nat, nat) -> Page<T>, identity: T -> string, pageSize: nat,
                       maxOffset: Option<nat>, m: nat, k: nat)
    requires WellShown(fetch, identity, pageSize, maxOffset, m) && k < m
    requires Turns(fetch, identity, pageSize, maxOffset, k).Walking?
    ensures var u := Turns(fetch, identity, pageSize, maxOffset, k + 1);
            if k == m - 1 then u == Returned(Shown(fetch, m)) else u.Walking?
  {
    StandsAtTheEnd(fetch, identity, pageSize, maxOffset, k);
    NextTurn(fetch, identity, pageSize, maxOffset, k);
    var s := Signature(Asked(fetch, k).items, identity);
    if s != [] && s in SignaturesShown(fetch, identity, k) {
      ShownWas(fetch, identity, k, s);
    }
    assert Shown(fetch, k + 1) == Shown(fetch, k) + Asked(fetch, k).items;
    hide Turns, Shown, SignaturesShown;
  }

  /** The walk returns, with everything, exactly when the source shows orderly pages and then ends. */
  lemma ReturnsIffWellShown<T(!new)>(fetch: (nat, nat) -> Page<T>, identity: T -> string, pageSize: nat,
                               maxOffset: Option<nat>)
    ensures (exists n: nat :: Turns(fetch, identity, pageSize, maxOffset, n).Returned?)
            <==> (exists m: nat :: WellShown(fetch, identity, pageSize, maxOffset, m))
    ensures forall m: nat | WellShown(fetch, identity, pageSize, maxOffset, m) ::
              Turns(fetch, identity, pageSize, maxOffset, m) == Returned(Shown(fetch, m))
  {
    hide WellShown, Turns, Shown;
    forall m: nat | WellShown(fetch, identity, pageSize, maxOffset, m)
      ensures Turns(fetch, identity, pageSize, maxOffset, m) == Returned(Shown(fetch, m))
    {
      Positive(fetch, identity, pageSize, maxOffset, m);
      WalksOn(fetch, identity, pageSize, maxOffset, m, m - 1);
      PageIsTaken(fetch, identity, pageSize, maxOffset, m, m - 1);
    }
    if n: nat :| Turns(fetch, identity, pageSize, maxOffset, n).Returned? {
      ReturnedIsAllThatWasShown(fetch, identity, pageSize, maxOffset, n);
    }
  }

  lemma Positive<T(!new)>(fetch: (nat, nat) -> Page<T>, identity: T -> string, pageSize: nat,
                    maxOffset: Option<nat>, m: nat)
    requires WellShown(fetch, identity, pageSize, maxOffset, m)
    ensures m > 0
  {
  }

  /** What a turn that did not fail says about the page it read. */
  lemma PageAccepted<T(!new)>(fetch: (nat, nat) -> Page<T>, identity: T -> string,
                        pageSize: nat, maxOffset: Option<nat>, n: nat)
    requires Turns(fetch, identity, pageSize, maxOffset, n).Walking?
    requires !Turns(fetch, identity, pageSize, maxOffset, n + 1).Stopped?
    ensures var u, p := Turns(fetch, identity, pageSize, maxOffset, n + 1), Asked(fetch, n);
            && |p.items| <= pageSize && (p.hasMore <==> u.Walking?)
            && (p.items != [] ==> Signature(p.items, identity) !in SignaturesShown(fetch, identity, n))
            && u.result == Shown(fetch, n + 1)
  {
    StandsAtTheEnd(fetch, identity, pageSize, maxOffset, n);
    assert |Signature(Asked(fetch, n).items, identity)| == |Asked(fetch, n).items|;
  }

  lemma OneMoreOrderly<T(!new)>(fetch: (nat, nat) -> Page<T>, pageSize: nat, n: nat, ended: bool)
    requires Orderly(fetch, pageSize, n, false)
    requires |Asked(fetch, n).items| <= pageSize && (Asked(fetch, n).hasMore <==> !ended)
    ensures Orderly(fetch, pageSize, n + 1, ended)
  {
  }

  lemma LastPage<T(!new)>(fetch: (nat, nat) -> Page<T>, identity: T -> string,
                    pageSize: nat, maxOffset: Option<nat>, n: nat)
    requires Turns(fetch, identity, pageSize, maxOffset, n).Walking?
    requires !Turns(fetch, identity, pageSize, maxOffset, n + 1).Stopped?
    requires Orderly(fetch, pageSize, n, false) && Unrepeated(fetch, identity, n)
    ensures var u := Turns(fetch, identity, pageSize, maxOffset, n + 1);
            u.result == Shown(fetch, n + 1) && Orderly(fetch, pageSize, n + 1, u.Returned?)
    ensures Unrepeated(fetch, identity, n + 1)
  {
    PageAccepted(fetch, identity, pageSize, maxOffset, n);
    NotShownBefore(fetch, identity, n);
    hide Turns, Shown, SignaturesShown, Signature;
    OneMoreOrderly(fetch, pageSize, n, Turns(fetch, identity, pageSize, maxOffset, n + 1).Returned?);
  }

  /** The records of the first n pages, each asked for where the ones before it end. */
  function Shown<T>(fetch: (nat, nat) -> Page<T>, n: nat): seq<T>
    decreases n
  {
    if n == 0 then [] else Shown(fetch, n - 1) + fetch(n - 1, |Shown(fetch, n - 1)|).items
  }

  function Asked<T>(fetch: (nat, nat) -> Page<T>, k: nat): Page<T> {
    fetch(k, |Shown(fetch, k)|)
  }

  function SignaturesShown<T>(fetch: (nat, nat) -> Page<T>, identity: T -> string, n: nat): set<seq<string>>
    decreases n
  {
    if n == 0 then {}
    else SignaturesShown(fetch, identity, n - 1) + {Signature(Asked(fetch, n - 1).items, identity)}
  }

  lemma {:induction false} WasShown<T>(fetch: (nat, nat) -> Page<T>, identity: T -> string, n: nat, k: nat)
    requires k < n
    ensures Signature(Asked(fetch, k).items, identity) in SignaturesShown(fetch, identity, n)
    decreases n
  {
    if k == n - 1 {
    } else {
      WasShown(fetch, identity, n - 1, k);
    }
  }

  /** While the walk goes on it has read what was shown, at the offset where it stands. */
  lemma {:induction false} StandsAtTheEnd<T>(fetch: (nat, nat) -> Page<T>, identity: T -> string,
                                       pageSize: nat, maxOffset: Option<nat>, n: nat)
    requires Turns(fetch, identity, pageSize, maxOffset, n).Walking?
    ensures var w := Turns(fetch, identity, pageSize, maxOffset, n);
            w.result == Shown(fetch, n) && w.offset == |w.result| && w.signatures == SignaturesShown(fetch, identity, n)
    decreases n
  {
    if n == 0 {
    } else {
      StandsAtTheEnd(fetch, identity, pageSize, maxOffset, n - 1);
    }
  }

  lemma {:induction false} PagesSoFar<T(!new)>(fetch: (nat, nat) -> Page<T>, identity: T -> string,
                                         pageSize: nat, maxOffset: Option<nat>, n: nat)
    requires Turns(fetch, identity, pageSize, maxOffset, n).Walking?
    ensures Orderly(fetch, pageSize, n, false) && Unrepeated(fetch, identity, n)
    decreases n
  {
    if n == 0 {
    } else {
      PagesSoFar(fetch, identity, pageSize, maxOffset, n - 1);
      LastPage(fetch, identity, pageSize, maxOffset, n - 1);
    }
  }

  lemma NotShownBefore<T>(fetch: (nat, nat) -> Page<T>, identity: T -> string, n: nat)
    ensures Signature(Asked(fetch, n).items, identity) !in SignaturesShown(fetch, identity, n) ==>
              forall j | 0 <= j < n ::
                Signature(Asked(fetch, j).items, identity) != Signature(Asked(fetch, n).items, identity)
  {
    forall j | 0 <= j < n
      ensures Signature(Asked(fetch, j).items, identity) in SignaturesShown(fetch, identity, n)
    {
      WasShown(fetch, identity, n, j);
    }
  }

  /** A source that keeps inventing ids keeps an unlimited walk going for ever. */
  lemma {:induction false} EndlessSource(identity: int -> string, n: nat)
    requires forall i, j :: i != j ==> identity(i) != identity(j)
    ensures var w := Turns(Inventing, identity, 1, None, n);
            w.Walking? && forall s | s in w.signatures :: exists k :: 0 <= k < n && s == [identity(k)]
    decreases n
  {
    if n == 0 {
    } else {
      EndlessSource(identity, n - 1);
      var w, u := Turns(Inventing, identity, 1, None, n - 1), Turns(Inventing, identity, 1, None, n);
      assert Signature([n - 1], identity) == [identity(n - 1)];
      forall k | 0 <= k < n - 1
        ensures [identity(k)] != [identity(n - 1)]
      {
        assert [identity(k)][0] != [identity(n - 1)][0];
      }
      assert [identity(n - 1)] !in w.signatures;
      assert u == Turn(w, Inventing(n - 1, w.offset), identity, 1, None);
      forall s | s in u.signatures
        ensures exists k :: 0 <= k < n && s == [identity(k)]
      {
        if s in w.signatures {
          var k :| 0 <= k < n - 1 && s == [identity(k)];
          assert 0 <= k < n;
        } else {
          assert 0 <= n - 1 < n && s == [identity(n - 1)];
        }
      }
    }
  }

  function Inventing(k: nat, o: nat): Page<int> {
    Page([k], true)
  }
}
