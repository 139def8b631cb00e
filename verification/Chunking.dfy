/** The document chunkers: two sliding-window loops that agree, and a recursive splitter above them. */
module Chunking {

  datatype Chunk = Chunk(documentId: string, index: nat, content: string, tokenCount: nat)

  function Min(a: int, b: int): int {
    if a < b then a else b
  }

  // ---------- windows ----------

  /** The loop gets to the end of the text exactly for these parameters; see `WindowsStuckIff`. */
  predicate Ends(text: string, size: nat, overlap: nat) {
    |text| <= size || overlap < size
  }

  /** The windows from a start on: each begins `overlap` characters before the end of the last. */
  function Windows(text: string, size: nat, overlap: nat, start: nat): seq<string>
    requires start <= |text|
    requires overlap < size || |text| <= start + size
    decreases |text| - start
  {
    if start == |text| then []
    else
      var end := Min(start + size, |text|);
      [text[start..end]] + if end < |text| then Windows(text, size, overlap, end - overlap) else []
  }

  function Numbered(contents: seq<string>, documentId: string): (r: seq<Chunk>)
    ensures |r| == |contents|
    ensures forall i | 0 <= i < |r| :: r[i] == Chunk(documentId, i, contents[i], |contents[i]|)
  {
    seq(|contents|, i requires 0 <= i < |contents| => Chunk(documentId, i, contents[i], |contents[i]|))
  }

  lemma NumberedGrows(done: seq<string>, c: string, documentId: string)
    ensures Numbered(done + [c], documentId) == Numbered(done, documentId) + [Chunk(documentId, |done|, c, |c|)]
  {
  }

  /** What follows the window that ends at `end`. */
  function Onward(text: string, size: nat, overlap: nat, end: nat): seq<string>
    requires end <= |text|
    requires end < |text| ==> overlap < size && overlap <= end
  {
    if end < |text| then Windows(text, size, overlap, end - overlap) else []
  }

  /** One turn of either loop: the window at the start, and what follows it. */
  lemma OneWindow(text: string, size: nat, overlap: nat, start: nat)
    requires start < |text|
    requires overlap < size || |text| <= start + size
    ensures var end := Min(start + size, |text|);
            && (end < |text| ==> overlap < size && start < end - overlap)
            && Windows(text, size, overlap, start) == [text[start..end]] + Onward(text, size, overlap, end)
  {
  }

  lemma Together<T>(a: seq<T>, b: seq<T>, c: seq<T>)
    ensures a + (b + c) == (a + b) + c
    ensures a + [] == a
  {
  }

  /** The windows done so far and the ones still to come are all there are. */
  lemma OneTurn(text: string, size: nat, overlap: nat, start: nat, done: seq<string>, all: seq<string>)
    requires start < |text| && (overlap < size || |text| <= start + size)
    requires done + Windows(text, size, overlap, start) == all
    ensures var end := Min(start + size, |text|); var next := done + [text[start..end]];
            if end < |text|
            then overlap < size && start < end - overlap && next + Windows(text, size, overlap, end - overlap) == all
            else next == all && next + Windows(text, size, overlap, |text|) == all
  {
    var end := Min(start + size, |text|);
    OneWindow(text, size, overlap, start);
    assert end == |text| ==> Windows(text, size, overlap, |text|) == [];
    hide Windows;
    Together(done, [text[start..end]], Onward(text, size, overlap, end));
    Together(done + [text[start..end]], [], []);
  }

  /** The chunks so far are the windows before the start, and there is nothing else to come than those after it. */
  predicate Progress(done: seq<string>, chunks: seq<Chunk>, text: string, documentId: string, size: nat, overlap: nat,
                     start: int)
    requires Ends(text, size, overlap)
  {
    && 0 <= start <= |text| && (overlap < size || |text| <= start + size)
    && chunks == Numbered(done, documentId)
    && done + Windows(text, size, overlap, start) == Windows(text, size, overlap, 0)
  }

  lemma NoProgressYet(text: string, documentId: string, size: nat, overlap: nat)
    requires Ends(text, size, overlap)
    ensures Progress([], [], text, documentId, size, overlap, 0)
  {
    hide Windows;
  }

  lemma OneMoreChunk(done: seq<string>, chunks: seq<Chunk>, text: string, documentId: string, size: nat, overlap: nat,
                     start: int)
    requires Ends(text, size, overlap) && Progress(done, chunks, text, documentId, size, overlap, start)
    requires start < |text|
    ensures var end := Min(start + size, |text|);
            && 0 <= start <= end <= |text|
            && var c := text[start..end];
            var next := if end < |text| then end - overlap else end;
            && start < next
            && Progress(done + [c], chunks + [Chunk(documentId, |done|, c, |c|)], text, documentId, size, overlap, next)
  {
    OneTurn(text, size, overlap, start, done, Windows(text, size, overlap, 0));
    NumberedGrows(done, text[start..Min(start + size, |text|)], documentId);
    hide Windows, Numbered;
  }

  lemma AllDone(done: seq<string>, chunks: seq<Chunk>, text: string, documentId: string, size: nat, overlap: nat,
                start: int)
    requires Ends(text, size, overlap) && Progress(done, chunks, text, documentId, size, overlap, start)
    requires start >= |text|
    ensures chunks == Numbered(Windows(text, size, overlap, 0), documentId)
  {
    assert Windows(text, size, overlap, |text|) == [];
    hide Windows, Numbered;
    Together(done, [], []);
  }

  /** `FixedLengthChunker.chunk`: after the last window the start moves to the end of the text. */
  method FixedLength(text: string, documentId: string, size: nat, overlap: nat) returns (chunks: seq<Chunk>)
    requires Ends(text, size, overlap)
    ensures chunks == Numbered(Windows(text, size, overlap, 0), documentId)
  {
    chunks := [];
    var start, idx := 0, 0;
    ghost var done: seq<string> := [];
    NoProgressYet(text, documentId, size, overlap);
    hide Progress, Numbered, Windows;
    while start < |text|
      invariant 0 <= start && idx == |done|
      invariant Progress(done, chunks, text, documentId, size, overlap, start)
      decreases |text| - start
    {
      OneMoreChunk(done, chunks, text, documentId, size, overlap, start);
      var end := Min(start + size, |text|);
      var content := text[start..end];
      chunks := chunks + [Chunk(documentId, idx, content, |content|)];
      idx := idx + 1;
      done := done + [content];
      start := if end < |text| then end - overlap else end;
    }
    AllDone(done, chunks, text, documentId, size, overlap, start);
  }

  /** `TokenWindowChunker.chunk`: the loop is left as soon as a window reaches the end of the text. */
  method TokenWindow(text: string, documentId: string, size: nat, overlap: nat) returns (chunks: seq<Chunk>)
    requires Ends(text, size, overlap)
    ensures chunks == Numbered(Windows(text, size, overlap, 0), documentId)
  {
    chunks := [];
    var start, idx := 0, 0;
    ghost var done: seq<string> := [];
    NoProgressYet(text, documentId, size, overlap);
    hide Progress, Numbered, Windows;
    while start < |text|
      invariant 0 <= start && idx == |done|
      invariant Progress(done, chunks, text, documentId, size, overlap, start)
      decreases |text| - start
    {
      OneMoreChunk(done, chunks, text, documentId, size, overlap, start);
      var end := Min(start + size, |text|);
      var content := text[start..end];
      chunks := chunks + [Chunk(documentId, idx, content, |content|)];
      idx := idx + 1;
      done := done + [content];
      if end >= |text| {
        AllDone(done, chunks, text, documentId, size, overlap, end);
        return;
      }
      start := end - overlap;
    }
    AllDone(done, chunks, text, documentId, size, overlap, start);
  }

  function WindowAt(text: string, size: nat, s: nat): string
    requires s <= |text|
  {
    text[s..Min(s + size, |text|)]
  }

  /** Where a window stands in the text, and where the next one does. */
  predicate Stands(text: string, size: nat, overlap: nat, ws: seq<string>, i: nat, s: nat)
    requires overlap < size
  {
    && i < |ws| && s < |text| && ws[i] == WindowAt(text, size, s)
    && (i + 1 < |ws| ==> s + size < |text| && ws[i + 1] == WindowAt(text, size, s + size - overlap))
  }

  lemma StandsAfter(text: string, size: nat, overlap: nat, first: string, later: seq<string>, i: nat, s: nat)
    requires overlap < size && Stands(text, size, overlap, later, i, s)
    ensures Stands(text, size, overlap, [first] + later, i + 1, s)
  {
    hide WindowAt;
    var ws := [first] + later;
    assert ws[i + 1] == later[i] && (i + 1 < |later| ==> ws[i + 2] == later[i + 1]);
  }

  lemma FirstStands(text: string, size: nat, overlap: nat, start: nat)
    requires start < |text| && overlap < size
    ensures Stands(text, size, overlap, Windows(text, size, overlap, start), 0, start)
  {
  }

  lemma {:induction false} WindowStands(text: string, size: nat, overlap: nat, start: nat, i: nat) returns (s: nat)
    requires start <= |text| && overlap < size && i < |Windows(text, size, overlap, start)|
    ensures Stands(text, size, overlap, Windows(text, size, overlap, start), i, s)
    decreases i
  {
    OneWindow(text, size, overlap, start);
    if i == 0 {
      FirstStands(text, size, overlap, start);
      s := start;
    } else {
      var end := Min(start + size, |text|);
      var later := Onward(text, size, overlap, end);
      assert later == Windows(text, size, overlap, end - overlap);
      hide Windows, Onward, Stands;
      s := WindowStands(text, size, overlap, end - overlap, i - 1);
      StandsAfter(text, size, overlap, text[start..end], later, i - 1, s);
    }
  }

  /** No window is larger than the size, none is empty, and each one after the first reaches past what it
      repeats. */
  lemma WindowIsBounded(text: string, size: nat, overlap: nat, start: nat, i: nat)
    requires start <= |text| && overlap < size && i < |Windows(text, size, overlap, start)|
    ensures var ws := Windows(text, size, overlap, start);
            && 0 < |ws[i]| <= size
            && (i > 0 ==> overlap < |ws[i]|)
            && (i + 1 < |ws| ==> |ws[i]| == size)
  {
    var s := WindowStands(text, size, overlap, start, i);
    if i > 0 {
      var r := WindowStands(text, size, overlap, start, i - 1);
    }
    hide Windows;
  }

  lemma WindowsMeet(text: string, size: nat, overlap: nat, s: nat)
    requires overlap < size && s + size < |text|
    ensures var x, y := WindowAt(text, size, s), WindowAt(text, size, s + size - overlap);
            overlap <= |x| && overlap <= |y| && y[..overlap] == x[|x| - overlap..]
  {
    var shared := text[s + size - overlap..s + size];
    assert WindowAt(text, size, s)[size - overlap..] == shared;
    assert WindowAt(text, size, s + size - overlap)[..overlap] == shared;
  }

  /** Each window begins with the last `overlap` characters of the one before it. */
  lemma WindowsOverlap(text: string, size: nat, overlap: nat, start: nat, i: nat)
    requires start <= |text| && overlap < size && i + 1 < |Windows(text, size, overlap, start)|
    ensures var ws := Windows(text, size, overlap, start);
            && overlap <= |ws[i]| && overlap <= |ws[i + 1]|
            && ws[i + 1][..overlap] == ws[i][|ws[i]| - overlap..]
  {
    var s := WindowStands(text, size, overlap, start, i);
    hide Windows, WindowAt;
    WindowsMeet(text, size, overlap, s);
  }

  /** The windows one after another, each later one without its first `overlap` characters. */
  function Rebuilt(ws: seq<string>, overlap: nat): string {
    if ws == [] then "" else ws[0] + Tails(ws[1..], overlap)
  }

  function Tails(ws: seq<string>, overlap: nat): string {
    if ws == [] then "" else ws[0][Min(overlap, |ws[0]|)..] + Tails(ws[1..], overlap)
  }

  lemma TailsOfOneMore(first: string, later: seq<string>, overlap: nat)
    ensures Tails([first] + later, overlap) == first[Min(overlap, |first|)..] + Tails(later, overlap)
  {
    assert ([first] + later)[1..] == later;
  }

  lemma Slices(text: string, start: nat, overlap: nat, next: nat)
    requires start + overlap <= next <= |text|
    ensures text[start..next][overlap..] == text[start + overlap..next]
    ensures text[start + overlap..next] + text[next..] == text[start + overlap..]
  {
  }

  /** What the windows add to a text that is known up to `end`. */
  lemma {:induction false} TailsFrom(text: string, size: nat, overlap: nat, end: nat)
    requires overlap < size && overlap <= end < |text|
    ensures Tails(Windows(text, size, overlap, end - overlap), overlap) == text[end..]
    decreases |text| - end
  {
    var start := end - overlap;
    var next := Min(start + size, |text|);
    OneWindow(text, size, overlap, start);
    var later := Onward(text, size, overlap, next);
    assert next == |text| ==> later == [] && Tails([], overlap) == "" && text[next..] == "";
    assert next < |text| ==> later == Windows(text, size, overlap, next - overlap);
    assert start + overlap == end < next <= |text|;
    hide Windows, Tails, Onward;
    if next == |text| {
    } else {
      TailsFrom(text, size, overlap, next);
    }
    TailsOfOneMore(text[start..next], later, overlap);
    Slices(text, start, overlap, next);
  }

  /** Nothing of the text is lost: dropping the repeated characters gives it back. */
  lemma WindowsRebuildTheText(text: string, size: nat, overlap: nat)
    requires overlap < size
    ensures Rebuilt(Windows(text, size, overlap, 0), overlap) == text
  {
    if text != "" {
      var end := Min(size, |text|);
      var later := Onward(text, size, overlap, end);
      OneWindow(text, size, overlap, 0);
      RebuiltFrom(text[0..end], later, overlap);
      TailsFollow(text, size, overlap, end);
      hide Windows, Onward, Rebuilt, Tails;
      Halves(text, end);
    }
  }

  lemma TailsFollow(text: string, size: nat, overlap: nat, end: nat)
    requires overlap < size && (end < |text| ==> overlap <= end) && end <= |text|
    ensures Tails(Onward(text, size, overlap, end), overlap) == text[end..]
  {
    if end < |text| {
      TailsFrom(text, size, overlap, end);
    }
  }

  lemma Halves(text: string, end: nat)
    requires end <= |text|
    ensures text[0..end] + text[end..] == text
  {
  }

  lemma RebuiltFrom(first: string, later: seq<string>, overlap: nat)
    ensures Rebuilt([first] + later, overlap) == first + Tails(later, overlap)
  {
    assert ([first] + later)[1..] == later;
  }

  // ---------- when the loop does not end ----------

  /** Where the window loop stands after n turns, if it is still going: the start may be negative. */
  function StartAfter(length: nat, size: nat, overlap: nat, n: nat): int
    decreases n
  {
    if n == 0 then 0
    else
      var start := StartAfter(length, size, overlap, n - 1);
      if start >= length then start
      else
        var end := Min(start + size, length);
        if end < length then end - overlap else end
  }

  lemma {:induction false} NeverForward(length: nat, size: nat, overlap: nat, n: nat)
    requires size < length && size <= overlap
    ensures StartAfter(length, size, overlap, n) <= 0
    decreases n
  {
    if n == 0 {
    } else {
      NeverForward(length, size, overlap, n - 1);
    }
  }

  lemma {:induction false} MovesForward(length: nat, size: nat, overlap: nat, n: nat)
    requires overlap < size
    ensures StartAfter(length, size, overlap, n) >= Min(n, length)
    decreases n
  {
    if n == 0 {
    } else {
      MovesForward(length, size, overlap, n - 1);
    }
  }

  /** The loop reaches the end of its text after finitely many turns. */
  ghost predicate LoopEnds(text: string, size: nat, overlap: nat) {
    exists n: nat :: StartAfter(|text|, size, overlap, n) >= |text|
  }

  /** The loop reaches the end of the text, after finitely many turns, exactly when the text fits one window or
      the overlap is smaller than the window. */
  lemma WindowsStuckIff(text: string, size: nat, overlap: nat)
    ensures LoopEnds(text, size, overlap) <==> Ends(text, size, overlap)
  {
    if overlap < size {
      MovesForward(|text|, size, overlap, |text|);
    } else if |text| <= size {
      assert StartAfter(|text|, size, overlap, 0) == 0;
      assert StartAfter(|text|, size, overlap, 1) >= |text|;
    } else {
      forall n: nat
        ensures StartAfter(|text|, size, overlap, n) < |text|
      {
        NeverForward(|text|, size, overlap, n);
      }
    }
  }

  // ---------- splitting at separators ----------

  predicate OccursAt(text: string, sep: string, k: nat) {
    k + |sep| <= |text| && text[k..k + |sep|] == sep
  }

  function FindFrom(text: string, sep: string, k: nat): (r: nat)
    requires k <= |text|
    ensures k <= r <= |text|
    ensures r < |text| ==> OccursAt(text, sep, r)
    ensures forall j | k <= j < r :: !OccursAt(text, sep, j)
    decreases |text| - k
  {
    if k == |text| || OccursAt(text, sep, k) then k else FindFrom(text, sep, k + 1)
  }

  /** `str.split`: cut at the occurrences of the separator, from the left. */
  function SplitOn(text: string, sep: string): (parts: seq<string>)
    requires sep != ""
    ensures parts != []
    decreases |text|
  {
    var k := FindFrom(text, sep, 0);
    if k == |text| then [text] else [text[..k]] + SplitOn(text[k + |sep|..], sep)
  }

  function Join(parts: seq<string>, sep: string): string
    decreases |parts|
  {
    if parts == [] then ""
    else if |parts| == 1 then parts[0]
    else Join(parts[..|parts| - 1], sep) + sep + parts[|parts| - 1]
  }

  lemma {:induction false} JoinInFront(first: string, parts: seq<string>, sep: string)
    requires parts != []
    ensures Join([first] + parts, sep) == first + sep + Join(parts, sep)
    decreases |parts|
  {
    var n := |parts| - 1;
    assert ([first] + parts)[..n + 1] == [first] + parts[..n];
    if n > 0 {
      JoinInFront(first, parts[..n], sep);
      assert ([first] + parts)[n + 1] == parts[n];
      Regroup(first + sep, Join(parts[..n], sep), sep);
      Regroup(first + sep, Join(parts[..n], sep) + sep, parts[n]);
    } else {
      assert Join([first] + parts[..0], sep) == first;
    }
  }

  lemma Regroup(a: string, b: string, c: string)
    ensures (a + b) + c == a + (b + c)
  {
  }

  lemma CutAt(text: string, sep: string, k: nat)
    requires OccursAt(text, sep, k)
    ensures text == text[..k] + sep + text[k + |sep|..]
  {
    assert text[..k] + text[k..k + |sep|] == text[..k + |sep|];
  }

  /** Joining what a split gave yields the text. */
  lemma {:induction false} SplitThenJoin(text: string, sep: string)
    requires sep != ""
    ensures Join(SplitOn(text, sep), sep) == text
    decreases |text|
  {
    var k := FindFrom(text, sep, 0);
    if k == |text| {
    } else {
      var rest := text[k + |sep|..];
      SplitThenJoin(rest, sep);
      var front, more := text[..k], SplitOn(rest, sep);
      JoinInFront(front, more, sep);
      CutAt(text, sep, k);
      assert SplitOn(text, sep) == [front] + more;
      hide Join, SplitOn, FindFrom;
    }
  }

  predicate Clear(part: string, sep: string) {
    forall k: nat | k <= |part| :: !OccursAt(part, sep, k)
  }

  lemma FrontIsClear(text: string, sep: string)
    requires sep != ""
    ensures Clear(text[..FindFrom(text, sep, 0)], sep)
  {
    var k := FindFrom(text, sep, 0);
    forall j: nat | j <= k
      ensures !OccursAt(text[..k], sep, j)
    {
      if j + |sep| <= k {
        assert !OccursAt(text, sep, j);
        assert text[..k][j..j + |sep|] == text[j..j + |sep|];
      }
    }
  }

  /** The text is cut at the first occurrence of the separator, and the rest of it likewise. */
  lemma CutFromTheLeft(text: string, sep: string) returns (k: nat)
    requires sep != ""
    ensures k <= |text| && forall j | 0 <= j < k :: !OccursAt(text, sep, j)
    ensures var parts := SplitOn(text, sep);
            if k == |text| then parts == [text]
            else OccursAt(text, sep, k) && parts == [text[..k]] + SplitOn(text[k + |sep|..], sep)
  {
    k := FindFrom(text, sep, 0);
  }

  /** No part of a split still holds a separator. */
  lemma {:induction false} PartsAreClear(text: string, sep: string)
    requires sep != ""
    ensures forall p | p in SplitOn(text, sep) :: Clear(p, sep)
    decreases |text|
  {
    FrontIsClear(text, sep);
    hide Clear;
    var k := FindFrom(text, sep, 0);
    if k < |text| {
      PartsAreClear(text[k + |sep|..], sep);
    } else {
      assert text[..k] == text;
    }
  }

  // ---------- the recursive splitter ----------

  function Candidate(current: string, sep: string, part: string): string {
    if current == "" then part else current + sep + part
  }

  /** The batches the loop makes, before each is split further. */
  function Batches(parts: seq<string>, current: string, sep: string, size: nat): (bs: seq<string>)
    ensures bs != []
    decreases |parts|
  {
    if parts == [] then [current]
    else if |Candidate(current, sep, parts[0])| > size then [current] + Batches(parts[1..], parts[0], sep, size)
    else Batches(parts[1..], Candidate(current, sep, parts[0]), sep, size)
  }

  /** The splitter ends exactly when every text that reaches a window loop does: the loop at the last separator,
      or at an empty one, for every batch that gets there. */
  predicate SplitEnds(text: string, seps: seq<string>, size: nat, overlap: nat)
    requires seps != []
    decreases |seps|
  {
    if seps[0] == "" || |seps| == 1 then Ends(text, size, overlap)
    else
      forall b | b in Batches(SplitOn(text, seps[0]), "", seps[0], size) && b != "" ::
        SplitEnds(b, seps[1..], size, overlap)
  }

  /** Where a level would never get to the end of a text (see `Ends`), nothing is asserted of its chunks. */
  function Split(text: string, seps: seq<string>, size: nat, overlap: nat): seq<string>
    requires seps != []
    decreases |seps|, 2, 0
  {
    if seps[0] == "" || |seps| == 1 then (if Ends(text, size, overlap) then Windows(text, size, overlap, 0) else [])
    else Gather(SplitOn(text, seps[0]), "", seps, size, overlap)
  }

  /** The loop over the parts: gather while the batch fits, and split a full batch with the later separators. */
  function Gather(parts: seq<string>, current: string, seps: seq<string>, size: nat, overlap: nat): seq<string>
    requires |seps| > 1
    decreases |seps|, 1, |parts|
  {
    if parts == [] then Flushed(current, seps, size, overlap)
    else if |Candidate(current, seps[0], parts[0])| > size then
      Flushed(current, seps, size, overlap) + Gather(parts[1..], parts[0], seps, size, overlap)
    else Gather(parts[1..], Candidate(current, seps[0], parts[0]), seps, size, overlap)
  }

  function Flushed(current: string, seps: seq<string>, size: nat, overlap: nat): seq<string>
    requires |seps| > 1
    decreases |seps|, 0, 0
  {
    if current == "" then [] else Split(current, seps[1..], size, overlap)
  }

  /** A full batch is flushed, and the part that did not fit begins the next. */
  lemma GatherFlushes(parts: seq<string>, k: nat, current: string, seps: seq<string>, size: nat, overlap: nat)
    requires |seps| > 1 && k < |parts|
    requires |Candidate(current, seps[0], parts[k])| > size || current == ""
    ensures Gather(parts[k..], current, seps, size, overlap)
            == Flushed(current, seps, size, overlap) + Gather(parts[k + 1..], parts[k], seps, size, overlap)
  {
    hide Split, Flushed, Gather;
    assert parts[k..][0] == parts[k] && parts[k..][1..] == parts[k + 1..];
    FlushGather(parts[k..], current, seps, size, overlap);
  }

  lemma FlushFirst(parts: seq<string>, k: nat, current: string, seps: seq<string>, size: nat, overlap: nat,
                   done: seq<string>)
    requires |seps| > 1 && k < |parts|
    requires |Candidate(current, seps[0], parts[k])| > size || current == ""
    ensures done + Gather(parts[k..], current, seps, size, overlap)
            == (done + Flushed(current, seps, size, overlap)) + Gather(parts[k + 1..], parts[k], seps, size, overlap)
  {
    GatherFlushes(parts, k, current, seps, size, overlap);
    hide Split, Flushed, Gather;
    Together(done, Flushed(current, seps, size, overlap), Gather(parts[k + 1..], parts[k], seps, size, overlap));
  }

  lemma FlushGather(parts: seq<string>, current: string, seps: seq<string>, size: nat, overlap: nat)
    requires |seps| > 1 && parts != []
    requires |Candidate(current, seps[0], parts[0])| > size || current == ""
    ensures Gather(parts, current, seps, size, overlap)
            == Flushed(current, seps, size, overlap) + Gather(parts[1..], parts[0], seps, size, overlap)
  {
    if current == "" {
      assert Flushed(current, seps, size, overlap) == [];
    }
    hide Split, Flushed;
  }

  /** A part that fits joins the batch. */
  lemma KeepOn(parts: seq<string>, k: nat, current: string, seps: seq<string>, size: nat, overlap: nat)
    requires |seps| > 1 && k < |parts|
    requires |Candidate(current, seps[0], parts[k])| <= size
    ensures Gather(parts[k..], current, seps, size, overlap)
            == Gather(parts[k + 1..], Candidate(current, seps[0], parts[k]), seps, size, overlap)
  {
    hide Split, Flushed;
    assert parts[k..][0] == parts[k] && parts[k..][1..] == parts[k + 1..];
  }

  lemma GatherEnds(parts: seq<string>, current: string, seps: seq<string>, size: nat, overlap: nat, done: seq<string>)
    requires |seps| > 1
    ensures Gather(parts[|parts|..], current, seps, size, overlap) == Flushed(current, seps, size, overlap)
    ensures current == "" ==> Flushed(current, seps, size, overlap) == [] && done + [] == done
    ensures current != "" ==> Flushed(current, seps, size, overlap) == Split(current, seps[1..], size, overlap)
  {
  }

  /** What is still to be gathered ends. */
  predicate BatchesEnd(parts: seq<string>, current: string, seps: seq<string>, size: nat, overlap: nat)
    requires |seps| > 1
  {
    forall b | b in Batches(parts, current, seps[0], size) && b != "" :: SplitEnds(b, seps[1..], size, overlap)
  }

  lemma BatchesEndOn(parts: seq<string>, k: nat, current: string, seps: seq<string>, size: nat, overlap: nat)
    requires |seps| > 1 && k < |parts| && BatchesEnd(parts[k..], current, seps, size, overlap)
    ensures var candidate := Candidate(current, seps[0], parts[k]);
            if |candidate| > size then
              && (current != "" ==> SplitEnds(current, seps[1..], size, overlap))
              && BatchesEnd(parts[k + 1..], parts[k], seps, size, overlap)
            else BatchesEnd(parts[k + 1..], candidate, seps, size, overlap)
  {
    hide SplitEnds;
    assert parts[k..][0] == parts[k] && parts[k..][1..] == parts[k + 1..];
    if |Candidate(current, seps[0], parts[k])| > size {
      var later := Batches(parts[k + 1..], parts[k], seps[0], size);
      assert Batches(parts[k..], current, seps[0], size) == [current] + later;
      assert current in [current] + later && forall b | b in later :: b in [current] + later;
    }
  }

  lemma LastBatchEnds(parts: seq<string>, current: string, seps: seq<string>, size: nat, overlap: nat)
    requires |seps| > 1 && BatchesEnd(parts[|parts|..], current, seps, size, overlap)
    ensures current != "" ==> SplitEnds(current, seps[1..], size, overlap)
  {
    assert Batches(parts[|parts|..], current, seps[0], size) == [current];
    assert current in [current];
  }

  /** `RecursiveChunker._split`: every chunk taken over from a deeper level is numbered anew. */
  method Recursive(text: string, documentId: string, seps: seq<string>, size: nat, overlap: nat)
    returns (chunks: seq<Chunk>)
    requires seps != [] && SplitEnds(text, seps, size, overlap)
    ensures chunks == Numbered(Split(text, seps, size, overlap), documentId)
    decreases |seps|, 1
  {
    if seps[0] == "" || |seps| == 1 {
      chunks := FixedLength(text, documentId, size, overlap);
      return;
    }
    var parts := SplitOn(text, seps[0]);
    chunks := [];
    var current, i := "", 0;
    ghost var done: seq<string>, all := [], Split(text, seps, size, overlap);
    assert parts[0..] == parts && done + Gather(parts, "", seps, size, overlap) == all;
    assert BatchesEnd(parts[i..], current, seps, size, overlap);
    hide Numbered, Split, Gather, Flushed, SplitOn, SplitEnds, BatchesEnd;
    while i < |parts|
      invariant 0 <= i <= |parts|
      invariant BatchesEnd(parts[i..], current, seps, size, overlap)
      invariant chunks == Numbered(done, documentId)
      invariant done + Gather(parts[i..], current, seps, size, overlap) == all
    {
      var part := parts[i];
      var candidate := if current != "" then current + seps[0] + part else part;
      BatchesEndOn(parts, i, current, seps, size, overlap);
      if |candidate| > size {
        FlushFirst(parts, i, current, seps, size, overlap, done);
        chunks := Flush(chunks, current, documentId, seps, size, overlap, done);
        done := done + Flushed(current, seps, size, overlap);
        current := part;
      } else {
        KeepOn(parts, i, current, seps, size, overlap);
        current := candidate;
      }
      i := i + 1;
    }
    GatherEnds(parts, current, seps, size, overlap, done);
    LastBatchEnds(parts, current, seps, size, overlap);
    chunks := Flush(chunks, current, documentId, seps, size, overlap, done);
  }

  /** A batch that is not empty is split with the later separators. */
  method Flush(chunks: seq<Chunk>, current: string, documentId: string, seps: seq<string>, size: nat, overlap: nat,
               ghost done: seq<string>)
    returns (all: seq<Chunk>)
    requires |seps| > 1 && chunks == Numbered(done, documentId)
    requires current != "" ==> SplitEnds(current, seps[1..], size, overlap)
    ensures all == Numbered(done + Flushed(current, seps, size, overlap), documentId)
    decreases |seps|, 0
  {
    GatherEnds([], current, seps, size, overlap, done);
    hide Numbered, Split, Gather, Flushed, SplitEnds;
    if current == "" {
      return chunks;
    }
    var sub := Recursive(current, documentId, seps[1..], size, overlap);
    all := TakeOver(chunks, sub, documentId, done, Split(current, seps[1..], size, overlap));
  }

  method TakeOver(chunks: seq<Chunk>, sub: seq<Chunk>, documentId: string,
                  ghost done: seq<string>, ghost more: seq<string>)
    returns (all: seq<Chunk>)
    requires chunks == Numbered(done, documentId) && sub == Numbered(more, documentId)
    ensures all == Numbered(done + more, documentId)
  {
    all := chunks;
    var j := 0;
    while j < |sub|
      invariant 0 <= j <= |sub| && all == Numbered(done + more[..j], documentId)
    {
      NumberedGrows(done + more[..j], more[j], documentId);
      assert done + more[..j] + [more[j]] == done + more[..j + 1];
      all := all + [sub[j].(index := |all|)];
      j := j + 1;
    }
    assert more[..j] == more;
  }

  /** No chunk of the recursive splitter is larger than the size, or empty. */
  lemma {:induction false} SplitIsBounded(text: string, seps: seq<string>, size: nat, overlap: nat)
    requires seps != []
    ensures forall c | c in Split(text, seps, size, overlap) :: 0 < |c| <= size
    decreases |seps|, 2, 0
  {
    if seps[0] == "" || |seps| == 1 {
      var ws := Split(text, seps, size, overlap);
      forall c | c in ws
        ensures 0 < |c| <= size
      {
        var i :| 0 <= i < |ws| && ws[i] == c;
        if overlap < size {
          WindowIsBounded(text, size, overlap, 0, i);
        } else {
          OneWindow(text, size, overlap, 0);
        }
      }
    } else {
      GatherIsBounded(SplitOn(text, seps[0]), "", seps, size, overlap);
    }
  }

  lemma {:induction false} GatherIsBounded(parts: seq<string>, current: string, seps: seq<string>, size: nat, overlap: nat)
    requires |seps| > 1
    ensures forall c | c in Gather(parts, current, seps, size, overlap) :: 0 < |c| <= size
    decreases |seps|, 1, |parts|
  {
    if current != "" {
      SplitIsBounded(current, seps[1..], size, overlap);
    }
    if parts == [] {
    } else {
      if |Candidate(current, seps[0], parts[0])| > size {
        GatherIsBounded(parts[1..], parts[0], seps, size, overlap);
      } else {
        GatherIsBounded(parts[1..], Candidate(current, seps[0], parts[0]), seps, size, overlap);
      }
    }
  }

  // ---------- how the splitter gathers ----------

  function SplitAll(batches: seq<string>, seps: seq<string>, size: nat, overlap: nat): seq<string>
    requires |seps| > 1
  {
    if batches == [] then []
    else Flushed(batches[0], seps, size, overlap) + SplitAll(batches[1..], seps, size, overlap)
  }

  /** The chunks of a level are the chunks of its batches, in order. */
  lemma {:induction false} GatherSplitsBatches(parts: seq<string>, current: string, seps: seq<string>, size: nat, overlap: nat)
    requires |seps| > 1
    ensures Gather(parts, current, seps, size, overlap)
            == SplitAll(Batches(parts, current, seps[0], size), seps, size, overlap)
    decreases |parts|
  {
    hide Split, Flushed;
    if parts == [] {
      assert [current][1..] == [];
      Together(Flushed(current, seps, size, overlap), [], []);
    } else if |Candidate(current, seps[0], parts[0])| > size {
      GatherSplitsBatches(parts[1..], parts[0], seps, size, overlap);
      var rest := Batches(parts[1..], parts[0], seps[0], size);
      assert ([current] + rest)[1..] == rest;
    } else {
      GatherSplitsBatches(parts[1..], Candidate(current, seps[0], parts[0]), seps, size, overlap);
    }
  }

  predicate StartsWith(s: string, t: string) {
    |t| <= |s| && s[..|t|] == t
  }

  /** The batch that is being filled starts the first one that is closed, unless it is empty. */
  lemma {:induction false} FirstBatch(parts: seq<string>, current: string, sep: string, size: nat)
    ensures StartsWith(Batches(parts, current, sep, size)[0], current)
    decreases |parts|
  {
    if parts == [] {
    } else if |Candidate(current, sep, parts[0])| <= size {
      FirstBatch(parts[1..], Candidate(current, sep, parts[0]), sep, size);
    }
  }

  /** The part that begins a batch would not have fitted the batch before. */
  ghost predicate WouldNotFit(batch: string, next: string, parts: seq<string>, sep: string, size: nat) {
    exists p :: p in parts && StartsWith(next, p) && |Candidate(batch, sep, p)| > size
  }

  lemma StillWouldNotFit(batch: string, next: string, parts: seq<string>, sep: string, size: nat)
    requires parts != [] && WouldNotFit(batch, next, parts[1..], sep, size)
    ensures WouldNotFit(batch, next, parts, sep, size)
  {
    var p :| p in parts[1..] && StartsWith(next, p) && |Candidate(batch, sep, p)| > size;
    assert p in parts;
  }

  ghost predicate Greedy(bs: seq<string>, parts: seq<string>, sep: string, size: nat) {
    forall i | 0 <= i < |bs| - 1 :: WouldNotFit(bs[i], bs[i + 1], parts, sep, size)
  }

  lemma StillGreedy(bs: seq<string>, parts: seq<string>, sep: string, size: nat)
    requires parts != [] && Greedy(bs, parts[1..], sep, size)
    ensures Greedy(bs, parts, sep, size)
  {
    hide WouldNotFit;
    forall i | 0 <= i < |bs| - 1
      ensures WouldNotFit(bs[i], bs[i + 1], parts, sep, size)
    {
      StillWouldNotFit(bs[i], bs[i + 1], parts, sep, size);
    }
  }

  lemma OneMoreGreedy(first: string, later: seq<string>, parts: seq<string>, sep: string, size: nat)
    requires later != [] && Greedy(later, parts, sep, size) && WouldNotFit(first, later[0], parts, sep, size)
    ensures Greedy([first] + later, parts, sep, size)
  {
    hide WouldNotFit;
    var bs := [first] + later;
    forall i | 0 <= i < |bs| - 1
      ensures WouldNotFit(bs[i], bs[i + 1], parts, sep, size)
    {
      if i > 0 { assert bs[i] == later[i - 1] && bs[i + 1] == later[i]; }
    }
  }

  /** Gathering is greedy: a batch ends only because the part that begins the next one would not have fitted. */
  lemma {:induction false} BatchesAreGreedy(parts: seq<string>, current: string, sep: string, size: nat)
    ensures Greedy(Batches(parts, current, sep, size), parts, sep, size)
    decreases |parts|
  {
    if parts == [] {
    } else {
      var fits := |Candidate(current, sep, parts[0])| <= size;
      var later := Batches(parts[1..], if fits then Candidate(current, sep, parts[0]) else parts[0], sep, size);
      assert Batches(parts, current, sep, size) == if fits then later else [current] + later;
      BatchesAreGreedy(parts[1..], if fits then Candidate(current, sep, parts[0]) else parts[0], sep, size);
      hide Batches, Greedy;
      StillGreedy(later, parts, sep, size);
      if !fits {
        BeginsNext(parts, current, sep, size);
        OneMoreGreedy(current, later, parts, sep, size);
      }
    }
  }

  lemma BeginsNext(parts: seq<string>, current: string, sep: string, size: nat)
    requires parts != [] && |Candidate(current, sep, parts[0])| > size
    ensures WouldNotFit(current, Batches(parts[1..], parts[0], sep, size)[0], parts, sep, size)
  {
    FirstBatch(parts[1..], parts[0], sep, size);
    assert parts[0] in parts;
  }

  /** A batch is within the size unless it is a single part, or was given to begin with. */
  lemma {:induction false} BatchesAreBounded(parts: seq<string>, current: string, sep: string, size: nat, b: string)
    requires b in Batches(parts, current, sep, size)
    ensures |b| <= size || b == current || b in parts
    decreases |parts|
  {
    if parts == [] {
    } else {
      var candidate := Candidate(current, sep, parts[0]);
      assert forall p :: p in parts[1..] ==> p in parts;
      if |candidate| <= size {
        BatchesAreBounded(parts[1..], candidate, sep, size, b);
      } else if b != current {
        BatchesAreBounded(parts[1..], parts[0], sep, size, b);
      }
    }
  }

  lemma {:induction false} NoLongerThanAll(parts: seq<string>, sep: string, k: nat)
    requires k < |parts|
    ensures |parts[k]| <= |Join(parts, sep)|
    decreases |parts|
  {
    if k == |parts| - 1 {
    } else {
      NoLongerThanAll(parts[..|parts| - 1], sep, k);
    }
  }

  lemma PartsAreShort(text: string, sep: string, p: string)
    requires sep != "" && p in SplitOn(text, sep)
    ensures |p| <= |text|
  {
    hide *;
    SplitThenJoin(text, sep);
    var parts := SplitOn(text, sep);
    var k :| 0 <= k < |parts| && parts[k] == p;
    NoLongerThanAll(parts, sep, k);
  }

  // ---------- when the splitter does not end ----------

  /** Every piece that cannot be cut further fits one window: the text at an empty or the last separator, and
      above that the parts of the text. */
  predicate PiecesFit(text: string, seps: seq<string>, size: nat)
    requires seps != []
    decreases |seps|
  {
    if seps[0] == "" || |seps| == 1 then |text| <= size
    else forall p | p in SplitOn(text, seps[0]) :: PiecesFit(p, seps[1..], size)
  }

  lemma {:induction false} ShortTextsFit(text: string, seps: seq<string>, size: nat)
    requires seps != [] && |text| <= size
    ensures PiecesFit(text, seps, size)
    decreases |seps|
  {
    if seps[0] == "" || |seps| == 1 {
    } else {
      forall p | p in SplitOn(text, seps[0])
        ensures PiecesFit(p, seps[1..], size)
      {
        PartsAreShort(text, seps[0], p);
        ShortTextsFit(p, seps[1..], size);
      }
    }
  }

  /** A part that does not fit is a batch of its own. */
  lemma {:induction false} OversizedIsABatch(parts: seq<string>, current: string, sep: string, size: nat, p: string)
    requires |p| > size && (p == current || p in parts)
    ensures p in Batches(parts, current, sep, size)
    decreases |parts|
  {
    if parts == [] {
      assert p in [current];
    } else {
      var candidate := Candidate(current, sep, parts[0]);
      var next := if |candidate| > size then parts[0] else candidate;
      assert p in parts ==> p == parts[0] || p in parts[1..];
      if p == next || p in parts[1..] {
        OversizedIsABatch(parts[1..], next, sep, size, p);
      }
    }
  }

  lemma {:induction false} SplitEndsIff(text: string, seps: seq<string>, size: nat, overlap: nat)
    requires seps != []
    ensures SplitEnds(text, seps, size, overlap) <==> overlap < size || PiecesFit(text, seps, size)
    decreases |seps|
  {
    if seps[0] == "" || |seps| == 1 {
    } else {
      var parts := SplitOn(text, seps[0]);
      var batches := Batches(parts, "", seps[0], size);
      hide SplitOn, Batches, Ends;
      forall b
        ensures SplitEnds(b, seps[1..], size, overlap) <==> overlap < size || PiecesFit(b, seps[1..], size)
      {
        SplitEndsIff(b, seps[1..], size, overlap);
      }
      forall b | b in batches
        ensures b in parts || PiecesFit(b, seps[1..], size)
      {
        BatchesAreBounded(parts, "", seps[0], size, b);
        if |b| <= size { ShortTextsFit(b, seps[1..], size); }
      }
      forall p | p in parts
        ensures PiecesFit(p, seps[1..], size) || (p != "" && p in batches)
      {
        if |p| <= size { ShortTextsFit(p, seps[1..], size); } else { OversizedIsABatch(parts, "", seps[0], size, p); }
      }
    }
  }

  /** The splitter, given the text, hands `t` to a window loop. */
  ghost predicate HandsOn(text: string, seps: seq<string>, size: nat, t: string)
    requires seps != []
    decreases |seps|
  {
    if seps[0] == "" || |seps| == 1 then t == text
    else
      exists b :: b in Batches(SplitOn(text, seps[0]), "", seps[0], size) && b != "" && HandsOn(b, seps[1..], size, t)
  }

  lemma {:induction false} SplitEndsWithItsLoops(text: string, seps: seq<string>, size: nat, overlap: nat)
    requires seps != []
    ensures SplitEnds(text, seps, size, overlap) <==>
              forall t | HandsOn(text, seps, size, t) :: LoopEnds(t, size, overlap)
    decreases |seps|
  {
    hide LoopEnds, Ends, SplitOn, Batches;
    if seps[0] == "" || |seps| == 1 {
      WindowsStuckIff(text, size, overlap);
      assert HandsOn(text, seps, size, text);
    } else {
      var batches := Batches(SplitOn(text, seps[0]), "", seps[0], size);
      forall b
        ensures SplitEnds(b, seps[1..], size, overlap) <==>
                  forall t | HandsOn(b, seps[1..], size, t) :: LoopEnds(t, size, overlap)
      {
        SplitEndsWithItsLoops(b, seps[1..], size, overlap);
      }
      assert forall b, t | b in batches && b != "" && HandsOn(b, seps[1..], size, t) :: HandsOn(text, seps, size, t);
    }
  }

  /** Every window loop the splitter enters reaches the end of its text exactly when the overlap is below the size
      or every piece the separators leave fits one window. */
  lemma SplitterStuckIff(text: string, seps: seq<string>, size: nat, overlap: nat)
    requires seps != []
    ensures (forall t | HandsOn(text, seps, size, t) :: LoopEnds(t, size, overlap)) <==>
              overlap < size || PiecesFit(text, seps, size)
  {
    SplitEndsWithItsLoops(text, seps, size, overlap);
    SplitEndsIff(text, seps, size, overlap);
  }

  lemma NothingToCut(text: string, sep: string)
    requires sep != "" && forall k | 0 <= k < |text| :: !OccursAt(text, sep, k)
    ensures SplitOn(text, sep) == [text]
  {
  }

  /** With windows no larger than the overlap, a word of three characters holds the splitter up. */
  lemma ThreeCharactersHoldItUp()
    ensures HandsOn("abc", [" ", ""], 1, "abc") && !LoopEnds("abc", 1, 1)
  {
    WindowsStuckIff("abc", 1, 1);
    forall k: nat | k < 3
      ensures !OccursAt("abc", " ", k)
    {
      assert "abc"[k..k + 1][0] != ' ';
    }
    NothingToCut("abc", " ");
    hide LoopEnds;
    assert Batches(["abc"], "", " ", 1) == [""] + Batches([], "abc", " ", 1) == ["", "abc"];
    assert "abc" in ["", "abc"] && [" ", ""][1..] == [""];
    assert HandsOn("abc", [""], 1, "abc");
  }

  /** Two words of one character do not. */
  lemma ShortWordsDoNot()
    ensures forall t | HandsOn("a b", [" ", ""], 1, t) :: LoopEnds(t, 1, 1)
  {
    assert OccursAt("a b", " ", 1);
    assert !OccursAt("a b", " ", 0) by { assert "a b"[0..1][0] != ' '; }
    assert !OccursAt("b", " ", 0) by { assert "b"[0..1][0] != ' '; }
    NothingToCut("b", " ");
    assert FindFrom("a b", " ", 0) == 1;
    assert "a b"[..1] == "a" && "a b"[2..] == "b";
    assert SplitOn("a b", " ") == ["a"] + SplitOn("b", " ");
    assert [" ", ""][1..] == [""];
    hide LoopEnds, SplitOn, FindFrom, HandsOn;
    assert PiecesFit("a", [""], 1) && PiecesFit("b", [""], 1);
    assert PiecesFit("a b", [" ", ""], 1);
    SplitterStuckIff("a b", [" ", ""], 1, 1);
  }

  // ---------- what the splitter keeps, repeats and removes ----------

  /** The text cut into pieces that are handed to a window loop and separators that are not. */
  datatype Piece = Keep(text: string) | Drop(sep: string)

  function Uncut(p: Piece): string {
    match p
    case Keep(t) => t
    case Drop(s) => s
  }

  function Whole(ps: seq<Piece>): string
    decreases |ps|
  {
    if ps == [] then "" else Whole(ps[..|ps| - 1]) + Uncut(ps[|ps| - 1])
  }

  /** What is taken out are separators, none of them empty. */
  predicate OnlySeparators(ps: seq<Piece>, seps: seq<string>) {
    forall i | 0 <= i < |ps| && ps[i].Drop? :: ps[i].sep in seps && ps[i].sep != ""
  }

  /** Where one piece ends and another begins, a separator was taken out. */
  predicate Parted(ps: seq<Piece>) {
    forall i | 0 <= i < |ps| - 1 && ps[i].Keep? :: ps[i + 1].Drop?
  }

  /** Another piece may follow. */
  predicate ClosedOff(ps: seq<Piece>) {
    ps == [] || ps[|ps| - 1].Drop?
  }

  /** One chunk follows another: the first is full, and the second begins with its last `overlap` characters and
      reaches past them. */
  predicate Follows(c: string, d: string, size: nat, overlap: nat) {
    |c| == size && overlap <= size && overlap < |d| && d[..overlap] == c[size - overlap..]
  }

  /** Chunks that follow one another through a text: without what they repeat they are the text. */
  predicate GoThrough(cs: seq<string>, text: string, size: nat, overlap: nat) {
    && (forall i | 0 <= i < |cs| :: 0 < |cs[i]| <= size)
    && (forall i | 0 <= i < |cs| - 1 :: Follows(cs[i], cs[i + 1], size, overlap))
    && Rebuilt(cs, overlap) == text
  }

  /** The pieces, and the chunks each of them contributes. */
  datatype Cutting = Cutting(pieces: seq<Piece>, chunks: seq<seq<string>>)

  predicate CutSo(p: Piece, cs: seq<string>, size: nat, overlap: nat) {
    match p
    case Keep(t) => GoThrough(cs, t, size, overlap)
    case Drop(_) => cs == []
  }

  predicate Sound(c: Cutting, seps: seq<string>, size: nat, overlap: nat) {
    && |c.pieces| == |c.chunks| && OnlySeparators(c.pieces, seps) && Parted(c.pieces)
    && forall i | 0 <= i < |c.pieces| :: CutSo(c.pieces[i], c.chunks[i], size, overlap)
  }

  function Flat(css: seq<seq<string>>): seq<string>
    decreases |css|
  {
    if css == [] then [] else Flat(css[..|css| - 1]) + css[|css| - 1]
  }

  function Plus(a: Cutting, b: Cutting): Cutting {
    Cutting(a.pieces + b.pieces, a.chunks + b.chunks)
  }

  lemma OneMorePiece(ps: seq<Piece>, p: Piece)
    ensures Whole(ps + [p]) == Whole(ps) + Uncut(p)
  {
    assert (ps + [p])[..|ps|] == ps;
  }

  lemma {:induction false} WholeSplits(a: seq<Piece>, b: seq<Piece>)
    ensures Whole(a + b) == Whole(a) + Whole(b)
    decreases |b|
  {
    if b == [] {
      assert a + b == a;
    } else {
      var n := |b| - 1;
      WholeSplits(a, b[..n]);
      hide Whole, Uncut;
      assert b == b[..n] + [b[n]] && a + b == (a + b[..n]) + [b[n]];
      OneMorePiece(b[..n], b[n]);
      OneMorePiece(a + b[..n], b[n]);
      Regroup(Whole(a), Whole(b[..n]), Uncut(b[n]));
    }
  }

  lemma OneMoreGroup(css: seq<seq<string>>, cs: seq<string>)
    ensures Flat(css + [cs]) == Flat(css) + cs
  {
    assert (css + [cs])[..|css|] == css;
  }

  lemma {:induction false} FlatSplits(a: seq<seq<string>>, b: seq<seq<string>>)
    ensures Flat(a + b) == Flat(a) + Flat(b)
    decreases |b|
  {
    if b == [] {
      assert a + b == a;
    } else {
      var n := |b| - 1;
      FlatSplits(a, b[..n]);
      hide Flat;
      assert b == b[..n] + [b[n]] && a + b == (a + b[..n]) + [b[n]];
      OneMoreGroup(b[..n], b[n]);
      OneMoreGroup(a + b[..n], b[n]);
      Together(Flat(a), Flat(b[..n]), b[n]);
    }
  }

  lemma PlusSound(a: Cutting, b: Cutting, seps: seq<string>, size: nat, overlap: nat)
    requires Sound(a, seps, size, overlap) && Sound(b, seps, size, overlap)
    requires ClosedOff(a.pieces) || (b.pieces != [] && b.pieces[0].Drop?)
    ensures Sound(Plus(a, b), seps, size, overlap)
  {
    hide CutSo;
    var c, m := Plus(a, b), |a.pieces|;
    forall i | 0 <= i < |c.pieces| - 1 && c.pieces[i].Keep?
      ensures c.pieces[i + 1].Drop?
    {
      if i < m - 1 {
        assert c.pieces[i] == a.pieces[i] && c.pieces[i + 1] == a.pieces[i + 1];
      } else if i == m - 1 {
        assert c.pieces[i] == a.pieces[i] && c.pieces[i + 1] == b.pieces[0];
      } else {
        assert c.pieces[i] == b.pieces[i - m] && c.pieces[i + 1] == b.pieces[i + 1 - m];
      }
    }
    forall i | 0 <= i < |c.pieces|
      ensures CutSo(c.pieces[i], c.chunks[i], size, overlap)
      ensures c.pieces[i].Drop? ==> c.pieces[i].sep in seps && c.pieces[i].sep != ""
    {
      if i < m {
        assert c.pieces[i] == a.pieces[i] && c.chunks[i] == a.chunks[i];
      } else {
        assert c.pieces[i] == b.pieces[i - m] && c.chunks[i] == b.chunks[i - m];
      }
    }
  }

  lemma PlusTells(a: Cutting, b: Cutting, seps: seq<string>, size: nat, overlap: nat)
    requires Sound(a, seps, size, overlap) && Sound(b, seps, size, overlap)
    requires ClosedOff(a.pieces) || (b.pieces != [] && b.pieces[0].Drop?)
    ensures Sound(Plus(a, b), seps, size, overlap)
    ensures Whole(Plus(a, b).pieces) == Whole(a.pieces) + Whole(b.pieces)
    ensures Flat(Plus(a, b).chunks) == Flat(a.chunks) + Flat(b.chunks)
  {
    hide Sound, Whole, Flat, ClosedOff;
    PlusSound(a, b, seps, size, overlap);
    WholeSplits(a.pieces, b.pieces);
    FlatSplits(a.chunks, b.chunks);
  }

  lemma FewerSeparators(c: Cutting, seps: seq<string>, size: nat, overlap: nat)
    requires |seps| > 1 && Sound(c, seps[1..], size, overlap)
    ensures Sound(c, seps, size, overlap)
  {
    hide CutSo;
    assert forall p | p in seps[1..] :: p in seps;
  }

  /** The windows of a text go through it. */
  lemma WindowsGoThrough(text: string, size: nat, overlap: nat)
    requires Ends(text, size, overlap)
    ensures GoThrough(Windows(text, size, overlap, 0), text, size, overlap)
  {
    var ws := Windows(text, size, overlap, 0);
    if overlap < size {
      forall i | 0 <= i < |ws|
        ensures 0 < |ws[i]| <= size
        ensures i + 1 < |ws| ==> Follows(ws[i], ws[i + 1], size, overlap)
      {
        WindowIsBounded(text, size, overlap, 0, i);
        if i + 1 < |ws| {
          WindowIsBounded(text, size, overlap, 0, i + 1);
          WindowsOverlap(text, size, overlap, 0, i);
        }
      }
      WindowsRebuildTheText(text, size, overlap);
    } else if text != "" {
      assert text[0..|text|] == text && ws == [text] + [] == [text];
      assert Rebuilt([text], overlap) == text + Tails([], overlap);
    }
  }

  lemma OnePiece(p: Piece, cs: seq<string>)
    ensures Whole([p]) == Uncut(p) && Flat([cs]) == cs
  {
    OneMorePiece([], p);
    OneMoreGroup([], cs);
    assert [] + [p] == [p] && [] + [cs] == [cs];
  }

  /** Whenever the splitter ends, for every overlap: its chunks are those of pieces which, with nothing but
      separators between them, are the text; and the chunks of one piece go through it, each repeating the end of
      the one before. */
  lemma {:induction false} SplitGoesThrough(text: string, seps: seq<string>, size: nat, overlap: nat)
    returns (c: Cutting)
    requires seps != [] && SplitEnds(text, seps, size, overlap)
    ensures Sound(c, seps, size, overlap)
    ensures Whole(c.pieces) == text && Flat(c.chunks) == Split(text, seps, size, overlap)
    decreases |seps|, 2, 0
  {
    if seps[0] == "" || |seps| == 1 {
      WindowsGoThrough(text, size, overlap);
      c := Cutting([Keep(text)], [Windows(text, size, overlap, 0)]);
      OnePiece(Keep(text), Windows(text, size, overlap, 0));
    } else {
      var parts := SplitOn(text, seps[0]);
      SplitThenJoin(text, seps[0]);
      assert parts == parts[0..] && BatchesEnd(parts[0..], "", seps, size, overlap);
      c := GatherGoesThrough(parts, 0, "", Cutting([], []), seps, size, overlap);
      assert [] + Gather(parts[0..], "", seps, size, overlap) == Gather(parts, "", seps, size, overlap);
    }
  }

  /** The pieces and the current batch make up what has been read. */
  predicate Covers(ps: seq<Piece>, current: string, read: string) {
    Whole(ps) + current == read
  }

  /** The chunks of some pieces are those of earlier ones, and some more. */
  predicate Yields(c: Cutting, before: Cutting, more: seq<string>) {
    Flat(c.chunks) == Flat(before.chunks) + more
  }

  lemma YieldsOn(before: Cutting, next: Cutting, c: Cutting, now: seq<string>, later: seq<string>)
    requires Yields(next, before, now) && Yields(c, next, later)
    ensures Yields(c, before, now + later)
  {
    hide Flat;
    Together(Flat(before.chunks), now, later);
  }

  lemma CoversKept(ps: seq<Piece>, current: string, parts: seq<string>, k: nat, sep: string)
    requires 0 < k < |parts| && current != "" && Covers(ps, current, Join(parts[..k], sep))
    ensures Covers(ps, Candidate(current, sep, parts[k]), Join(parts[..k + 1], sep))
  {
    JoinNext(parts, k, sep);
    hide Whole, Join;
    Regroup(Whole(ps), current, sep);
    Regroup(Whole(ps), current + sep, parts[k]);
  }

  lemma CoversClosed(ps: seq<Piece>, next: seq<Piece>, current: string, parts: seq<string>, k: nat, sep: string)
    requires k < |parts| && Covers(ps, current, Join(parts[..k], sep))
    requires Whole(next) == if k == 0 then "" else Whole(ps) + current + sep
    ensures Covers(next, parts[k], Join(parts[..k + 1], sep))
  {
    JoinNext(parts, k, sep);
    hide Whole, Join;
  }

  /** Having read k parts into pieces and a current batch, the rest of the loop accounts for the rest. */
  lemma {:induction false} GatherGoesThrough(parts: seq<string>, k: nat, current: string, before: Cutting,
                                       seps: seq<string>, size: nat, overlap: nat)
    returns (c: Cutting)
    requires |seps| > 1 && seps[0] != "" && k <= |parts| && Sound(before, seps, size, overlap) && ClosedOff(before.pieces)
    requires BatchesEnd(parts[k..], current, seps, size, overlap)
    requires Covers(before.pieces, current, Join(parts[..k], seps[0]))
    requires k == 0 ==> before == Cutting([], []) && current == ""
    ensures Whole(c.pieces) == Join(parts, seps[0]) && Sound(c, seps, size, overlap)
    ensures Yields(c, before, Gather(parts[k..], current, seps, size, overlap))
    decreases |seps|, 1, |parts| - k
  {
    hide Join, Whole, Flat, Sound, Gather, Flushed, Covers, Yields, Candidate, Split, SplitEnds, BatchesEnd;
    if k == |parts| {
      c := LastGoesThrough(parts, current, before, seps, size, overlap);
    } else {
      var candidate := Candidate(current, seps[0], parts[k]);
      BatchesEndOn(parts, k, current, seps, size, overlap);
      FirstCandidate(current, seps[0], parts[k]);
      if |candidate| > size || current == "" {
        var next := CloseBatch(k, current, before, seps, size, overlap);
        CoversClosed(before.pieces, next.pieces, current, parts, k, seps[0]);
        c := GatherGoesThrough(parts, k + 1, parts[k], next, seps, size, overlap);
        GatherFlushes(parts, k, current, seps, size, overlap);
        YieldsOn(before, next, c, Flushed(current, seps, size, overlap),
                 Gather(parts[k + 1..], parts[k], seps, size, overlap));
      } else {
        CoversKept(before.pieces, current, parts, k, seps[0]);
        c := GatherGoesThrough(parts, k + 1, candidate, before, seps, size, overlap);
        KeepOn(parts, k, current, seps, size, overlap);
      }
    }
  }

  lemma FirstCandidate(current: string, sep: string, part: string)
    ensures current == "" ==> Candidate(current, sep, part) == part
  {
  }

  lemma {:induction false} LastGoesThrough(parts: seq<string>, current: string, before: Cutting,
                                     seps: seq<string>, size: nat, overlap: nat)
    returns (c: Cutting)
    requires |seps| > 1 && Sound(before, seps, size, overlap) && ClosedOff(before.pieces)
    requires BatchesEnd(parts[|parts|..], current, seps, size, overlap)
    requires Covers(before.pieces, current, Join(parts[..|parts|], seps[0]))
    ensures Whole(c.pieces) == Join(parts, seps[0]) && Sound(c, seps, size, overlap)
    ensures Yields(c, before, Gather(parts[|parts|..], current, seps, size, overlap))
    decreases |seps|, 0, 1
  {
    assert parts[..|parts|] == parts;
    GatherEnds(parts, current, seps, size, overlap, []);
    LastBatchEnds(parts, current, seps, size, overlap);
    hide Join, Whole, Sound, Gather, Flushed, Split, Yields, SplitEnds, BatchesEnd;
    c := FlushGoesThrough(current, before, seps, size, overlap);
  }

  /** The batch is split into pieces, and the separator after it, if it follows anything, is dropped. */
  lemma {:induction false} CloseBatch(k: nat, current: string, before: Cutting, seps: seq<string>, size: nat, overlap: nat)
    returns (next: Cutting)
    requires |seps| > 1 && seps[0] != "" && Sound(before, seps, size, overlap) && ClosedOff(before.pieces)
    requires current != "" ==> SplitEnds(current, seps[1..], size, overlap)
    requires k == 0 ==> before == Cutting([], []) && current == ""
    ensures Whole(next.pieces) == if k == 0 then "" else Whole(before.pieces) + current + seps[0]
    ensures Yields(next, before, Flushed(current, seps, size, overlap))
    ensures Sound(next, seps, size, overlap) && ClosedOff(next.pieces)
    decreases |seps|, 0, 1
  {
    if k == 0 {
      assert Flushed(current, seps, size, overlap) == [] && Whole([]) == "";
      next := before;
    } else {
      next := FlushGoesThrough(current, before, seps, size, overlap);
      next := DropAfter(next, seps, size, overlap);
    }
  }

  lemma DropAfter(c: Cutting, seps: seq<string>, size: nat, overlap: nat) returns (next: Cutting)
    requires seps != [] && seps[0] != "" && Sound(c, seps, size, overlap)
    ensures Sound(next, seps, size, overlap) && ClosedOff(next.pieces)
    ensures Whole(next.pieces) == Whole(c.pieces) + seps[0] && Flat(next.chunks) == Flat(c.chunks)
  {
    var dropped := Cutting([Drop(seps[0])], [[]]);
    assert Sound(dropped, seps, size, overlap);
    OnePiece(Drop(seps[0]), []);
    next := Plus(c, dropped);
    assert next.pieces[|next.pieces| - 1] == Drop(seps[0]);
    assert Uncut(Drop(seps[0])) == seps[0];
    hide Whole, Flat, Sound;
    PlusTells(c, dropped, seps, size, overlap);
  }

  lemma JoinNext(parts: seq<string>, k: nat, sep: string)
    requires k < |parts|
    ensures Join(parts[..k + 1], sep) == if k == 0 then parts[0] else Join(parts[..k], sep) + sep + parts[k]
  {
    assert parts[..k + 1][..k] == parts[..k];
  }

  lemma {:induction false} FlushGoesThrough(current: string, before: Cutting, seps: seq<string>, size: nat, overlap: nat)
    returns (c: Cutting)
    requires |seps| > 1 && Sound(before, seps, size, overlap) && ClosedOff(before.pieces)
    requires current != "" ==> SplitEnds(current, seps[1..], size, overlap)
    ensures Whole(c.pieces) == Whole(before.pieces) + current && Sound(c, seps, size, overlap)
    ensures Yields(c, before, Flushed(current, seps, size, overlap))
    decreases |seps|, 0, 0
  {
    if current == "" {
      c := before;
    } else {
      var sub := SplitGoesThrough(current, seps[1..], size, overlap);
      hide Whole, Flat, Sound, SplitEnds, Split;
      FewerSeparators(sub, seps, size, overlap);
      PlusTells(before, sub, seps, size, overlap);
      c := Plus(before, sub);
    }
  }

  // ---------- without overlap ----------

  function Rest(p: Piece): string {
    match p
    case Keep(t) => t
    case Drop(_) => ""
  }

  /** The pieces one after another, without the separators. */
  function Kept(ps: seq<Piece>): string
    decreases |ps|
  {
    if ps == [] then "" else Kept(ps[..|ps| - 1]) + Rest(ps[|ps| - 1])
  }

  function Concat(cs: seq<string>): string
    decreases |cs|
  {
    if cs == [] then "" else Concat(cs[..|cs| - 1]) + cs[|cs| - 1]
  }

  lemma ConcatLast(cs: seq<string>, c: string)
    ensures Concat(cs + [c]) == Concat(cs) + c
  {
    assert (cs + [c])[..|cs|] == cs;
  }

  lemma {:induction false} ConcatSplits(a: seq<string>, b: seq<string>)
    ensures Concat(a + b) == Concat(a) + Concat(b)
    decreases |b|
  {
    if b == [] {
      assert a + b == a;
    } else {
      var n := |b| - 1;
      ConcatSplits(a, b[..n]);
      hide Concat;
      assert b == b[..n] + [b[n]] && a + b == (a + b[..n]) + [b[n]];
      ConcatLast(b[..n], b[n]);
      ConcatLast(a + b[..n], b[n]);
      Regroup(Concat(a), Concat(b[..n]), b[n]);
    }
  }

  lemma {:induction false} TailsWithoutOverlap(ws: seq<string>)
    ensures Tails(ws, 0) == Concat(ws)
  {
    if ws == [] {
    } else {
      TailsWithoutOverlap(ws[1..]);
      ConcatSplits([ws[0]], ws[1..]);
      assert [ws[0]] + ws[1..] == ws;
      assert [ws[0]][..0] == [];
    }
  }

  lemma RebuiltWithoutOverlap(ws: seq<string>)
    ensures Rebuilt(ws, 0) == Concat(ws)
  {
    TailsWithoutOverlap(ws);
    assert ws != [] ==> Tails(ws, 0) == ws[0] + Tails(ws[1..], 0);
  }

  lemma {:induction false} KeptIsConcat(pieces: seq<Piece>, chunks: seq<seq<string>>, seps: seq<string>, size: nat)
    requires Sound(Cutting(pieces, chunks), seps, size, 0)
    ensures Kept(pieces) == Concat(Flat(chunks))
    decreases |pieces|
  {
    if pieces == [] {
      assert chunks == [];
    } else {
      var n := |pieces| - 1;
      LastRest(pieces, chunks, seps, size);
      assert Kept(pieces) == Kept(pieces[..n]) + Rest(pieces[n]);
      assert Flat(chunks) == Flat(chunks[..n]) + chunks[n];
      hide *;
      KeptIsConcat(pieces[..n], chunks[..n], seps, size);
      ConcatSplits(Flat(chunks[..n]), chunks[n]);
    }
  }

  lemma LastRest(pieces: seq<Piece>, chunks: seq<seq<string>>, seps: seq<string>, size: nat)
    requires pieces != [] && Sound(Cutting(pieces, chunks), seps, size, 0)
    ensures |chunks| == |pieces|
    ensures var n := |pieces| - 1;
            Rest(pieces[n]) == Concat(chunks[n]) && Sound(Cutting(pieces[..n], chunks[..n]), seps, size, 0)
  {
    var n := |pieces| - 1;
    assert CutSo(pieces[n], chunks[n], size, 0);
    RebuiltWithoutOverlap(chunks[n]);
    hide GoThrough, Rebuilt;
    assert pieces[n].Keep? ==> Rebuilt(chunks[n], 0) == pieces[n].text by { RebuiltOf(pieces[n], chunks[n], size); }
    hide CutSo;
  }

  lemma RebuiltOf(p: Piece, cs: seq<string>, size: nat)
    requires CutSo(p, cs, size, 0)
    ensures p.Keep? ==> Rebuilt(cs, 0) == p.text
    ensures p.Drop? ==> cs == []
  {
  }

  /** Without overlap the chunks, one after another, are the text with nothing but occurrences of separators
      taken out. */
  lemma SplitRemovesOnlySeparators(text: string, seps: seq<string>, size: nat) returns (ps: seq<Piece>)
    requires seps != [] && 0 < size
    ensures Whole(ps) == text && Kept(ps) == Concat(Split(text, seps, size, 0)) && OnlySeparators(ps, seps)
  {
    SplitEndsIff(text, seps, size, 0);
    hide Whole, Kept, Concat, Split, SplitEnds;
    var c := SplitGoesThrough(text, seps, size, 0);
    KeptIsConcat(c.pieces, c.chunks, seps, size);
    ps := c.pieces;
  }
}
