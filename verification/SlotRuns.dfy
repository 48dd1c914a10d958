/**
 Slot lists compressed into ranges of consecutive slots, and back.
 */
module SlotRuns {
  import opened Sequences

  datatype Item = Single(slot: int) | Range(start: int, end: int)

  /** start, start + 1, ..., end. */
  function Span(start: int, end: int): (r: seq<int>)
    ensures |r| == if start <= end then end - start + 1 else 0
    ensures forall i :: 0 <= i < |r| ==> r[i] == start + i
  {
    seq(if start <= end then end - start + 1 else 0, i => start + i)
  }

  function Slots(item: Item): seq<int>
  {
    match item
    case Single(n) => [n]
    case Range(a, b) => Span(a, b)
  }

  function Expanded(items: seq<Item>): seq<int>
  {
    if items == [] then [] else Slots(items[0]) + Expanded(items[1..])
  }

  lemma {:induction false} ExpandedConcat(a: seq<Item>, b: seq<Item>)
    ensures Expanded(a + b) == Expanded(a) + Expanded(b)
  {
    if a == [] {
      assert a + b == b;
    } else {
      var t := a[1..];
      ExpandedConcat(t, b);
      assert (a + b)[1..] == t + b && (a + b)[0] == a[0];
      ConcatAssoc(Slots(a[0]), Expanded(t), Expanded(b));
    }
  }

  method Decompress(items: seq<Item>) returns (slots: seq<int>)
    ensures slots == Expanded(items)
  {
    slots := [];
    var i := 0;
    while i < |items|
      invariant 0 <= i <= |items| && slots + Expanded(items[i..]) == Expanded(items)
    {
      ConcatAssoc(slots, Slots(items[i]), Expanded(items[i + 1..]));
      assert items[i..][1..] == items[i + 1..];
      slots := slots + match items[i] { case Single(n) => [n] case Range(a, b) => Span(a, b) };
      i := i + 1;
    }
    assert items[i..] == [];
  }

  // ------------------------------------------------------------------- runs

  /** End of the stretch of consecutive slots that contains position p. */
  function RunEnd(s: seq<int>, p: nat): (q: nat)
    requires p < |s|
    ensures p < q <= |s| && (q < |s| ==> s[q] != s[q - 1] + 1)
    ensures forall i :: p <= i < q ==> s[i] == s[p] + (i - p)
    decreases |s| - p
  {
    if p + 1 < |s| && s[p + 1] == s[p] + 1 then RunEnd(s, p + 1) else p + 1
  }

  /** Three or more become a range, fewer stay single. */
  function Emitted(start: int, end: int): (r: seq<Item>)
    requires start <= end
    ensures end - start >= 2 ==> r == [Range(start, end)]
    ensures end == start ==> r == [Single(start)]
    ensures end == start + 1 ==> r == [Single(start), Single(end)]
  {
    if end - start + 1 >= 3 then [Range(start, end)] else if start == end then [Single(start)] else [Single(start), Single(end)]
  }

  /** One run after the other from position p on. */
  function Compressed(s: seq<int>, p: nat): seq<Item>
    requires p <= |s|
    decreases |s| - p
  {
    if p == |s| then []
    else
      var q := RunEnd(s, p);
      Emitted(s[p], s[q - 1]) + Compressed(s, q)
  }

  method AppendRange(result: seq<Item>, start: int, end: int) returns (r: seq<Item>)
    requires start <= end
    ensures r == result + Emitted(start, end)
  {
    if end - start + 1 >= 3 {
      r := result + [Range(start, end)];
    } else {
      r := result;
      var i := start;
      while i < end + 1
        invariant start <= i <= end + 1
        invariant i == start ==> r == result
        invariant i == start + 1 ==> r == result + [Single(start)]
        invariant i == start + 2 ==> r == result + [Single(start), Single(start + 1)]
      {
        r := r + [Single(i)];
        i := i + 1;
      }
    }
  }

  /** The open run [from, i) of the loop, and what is left. */
  ghost predicate Open(s: seq<int>, from: nat, i: nat, first: int, last: int)
  {
    from < i <= |s| && first == s[from] && last == s[i - 1] && forall k :: from <= k < i ==> s[k] == first + (k - from)
  }

  lemma OpenEnds(s: seq<int>, from: nat, i: nat, first: int, last: int)
    requires Open(s, from, i, first, last) && (i < |s| ==> s[i] != last + 1)
    ensures RunEnd(s, from) == i
  {
  }

  /** A closed run is emitted and the rest goes on after it. */
  lemma CloseRun(s: seq<int>, from: nat, i: nat, first: int, last: int)
    requires Open(s, from, i, first, last) && (i < |s| ==> s[i] != last + 1)
    ensures first <= last && Compressed(s, from) == Emitted(first, last) + Compressed(s, i)
  {
    OpenEnds(s, from, i, first, last);
  }

  method Compress(slots: seq<int>) returns (result: seq<Item>)
    ensures result == Compressed(slots, 0)
  {
    if slots == [] {
      return [];
    }
    result := [];
    var first, last := slots[0], slots[0];
    ghost var from: nat := 0;
    var i := 1;
    while i < |slots|
      invariant 1 <= i <= |slots| && Open(slots, from, i, first, last)
      invariant result + Compressed(slots, from) == Compressed(slots, 0)
    {
      var slot := slots[i];
      if slot == last + 1 {
        last := slot;
      } else {
        CloseRun(slots, from, i, first, last);
        ConcatAssoc(result, Emitted(first, last), Compressed(slots, i));
        result := AppendRange(result, first, last);
        first, last := slot, slot;
        from := i;
      }
      i := i + 1;
    }
    CloseRun(slots, from, i, first, last);
    assert Emitted(first, last) + [] == Emitted(first, last);
    result := AppendRange(result, first, last);
  }

  lemma ExpandedOne(x: Item)
    ensures Expanded([x]) == Slots(x)
  {
    assert [x][1..] == [];
  }

  /** One or two singles, or a range: the same slots. */
  lemma EmittedExpands(start: int, end: int)
    requires start <= end
    ensures Expanded(Emitted(start, end)) == Span(start, end)
  {
    if end == start + 1 {
      ExpandedConcat([Single(start)], [Single(end)]);
      ExpandedOne(Single(end));
      ExpandedOne(Single(start));
      assert Emitted(start, end) == [Single(start)] + [Single(end)];
    } else if end == start {
      ExpandedOne(Single(start));
    } else {
      ExpandedOne(Range(start, end));
    }
  }

  /** A run expands to its stretch of the list. */
  lemma RunExpands(s: seq<int>, p: nat)
    requires p < |s|
    ensures Expanded(Emitted(s[p], s[RunEnd(s, p) - 1])) == s[p..RunEnd(s, p)]
  {
    var q := RunEnd(s, p);
    assert s[q - 1] == s[p] + (q - 1 - p);
    EmittedExpands(s[p], s[q - 1]);
    assert Span(s[p], s[q - 1]) == s[p..q];
  }

  /** Expanding the compressed list gives the list back. */
  lemma {:induction false} RoundTrip(s: seq<int>, p: nat)
    requires p <= |s|
    ensures Expanded(Compressed(s, p)) == s[p..]
    decreases |s| - p
  {
    if p < |s| {
      var q := RunEnd(s, p);
      RoundTrip(s, q);
      RunExpands(s, p);
      ExpandedConcat(Emitted(s[p], s[q - 1]), Compressed(s, q));
      Halves(s, p, q);
    }
  }

  lemma Halves(s: seq<int>, p: nat, q: nat)
    requires p <= q <= |s|
    ensures s[p..q] + s[q..] == s[p..]
  {
  }

  // ---------------------------------------------------- ranges are the long runs

  ghost predicate Consecutive(s: seq<int>, p: nat, q: nat)
  {
    p < q <= |s| && forall i :: p < i < q ==> s[i] == s[i - 1] + 1
  }

  /** A stretch of consecutive slots that cannot be made longer. */
  ghost predicate MaximalRun(s: seq<int>, p: nat, q: nat)
  {
    && Consecutive(s, p, q)
    && (p > 0 ==> s[p] != s[p - 1] + 1)
    && (q < |s| ==> s[q] != s[q - 1] + 1)
  }

  /** Some range item covers positions [x, y), when the first item starts at position p. */
  predicate HasRange(items: seq<Item>, p: nat, x: nat, y: nat)
  {
    items != [] &&
    var n := p + |Slots(items[0])|;
    ((items[0].Range? && x == p && y == n) || HasRange(items[1..], n, x, y))
  }

  lemma {:induction false} HasRangeConcat(a: seq<Item>, b: seq<Item>, p: nat, x: nat, y: nat)
    ensures HasRange(a + b, p, x, y) <==> HasRange(a, p, x, y) || HasRange(b, p + |Expanded(a)|, x, y)
  {
    if a == [] {
      assert a + b == b;
    } else {
      var (t, n) := (a[1..], p + |Slots(a[0])|);
      HasRangeConcat(t, b, n, x, y);
      FirstThenRest(a + b, a[0], t + b, p, x, y);
      FirstThenRest(a, a[0], t, p, x, y);
      assert |Expanded(a)| == |Slots(a[0])| + |Expanded(t)|;
    }
  }

  lemma FirstThenRest(items: seq<Item>, first: Item, rest: seq<Item>, p: nat, x: nat, y: nat)
    requires items == [first] + rest
    ensures var n := p + |Slots(first)|;
            HasRange(items, p, x, y) <==> (first.Range? && x == p && y == n) || HasRange(rest, n, x, y)
  {
    assert items[1..] == rest;
  }

  lemma HasRangeOne(item: Item, p: nat, x: nat, y: nat)
    ensures HasRange([item], p, x, y) <==> item.Range? && x == p && y == p + |Slots(item)|
  {
    assert [item][1..] == [];
  }

  lemma EmittedRange(start: int, end: int, p: nat, x: nat, y: nat)
    requires start <= end
    ensures HasRange(Emitted(start, end), p, x, y) <==> end - start + 1 >= 3 && x == p && y == p + (end - start + 1)
  {
    if end == start + 1 {
      assert Emitted(start, end)[1..] == [Single(end)];
      HasRangeOne(Single(end), p + 1, x, y);
    } else if end == start {
      HasRangeOne(Single(start), p, x, y);
    } else {
      HasRangeOne(Range(start, end), p, x, y);
    }
  }

  /** The first run, then the rest. */
  lemma CompressedRange(s: seq<int>, p: nat, x: nat, y: nat)
    requires p < |s|
    ensures var q := RunEnd(s, p);
            HasRange(Compressed(s, p), p, x, y) <==> (q - p >= 3 && x == p && y == q) || HasRange(Compressed(s, q), q, x, y)
  {
    var q := RunEnd(s, p);
    assert s[q - 1] == s[p] + (q - 1 - p);
    RunExpands(s, p);
    FirstRunRange(Emitted(s[p], s[q - 1]), Compressed(s, q), s[p], s[q - 1], p, q, x, y);
  }

  lemma FirstRunRange(e: seq<Item>, rest: seq<Item>, a: int, b: int, p: nat, q: nat, x: nat, y: nat)
    requires a <= b && e == Emitted(a, b) && q - p == b - a + 1 == |Expanded(e)|
    ensures HasRange(e + rest, p, x, y) <==> (q - p >= 3 && x == p && y == q) || HasRange(rest, q, x, y)
  {
    EmittedRange(a, b, p, x, y);
    HasRangeConcat(e, rest, p, x, y);
  }

  ghost predicate RunStart(s: seq<int>, p: nat)
  {
    p <= |s| && (0 < p < |s| ==> s[p] != s[p - 1] + 1)
  }

  /** The maximal run that starts at p ends where the scan says. */
  lemma RunIsMaximal(s: seq<int>, p: nat, q: nat)
    requires p < |s| && RunStart(s, p)
    ensures MaximalRun(s, p, q) <==> q == RunEnd(s, p)
  {
  }

  /** A maximal run from a run start on starts there or past the run. */
  lemma RunsBeyond(s: seq<int>, p: nat, x: nat, y: nat)
    requires p < |s| && RunStart(s, p)
    ensures p <= x && MaximalRun(s, x, y) <==> (x == p && y == RunEnd(s, p)) || (RunEnd(s, p) <= x && MaximalRun(s, x, y))
  {
    RunIsMaximal(s, p, y);
    if p < x < RunEnd(s, p) {
      assert s[x] == s[p] + (x - p) && s[x - 1] == s[p] + (x - 1 - p);
    }
  }

  /** Items are ranges exactly for the maximal runs of three or more. */
  lemma {:induction false} RangesAreLongRuns(s: seq<int>, p: nat, x: nat, y: nat)
    requires p <= |s| && RunStart(s, p)
    ensures HasRange(Compressed(s, p), p, x, y) <==> p <= x && MaximalRun(s, x, y) && y - x >= 3
    decreases |s| - p
  {
    if p < |s| {
      var q := RunEnd(s, p);
      RangesAreLongRuns(s, q, x, y);
      CompressedRange(s, p, x, y);
      RunsBeyond(s, p, x, y);
    }
  }
}
