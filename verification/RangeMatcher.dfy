/**
 Ranges of a token list that begin with one pattern and end with the first
 occurrence of another.
 */
module RangeMatcher {

  predicate MatchAt(data: seq<int>, pos: nat, pattern: seq<int>): (r: bool)
    ensures r ==> pos + |pattern| <= |data|
    decreases |pattern|
  {
    if pattern == [] then pos <= |data| else pos < |data| && data[pos] == pattern[0] && MatchAt(data, pos + 1, pattern[1..])
  }

  /** The pattern is the stretch of the data that starts at pos. */
  lemma {:induction false} MatchIsSlice(data: seq<int>, pos: nat, pattern: seq<int>)
    ensures MatchAt(data, pos, pattern) <==> pos + |pattern| <= |data| && data[pos..pos + |pattern|] == pattern
    decreases |pattern|
  {
    if pattern != [] {
      MatchIsSlice(data, pos + 1, pattern[1..]);
      if pos + |pattern| <= |data| {
        var slice := data[pos..pos + |pattern|];
        assert slice[0] == data[pos] && slice[1..] == data[pos + 1..pos + |pattern|];
        assert slice == [slice[0]] + slice[1..] && pattern == [pattern[0]] + pattern[1..];
      }
    }
  }

  method MatchesAt(data: seq<int>, pos: nat, pattern: seq<int>) returns (r: bool)
    ensures r == MatchAt(data, pos, pattern)
  {
    if pos + |pattern| > |data| {
      return false;
    }
    var i := 0;
    assert pattern[0..] == pattern;
    while i < |pattern|
      invariant 0 <= i <= |pattern| && MatchAt(data, pos, pattern) == MatchAt(data, pos + i, pattern[i..])
    {
      assert pattern[i..][0] == pattern[i] && pattern[i..][1..] == pattern[i + 1..];
      if data[pos + i] != pattern[i] {
        return false;
      }
      i := i + 1;
    }
    return true;
  }

  /** First occurrence of the pattern from j on, or one past the data. */
  function FirstFrom(data: seq<int>, j: nat, pattern: seq<int>): (r: nat)
    ensures j <= |data| ==> j <= r <= |data| + 1
    ensures r <= |data| ==> j <= r && MatchAt(data, r, pattern)
    ensures forall k: nat :: j <= k < r ==> !MatchAt(data, k, pattern)
    ensures r > |data| ==> forall k: nat :: j <= k ==> !MatchAt(data, k, pattern)
    decreases |data| + 1 - j
  {
    if j > |data| then j else if MatchAt(data, j, pattern) then j else FirstFrom(data, j + 1, pattern)
  }

  datatype Found = Found(start: nat, end: nat)

  /** The plain scan: try every position, take the first end, go on after it. */
  function Naive(data: seq<int>, start: seq<int>, end: seq<int>, i: nat): seq<Found>
    requires start != [] && end != []
    decreases |data| + 1 - i
  {
    if i > |data| then []
    else if MatchAt(data, i, start) then
      var j := FirstFrom(data, i + |start|, end);
      if j <= |data| then [Found(i, j + |end|)] + Naive(data, start, end, j + |end|) else Naive(data, start, end, i + 1)
    else Naive(data, start, end, i + 1)
  }

  /** No end pattern from j on. */
  ghost predicate NoEnd(data: seq<int>, end: seq<int>, j: nat)
  {
    forall k: nat :: j <= k ==> !MatchAt(data, k, end)
  }

  /** A start without an end behind it ends the search: later starts have none either. */
  lemma {:induction false} NoEndNoRange(data: seq<int>, start: seq<int>, end: seq<int>, i: nat, j: nat)
    requires start != [] && end != [] && j <= i + |start| && NoEnd(data, end, j)
    ensures Naive(data, start, end, i) == []
    decreases |data| + 1 - i
  {
    if i <= |data| {
      NoEndNoRange(data, start, end, i + 1, j);
    }
  }

  /** Too little room left for both patterns. */
  lemma NoRoom(data: seq<int>, start: seq<int>, end: seq<int>, i: nat)
    requires start != [] && end != [] && i + |start| + |end| > |data|
    ensures Naive(data, start, end, i) == []
  {
    NoEndNoRange(data, start, end, i, i + |start|);
  }

  /** The inner loop: the first end from a position on. */
  method FindEnd(data: seq<int>, from: nat, end: seq<int>) returns (found: bool, j: nat)
    requires |end| <= |data|
    ensures found ==> j <= |data| && j == FirstFrom(data, from, end)
    ensures !found ==> NoEnd(data, end, from)
  {
    j := from;
    while j <= |data| - |end|
      invariant from <= j
      invariant forall k: nat :: from <= k < j ==> !MatchAt(data, k, end)
      decreases |data| - j
    {
      var here := MatchesAt(data, j, end);
      if here {
        return true, j;
      }
      j := j + 1;
    }
    found := false;
  }

  /** Skips the whole start pattern when no end follows, and still finds what the plain scan finds. */
  method Match(data: seq<int>, start: seq<int>, end: seq<int>) returns (ranges: seq<Found>)
    requires start != [] && end != []
    ensures ranges == Naive(data, start, end, 0)
  {
    ranges := [];
    if |data| < |start| + |end| {
      NoRoom(data, start, end, 0);
      return;
    }
    var i: nat := 0;
    while i <= |data| - |start|
      invariant ranges + Naive(data, start, end, i) == Naive(data, start, end, 0)
      decreases |data| - i
    {
      var here := MatchesAt(data, i, start);
      if here {
        var found, j := FindEnd(data, i + |start|, end);
        if found {
          Push(ranges, Found(i, j + |end|), Naive(data, start, end, j + |end|));
          ranges := ranges + [Found(i, j + |end|)];
          i := j + |end|;
        } else {
          NoEndNoRange(data, start, end, i, i + |start|);
          NoEndNoRange(data, start, end, i + |start|, i + |start|);
          i := i + |start|;
        }
      } else {
        i := i + 1;
      }
    }
    NoRoom(data, start, end, i);
    assert ranges + [] == ranges;
  }

  lemma Push(ranges: seq<Found>, x: Found, rest: seq<Found>)
    ensures ranges + ([x] + rest) == ranges + [x] + rest
  {
  }

  // ------------------------------------------------- what the plain scan finds

  /** A start pattern at i with an end pattern somewhere behind it. */
  ghost predicate Opens(data: seq<int>, start: seq<int>, end: seq<int>, i: nat)
  {
    MatchAt(data, i, start) && !NoEnd(data, end, i + |start|)
  }

  /** The first end pattern from lo on is at j. */
  ghost predicate FirstEnd(data: seq<int>, lo: nat, end: seq<int>, j: int)
  {
    0 <= lo <= j && MatchAt(data, j, end) && forall k: nat :: lo <= k < j ==> !MatchAt(data, k, end)
  }

  /** The leftmost start from a position on that has an end, and the first end behind it. */
  ghost predicate IsNext(data: seq<int>, start: seq<int>, end: seq<int>, from: nat, f: Found)
  {
    && from <= f.start && MatchAt(data, f.start, start)
    && (forall i: nat :: from <= i < f.start ==> !Opens(data, start, end, i))
    && FirstEnd(data, f.start + |start|, end, f.end - |end|)
  }

  /** Each range is the next one after the range before it, and after the last there is none. */
  ghost predicate Greedy(data: seq<int>, start: seq<int>, end: seq<int>, from: nat, ranges: seq<Found>)
    decreases |ranges|
  {
    if ranges == [] then forall i: nat :: from <= i ==> !Opens(data, start, end, i)
    else IsNext(data, start, end, from, ranges[0]) && Greedy(data, start, end, ranges[0].end, ranges[1..])
  }

  lemma NextEarlier(data: seq<int>, start: seq<int>, end: seq<int>, from: nat, ranges: seq<Found>)
    requires Greedy(data, start, end, from + 1, ranges) && !Opens(data, start, end, from)
    ensures Greedy(data, start, end, from, ranges)
  {
  }

  lemma {:induction false} NaiveIsGreedy(data: seq<int>, start: seq<int>, end: seq<int>, i: nat)
    requires start != [] && end != []
    ensures Greedy(data, start, end, i, Naive(data, start, end, i))
    decreases |data| + 1 - i
  {
    if i <= |data| {
      var j := FirstFrom(data, i + |start|, end);
      if MatchAt(data, i, start) && j <= |data| {
        var rest := Naive(data, start, end, j + |end|);
        NaiveIsGreedy(data, start, end, j + |end|);
        FirstThenRest(data, start, end, i, j, rest);
      } else {
        NaiveIsGreedy(data, start, end, i + 1);
        NotOpening(data, start, end, i);
        NextEarlier(data, start, end, i, Naive(data, start, end, i + 1));
      }
    } else {
      PastTheEnd(data, start, end, i);
    }
  }

  lemma PastTheEnd(data: seq<int>, start: seq<int>, end: seq<int>, i: nat)
    requires i > |data| && start != []
    ensures Greedy(data, start, end, i, [])
  {
  }

  lemma FirstThenRest(data: seq<int>, start: seq<int>, end: seq<int>, i: nat, j: nat, rest: seq<Found>)
    requires MatchAt(data, i, start) && FirstEnd(data, i + |start|, end, j) && Greedy(data, start, end, j + |end|, rest)
    ensures Greedy(data, start, end, i, [Found(i, j + |end|)] + rest)
  {
    FirstIsNext(data, start, end, i, j);
    GreedyCons(data, start, end, i, Found(i, j + |end|), rest);
  }

  lemma NotOpening(data: seq<int>, start: seq<int>, end: seq<int>, i: nat)
    requires !MatchAt(data, i, start) || FirstFrom(data, i + |start|, end) > |data|
    ensures !Opens(data, start, end, i)
  {
  }

  lemma GreedyCons(data: seq<int>, start: seq<int>, end: seq<int>, from: nat, f: Found, rest: seq<Found>)
    requires IsNext(data, start, end, from, f) && Greedy(data, start, end, f.end, rest)
    ensures Greedy(data, start, end, from, [f] + rest)
  {
    assert ([f] + rest)[1..] == rest;
  }

  lemma FirstIsNext(data: seq<int>, start: seq<int>, end: seq<int>, i: nat, j: nat)
    requires MatchAt(data, i, start) && FirstEnd(data, i + |start|, end, j)
    ensures IsNext(data, start, end, i, Found(i, j + |end|))
  {
    assert Found(i, j + |end|).end - |end| == j;
  }

  /** At most one list of ranges is greedy. */
  lemma {:induction false} GreedyUnique(data: seq<int>, start: seq<int>, end: seq<int>, from: nat, a: seq<Found>, b: seq<Found>)
    requires start != [] && end != [] && Greedy(data, start, end, from, a) && Greedy(data, start, end, from, b)
    ensures a == b
    decreases |a|
  {
    if a != [] {
      NextOpens(data, start, end, from, a[0]);
      if b != [] {
        NextUnique(data, start, end, from, a[0], b[0]);
        GreedyUnique(data, start, end, a[0].end, a[1..], b[1..]);
        assert a == [a[0]] + a[1..] && b == [b[0]] + b[1..];
      }
    } else if b != [] {
      NextOpens(data, start, end, from, b[0]);
    }
  }

  lemma NextOpens(data: seq<int>, start: seq<int>, end: seq<int>, from: nat, f: Found)
    requires IsNext(data, start, end, from, f)
    ensures Opens(data, start, end, f.start)
  {
    assert MatchAt(data, f.end - |end|, end);
  }

  lemma NextUnique(data: seq<int>, start: seq<int>, end: seq<int>, from: nat, f: Found, g: Found)
    requires IsNext(data, start, end, from, f) && IsNext(data, start, end, from, g)
    ensures f == g
  {
    NextOpens(data, start, end, from, f);
    NextOpens(data, start, end, from, g);
    assert f.start == g.start;
    var x: nat, y: nat := f.end - |end|, g.end - |end|;
    assert MatchAt(data, x, end) && MatchAt(data, y, end);
  }

  /** The ranges ascend and do not overlap. */
  lemma {:induction false} GreedyAscends(data: seq<int>, start: seq<int>, end: seq<int>, from: nat, ranges: seq<Found>, k: nat)
    requires Greedy(data, start, end, from, ranges) && k < |ranges|
    ensures from <= ranges[k].start && ranges[k].start + |start| + |end| <= ranges[k].end <= |data|
    ensures k + 1 < |ranges| ==> ranges[k].end <= ranges[k + 1].start
    decreases |ranges|
  {
    if k > 0 {
      GreedyAscends(data, start, end, ranges[0].end, ranges[1..], k - 1);
    }
  }

  /** A range begins with the start pattern and ends, exclusively, with the end pattern. */
  lemma {:induction false} RangesHold(data: seq<int>, start: seq<int>, end: seq<int>, from: nat, ranges: seq<Found>, k: nat)
    requires Greedy(data, start, end, from, ranges) && k < |ranges|
    ensures var f := ranges[k];
            && f.start + |start| + |end| <= f.end <= |data|
            && data[f.start..f.start + |start|] == start && data[f.end - |end|..f.end] == end
    decreases |ranges|
  {
    GreedyAscends(data, start, end, from, ranges, k);
    if k > 0 {
      RangesHold(data, start, end, ranges[0].end, ranges[1..], k - 1);
    } else {
      MatchIsSlice(data, ranges[0].start, start);
      MatchIsSlice(data, ranges[0].end - |end|, end);
    }
  }
}
