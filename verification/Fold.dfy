/**
 Folding presence bitmaps into servable prefix lengths and unfolding a length
 into the bits to retain.
 */
module Fold {
  import opened Radix
  import opened Bitmaps
  import opened FoldSpec

  // ------------------------------------------------------------------ sweeps

  /** Bitmap with exactly the flagged positions. */
  method FromFlags(servable: array<bool>) returns (r: Bitmap)
    ensures fresh(r) && fresh(r.data) && r.Valid() && r.Padded() && r.size == servable.Length
    ensures forall j: nat :: j in r.Elements() <==> j < servable.Length && servable[j]
  {
    r := new Bitmap(servable.Length);
    var j := 0;
    while j < servable.Length
      invariant j <= servable.Length && r.Padded()
      invariant forall i: nat :: i in r.Elements() <==> i < j && servable[i]
    {
      if servable[j] {
        r.Set(j);
      }
      j := j + 1;
    }
  }

  // ------------------------------------------------------------ ranked fold

  /** All ranks of one chunk of one group. */
  method ChunkPresent(found: Bitmap, ranks: nat, groups: nat, c: nat, g: nat) returns (present: bool)
    requires found.Valid()
    ensures present <==> Present(found.Elements(), ranks, groups, c, g)
  {
    var base := Mul(c, Stride(ranks, groups)) + Mul(g, ranks);
    var r := 0;
    while r < ranks
      invariant r <= ranks && forall q: nat :: q < r ==> Cell(ranks, groups, c, g, q) in found.Elements()
    {
      var here := found.Test(base + r);
      if !here {
        assert Cell(ranks, groups, c, g, r) !in found.Elements();
        return false;
      }
      r := r + 1;
    }
    return true;
  }

  /** A row's sweep keeps a flag exactly when the row serves that length. */
  ghost predicate Swept(before: seq<bool>, after: seq<bool>, row: set<nat>, window: int, upto: nat)
  {
    && |after| == |before|
    && forall j: nat :: j < |before| ==> after[j] == (before[j] && (j < upto ==> RowServes(row, window, j + 1)))
  }

  lemma SweptNext(before: seq<bool>, mid: seq<bool>, after: seq<bool>, row: set<nat>, window: int, run: nat, length: nat)
    requires 0 < length <= |before| && Swept(before, mid, row, window, length - 1) && RunIs(row, length, run)
    requires after == mid[length - 1 := mid[length - 1] && !(run < Min(Effective(window, |before|), length))]
    ensures Swept(before, after, row, window, length)
  {
    RunDecides(row, window, |before|, length, run);
  }

  /** One group: clear the lengths it cannot serve. */
  method SweepGroup(found: Bitmap, ranks: nat, windows: seq<int>, g: nat, servable: array<bool>)
    requires found.Valid() && g < |windows|
    modifies servable
    ensures Swept(old(servable[..]), servable[..], GroupRow(found.Elements(), servable.Length, ranks, |windows|, g), windows[g], servable.Length)
  {
    var chunks, groups := servable.Length, |windows|;
    ghost var was := servable[..];
    ghost var row := GroupRow(found.Elements(), chunks, ranks, groups, g);
    var need, run := Effective(windows[g], chunks), 0;
    var length := 1;
    while length <= chunks
      invariant 1 <= length <= chunks + 1
      invariant row == GroupRow(found.Elements(), chunks, ranks, groups, g) && RunIs(row, length - 1, run)
      invariant Swept(was, servable[..], row, windows[g], length - 1)
    {
      ghost var mid := servable[..];
      var present := ChunkPresent(found, ranks, groups, length - 1, g);
      RunStep(row, length - 1, run);
      run := if present then run + 1 else 0;
      if servable[length - 1] && run < Min(need, length) {
        servable[length - 1] := false;
      }
      SweptNext(was, mid, servable[..], row, windows[g], run, length);
      length := length + 1;
    }
  }

  /** Bit j is set exactly when every group can serve a prefix of length j + 1. */
  method FoldRanked(found: Bitmap, chunks: nat, ranks: nat, windows: seq<int>) returns (r: Bitmap)
    requires found.Valid()
    ensures fresh(r) && fresh(r.data) && r.Valid() && r.Padded() && r.size == chunks
    ensures forall j: nat :: j in r.Elements() <==> j < chunks && Servable(found.Elements(), chunks, ranks, windows, j + 1)
  {
    var servable := new bool[chunks](_ => true);
    var g := 0;
    while g < |windows|
      invariant g <= |windows| && found.Elements() == old(found.Elements())
      invariant forall j: nat :: j < chunks ==> servable[j] == GroupsServe(found.Elements(), chunks, ranks, windows, g, j + 1)
    {
      ghost var was := servable[..];
      SweepGroup(found, ranks, windows, g, servable);
      GroupsNext(was, servable[..], found.Elements(), ranks, windows, g);
      g := g + 1;
    }
    r := FromFlags(servable);
  }

  lemma GroupsNext(was: seq<bool>, now: seq<bool>, found: set<nat>, ranks: nat, windows: seq<int>, g: nat)
    requires g < |windows| && Swept(was, now, GroupRow(found, |was|, ranks, |windows|, g), windows[g], |was|)
    requires forall j: nat :: j < |was| ==> was[j] == GroupsServe(found, |was|, ranks, windows, g, j + 1)
    ensures forall j: nat :: j < |now| ==> now[j] == GroupsServe(found, |was|, ranks, windows, g + 1, j + 1)
  {
  }

  /** The model-wide hit length. */
  method HitLength(found: Bitmap, chunks: nat, ranks: nat, windows: seq<int>) returns (hit: nat)
    requires found.Valid()
    ensures IsHit(found.Elements(), chunks, ranks, windows, hit)
  {
    var lengths := FoldRanked(found, chunks, ranks, windows);
    ghost var F := found.Elements();
    var top := lengths.HighestSetBit();
    hit := top + 1;
    if hit > 0 {
      assert hit - 1 in lengths.Elements();
    }
    forall l: nat | hit < l <= chunks
      ensures !Servable(F, chunks, ranks, windows, l)
    {
      assert l - 1 !in lengths.Elements();
    }
  }

  // ---------------------------------------------------------- ranked unfold

  /** Needed by one of the first groups, or by group g before chunk j. */
  ghost predicate NeededUpTo(hit: nat, ranks: nat, windows: seq<int>, g: nat, j: nat, i: nat)
  {
    exists c: nat, h: nat, r: nat ::
      IsCell(ranks, |windows|, i, c, h, r) && Low(windows[h], hit) <= c < hit && (h < g || (h == g && c < j))
  }

  /** Setting the ranks of one cell adds exactly that cell. */
  lemma NeededCell(hit: nat, ranks: nat, windows: seq<int>, g: nat, j: nat, i: nat)
    requires g < |windows| && Low(windows[g], hit) <= j < hit
    ensures var base := Mul(j, Stride(ranks, |windows|)) + Mul(g, ranks);
            (NeededUpTo(hit, ranks, windows, g, j + 1, i) <==> NeededUpTo(hit, ranks, windows, g, j, i) || base <= i < base + ranks)
  {
    var base := Mul(j, Stride(ranks, |windows|)) + Mul(g, ranks);
    if base <= i < base + ranks {
      assert IsCell(ranks, |windows|, i, j, g, i - base);
    }
  }

  lemma CellInMask(ranks: nat, groups: nat, chunks: nat, c: nat, g: nat)
    requires g < groups && c < chunks
    ensures Mul(c, Stride(ranks, groups)) + Mul(g, ranks) + ranks <= Mul(chunks, Stride(ranks, groups))
  {
    Monotone(g + 1, groups, ranks);
    Distribute(g, 1, ranks);
    Monotone(c + 1, chunks, Stride(ranks, groups));
    Distribute(c, 1, Stride(ranks, groups));
  }

  /** One group: set the ranks of every chunk it needs. */
  method RetainGroup(mask: Bitmap, hit: nat, chunks: nat, ranks: nat, windows: seq<int>, g: nat)
    requires mask.Valid() && mask.Padded() && mask.size == Mul(chunks, Stride(ranks, |windows|)) && hit <= chunks && g < |windows|
    requires forall i: nat :: i in mask.Elements() <==> NeededUpTo(hit, ranks, windows, g, 0, i)
    modifies mask.data
    ensures mask.Padded()
    ensures forall i: nat :: i in mask.Elements() <==> NeededUpTo(hit, ranks, windows, g + 1, 0, i)
  {
    var stride := Stride(ranks, |windows|);
    var low := Low(windows[g], hit);
    var j := low;
    NeededStart(hit, ranks, windows, g);
    while j < hit
      invariant low <= j && (j <= hit || j == low) && mask.Padded()
      invariant forall i: nat :: i in mask.Elements() <==> NeededUpTo(hit, ranks, windows, g, j, i)
    {
      var base := Mul(j, stride) + Mul(g, ranks);
      CellInMask(ranks, |windows|, chunks, j, g);
      mask.SetRange(base, base + ranks);
      forall i: nat
        ensures i in mask.Elements() <==> NeededUpTo(hit, ranks, windows, g, j + 1, i)
      {
        NeededCell(hit, ranks, windows, g, j, i);
      }
      j := j + 1;
    }
    NeededEnd(hit, ranks, windows, g, j);
  }

  lemma NeededStart(hit: nat, ranks: nat, windows: seq<int>, g: nat)
    requires g < |windows|
    ensures forall i: nat :: NeededUpTo(hit, ranks, windows, g, 0, i) <==> NeededUpTo(hit, ranks, windows, g, Low(windows[g], hit), i)
  {
  }

  lemma NeededEnd(hit: nat, ranks: nat, windows: seq<int>, g: nat, j: nat)
    requires g < |windows| && hit <= j
    ensures forall i: nat :: NeededUpTo(hit, ranks, windows, g, j, i) <==> NeededUpTo(hit, ranks, windows, g + 1, 0, i)
  {
  }

  /** The retain mask: exactly the bits the (clamped) hit length needs. */
  method UnfoldRanked(hit: nat, chunks: nat, ranks: nat, windows: seq<int>) returns (mask: Bitmap)
    ensures fresh(mask) && fresh(mask.data) && mask.Valid() && mask.Padded() && mask.size == Mul(chunks, Stride(ranks, |windows|))
    ensures forall i: nat :: i in mask.Elements() <==> Needed(Min(hit, chunks), ranks, windows, i)
  {
    var length := if hit > chunks then chunks else hit;
    mask := new Bitmap(Mul(chunks, Stride(ranks, |windows|)));
    if length == 0 {
      return;
    }
    var g := 0;
    while g < |windows|
      invariant g <= |windows| && mask.Padded()
      invariant forall i: nat :: i in mask.Elements() <==> NeededUpTo(length, ranks, windows, g, 0, i)
    {
      RetainGroup(mask, length, chunks, ranks, windows, g);
      g := g + 1;
    }
  }

  // -------------------------------------------------------------- grouped form

  ghost function Sets(rows: seq<Bitmap>): (r: seq<set<nat>>)
    reads rows, set b | b in rows :: b.data
    ensures |r| == |rows|
    ensures forall i: nat :: i < |rows| ==> r[i] == rows[i].Elements()
  {
    if rows == [] then [] else [rows[0].Elements()] + Sets(rows[1..])
  }

  datatype Folded = Folded(lengths: Bitmap) | LengthMismatch | SizeMismatch

  /** One row: clear the lengths it cannot serve. */
  method SweepRow(row: Bitmap, window: int, servable: array<bool>)
    requires row.Valid()
    modifies servable
    ensures Swept(old(servable[..]), servable[..], row.Elements(), window, servable.Length)
  {
    var chunks := servable.Length;
    ghost var was := servable[..];
    ghost var S := row.Elements();
    var need, run := Effective(window, chunks), 0;
    var length := 1;
    while length <= chunks
      invariant 1 <= length <= chunks + 1
      invariant row.Elements() == S && RunIs(S, length - 1, run)
      invariant Swept(was, servable[..], S, window, length - 1)
    {
      ghost var mid := servable[..];
      var present := row.Test(length - 1);
      RunStep(S, length - 1, run);
      run := if present then run + 1 else 0;
      if servable[length - 1] && run < Min(need, length) {
        servable[length - 1] := false;
      }
      SweptNext(was, mid, servable[..], S, window, run, length);
      length := length + 1;
    }
  }

  lemma RowsNext(was: seq<bool>, now: seq<bool>, rows: seq<set<nat>>, windows: seq<int>, i: nat)
    requires i < |rows| == |windows| && Swept(was, now, rows[i], windows[i], |was|)
    requires forall j: nat :: j < |was| ==> was[j] == RowsServe(rows, windows, i, j + 1)
    ensures forall j: nat :: j < |now| ==> now[j] == RowsServe(rows, windows, i + 1, j + 1)
  {
  }

  /** Bit j is set exactly when every row can serve a prefix of length j + 1. */
  method FoldGrouped(rows: seq<Bitmap>, windows: seq<int>) returns (r: Folded)
    requires forall i :: 0 <= i < |rows| ==> rows[i].Valid()
    ensures r.LengthMismatch? <==> |rows| != |windows|
    ensures r.SizeMismatch? <==> |rows| == |windows| && exists i :: 0 <= i < |rows| && rows[i].size != rows[0].size
    ensures r.Folded? ==>
              var chunks := if rows == [] then 0 else rows[0].size;
              && fresh(r.lengths) && fresh(r.lengths.data) && r.lengths.Valid() && r.lengths.Padded() && r.lengths.size == chunks
              && forall j: nat :: j in r.lengths.Elements() <==> j < chunks && RowsServe(Sets(rows), windows, |rows|, j + 1)
  {
    if |rows| != |windows| {
      return LengthMismatch;
    }
    var chunks := if rows == [] then 0 else rows[0].size;
    var i := 0;
    while i < |rows|
      invariant i <= |rows| && forall k :: 0 <= k < i ==> rows[k].size == chunks
    {
      if rows[i].size != chunks {
        return SizeMismatch;
      }
      i := i + 1;
    }
    var servable := new bool[chunks](_ => true);
    ghost var S := Sets(rows);
    i := 0;
    while i < |rows|
      invariant i <= |rows| && Sets(rows) == S
      invariant forall j: nat :: j < chunks ==> servable[j] == RowsServe(S, windows, i, j + 1)
    {
      ghost var was := servable[..];
      SweepRow(rows[i], windows[i], servable);
      RowsNext(was, servable[..], S, windows, i);
      i := i + 1;
    }
    var lengths := FromFlags(servable);
    r := Folded(lengths);
  }

  /** One retain bitmap per window. */
  method UnfoldGrouped(hit: nat, chunks: nat, windows: seq<int>) returns (rows: seq<Bitmap>)
    ensures |rows| == |windows|
    ensures forall i :: 0 <= i < |rows| ==> rows[i].Valid() && rows[i].Padded() && rows[i].size == chunks
    ensures forall i :: 0 <= i < |rows| ==> forall c: nat :: c in rows[i].Elements() <==> RowNeeds(windows[i], Min(hit, chunks), c)
    ensures forall i :: 0 <= i < |rows| ==>
              forall c: nat :: c in rows[i].Elements() <==>
                c < hit && c < chunks && (windows[i] <= 0 || (if hit <= chunks then hit else chunks) - windows[i] <= c)
  {
    var length := if hit > chunks then chunks else hit;
    rows := [];
    var i := 0;
    while i < |windows|
      invariant i == |rows| <= |windows|
      invariant forall k :: 0 <= k < i ==> rows[k].Valid() && rows[k].Padded() && rows[k].size == chunks
      invariant forall k :: 0 <= k < i ==> forall c: nat :: c in rows[k].Elements() <==> RowNeeds(windows[k], length, c)
    {
      var row := new Bitmap(chunks);
      if length > 0 {
        row.SetRange(Low(windows[i], length), length);
      }
      rows := rows + [row];
      i := i + 1;
    }
  }
}
