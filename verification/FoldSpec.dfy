/**
 Which prefix lengths a set of found chunks can serve, and which chunks a prefix
 length needs.
 */
module FoldSpec {
  import opened Radix

  /** First chunk a window needs for a prefix of the given length; no positive window means all of them. */
  function Low(window: int, length: nat): nat
  {
    if window > 0 && length > window then length - window else 0
  }

  /** A row of found chunks holds everything its window needs. */
  ghost predicate RowServes(row: set<nat>, window: int, length: nat)
  {
    forall c: nat :: Low(window, length) <= c < length ==> c in row
  }

  /** The window in whole numbers: the last window chunks of the prefix, or all of them when the window is not positive. */
  lemma RowServesExactly(row: set<nat>, window: int, length: nat)
    ensures RowServes(row, window, length) <==> forall c: nat :: c < length && (window <= 0 || length - window <= c) ==> c in row
  {
  }

  // ------------------------------------------------------------ run counters

  /** run counts the consecutive present chunks just before p. */
  ghost predicate RunIs(row: set<nat>, p: nat, run: nat)
  {
    && run <= p
    && (forall c: nat :: p - run <= c < p ==> c in row)
    && (run < p ==> p - run - 1 !in row)
  }

  function Effective(window: int, chunks: nat): nat
  {
    if window <= 0 then chunks else window
  }

  lemma RunStep(row: set<nat>, p: nat, run: nat)
    requires RunIs(row, p, run)
    ensures RunIs(row, p + 1, if p in row then run + 1 else 0)
  {
  }

  /** The run decides whether the window is served. */
  lemma RunDecides(row: set<nat>, window: int, chunks: nat, length: nat, run: nat)
    requires RunIs(row, length, run) && length <= chunks
    ensures RowServes(row, window, length) <==> run >= Min(Effective(window, chunks), length)
  {
    var need := Min(Effective(window, chunks), length);
    assert Low(window, length) == length - need;
    if run < need {
      assert length - run - 1 !in row;
    }
  }

  // ---------------------------------------------------------- ranked layout

  function Stride(ranks: nat, groups: nat): nat
  {
    Mul(groups, ranks)
  }

  /** Chunk-major, then group, then rank. */
  function Cell(ranks: nat, groups: nat, c: nat, g: nat, r: nat): nat
  {
    Mul(c, Stride(ranks, groups)) + Mul(g, ranks) + r
  }

  /** Chunk c of group g was found for every rank. */
  ghost predicate Present(found: set<nat>, ranks: nat, groups: nat, c: nat, g: nat)
  {
    forall r: nat :: r < ranks ==> Cell(ranks, groups, c, g, r) in found
  }

  ghost function GroupRow(found: set<nat>, chunks: nat, ranks: nat, groups: nat, g: nat): set<nat>
  {
    set c: nat | c < chunks && Present(found, ranks, groups, c, g)
  }

  /** The first n groups can serve the length. */
  ghost predicate GroupsServe(found: set<nat>, chunks: nat, ranks: nat, windows: seq<int>, n: nat, length: nat)
    requires n <= |windows|
  {
    forall g: nat :: g < n ==> RowServes(GroupRow(found, chunks, ranks, |windows|, g), windows[g], length)
  }

  ghost predicate Servable(found: set<nat>, chunks: nat, ranks: nat, windows: seq<int>, length: nat)
  {
    GroupsServe(found, chunks, ranks, windows, |windows|, length)
  }

  ghost predicate IsCell(ranks: nat, groups: nat, i: nat, c: nat, g: nat, r: nat)
  {
    g < groups && r < ranks && i == Cell(ranks, groups, c, g, r)
  }

  /** Bit i is one a prefix of the given length needs. */
  ghost predicate Needed(length: nat, ranks: nat, windows: seq<int>, i: nat)
  {
    exists c: nat, g: nat, r: nat :: IsCell(ranks, |windows|, i, c, g, r) && Low(windows[g], length) <= c < length
  }

  /** Every bit the prefix needs was found. */
  ghost predicate AllFound(found: set<nat>, length: nat, ranks: nat, windows: seq<int>)
  {
    forall i: nat :: Needed(length, ranks, windows, i) ==> i in found
  }

  /** A prefix is servable exactly when every bit it needs was found. */
  lemma Adjunction(found: set<nat>, chunks: nat, ranks: nat, windows: seq<int>, length: nat)
    requires length <= chunks
    ensures Servable(found, chunks, ranks, windows, length) <==> AllFound(found, length, ranks, windows)
  {
    var groups := |windows|;
    if Servable(found, chunks, ranks, windows, length) {
      forall i: nat | Needed(length, ranks, windows, i)
        ensures i in found
      {
        var c: nat, g: nat, r: nat :| IsCell(ranks, groups, i, c, g, r) && Low(windows[g], length) <= c < length;
        assert RowServes(GroupRow(found, chunks, ranks, groups, g), windows[g], length);
        assert c in GroupRow(found, chunks, ranks, groups, g);
      }
    }
    if AllFound(found, length, ranks, windows) {
      forall g: nat, c: nat, r: nat | g < groups && Low(windows[g], length) <= c < length && r < ranks
        ensures Cell(ranks, groups, c, g, r) in found
      {
        assert IsCell(ranks, groups, Cell(ranks, groups, c, g, r), c, g, r);
      }
    }
  }

  lemma CellIs(ranks: nat, groups: nat, c: nat, g: nat, r: nat)
    ensures Cell(ranks, groups, c, g, r) == c * groups * ranks + g * ranks + r
  {
    Assoc(c, groups, ranks);
  }

  /** What a servable prefix needs of the bitmap, bit by bit. */
  lemma ServableNeeds(found: set<nat>, chunks: nat, ranks: nat, windows: seq<int>, length: nat, c: nat, g: nat, r: nat)
    requires length <= chunks && Servable(found, chunks, ranks, windows, length)
    requires g < |windows| && r < ranks && c < length && (windows[g] <= 0 || length - windows[g] <= c)
    ensures c * |windows| * ranks + g * ranks + r in found
  {
    CellIs(ranks, |windows|, c, g, r);
    assert RowServes(GroupRow(found, chunks, ranks, |windows|, g), windows[g], length);
    assert c in GroupRow(found, chunks, ranks, |windows|, g);
  }

  /** A prefix that is not servable lacks such a bit. */
  lemma UnservableLacks(found: set<nat>, chunks: nat, ranks: nat, windows: seq<int>, length: nat) returns (c: nat, g: nat, r: nat)
    requires length <= chunks && !Servable(found, chunks, ranks, windows, length)
    ensures g < |windows| && r < ranks && c < length && (windows[g] <= 0 || length - windows[g] <= c)
    ensures c * |windows| * ranks + g * ranks + r !in found
  {
    g :| g < |windows| && !RowServes(GroupRow(found, chunks, ranks, |windows|, g), windows[g], length);
    c :| Low(windows[g], length) <= c < length && c !in GroupRow(found, chunks, ranks, |windows|, g);
    r :| r < ranks && Cell(ranks, |windows|, c, g, r) !in found;
    CellIs(ranks, |windows|, c, g, r);
  }

  /** Every bit of chunks * groups * ranks is one cell, and it is needed exactly when its chunk is in its group's window. */
  lemma NeededExactly(length: nat, ranks: nat, windows: seq<int>, c: nat, g: nat, r: nat)
    requires g < |windows| && r < ranks
    ensures Needed(length, ranks, windows, c * |windows| * ranks + g * ranks + r) <==> c < length && (windows[g] <= 0 || length - windows[g] <= c)
  {
    var groups := |windows|;
    CellIs(ranks, groups, c, g, r);
    var x := Cell(ranks, groups, c, g, r);
    assert IsCell(ranks, groups, x, c, g, r);
    if Needed(length, ranks, windows, x) {
      var c1: nat, g1: nat, r1: nat :| IsCell(ranks, groups, x, c1, g1, r1) && Low(windows[g1], length) <= c1 < length;
      Less(g, r, groups, ranks);
      Less(g1, r1, groups, ranks);
      Unique(c, g * ranks + r, c1, g1 * ranks + r1, Stride(ranks, groups));
      Unique(g, r, g1, r1, ranks);
    }
  }

  /** Nothing else is needed. */
  lemma NeededIsCell(length: nat, ranks: nat, windows: seq<int>, i: nat) returns (c: nat, g: nat, r: nat)
    requires Needed(length, ranks, windows, i)
    ensures g < |windows| && r < ranks && c < length && (windows[g] <= 0 || length - windows[g] <= c)
    ensures i == c * |windows| * ranks + g * ranks + r
  {
    c, g, r :| IsCell(ranks, |windows|, i, c, g, r) && Low(windows[g], length) <= c < length;
    CellIs(ranks, |windows|, c, g, r);
  }

  /** The hit: the longest servable prefix, or nothing. */
  ghost predicate IsHit(found: set<nat>, chunks: nat, ranks: nat, windows: seq<int>, hit: nat)
  {
    && hit <= chunks
    && (hit > 0 ==> Servable(found, chunks, ranks, windows, hit))
    && (forall l: nat :: hit < l <= chunks ==> !Servable(found, chunks, ranks, windows, l))
  }

  /** What the hit needs was found, and no longer prefix has that. */
  lemma HitIsLargest(found: set<nat>, chunks: nat, ranks: nat, windows: seq<int>, hit: nat)
    requires IsHit(found, chunks, ranks, windows, hit)
    ensures AllFound(found, hit, ranks, windows)
    ensures forall l: nat :: hit < l <= chunks ==> !AllFound(found, l, ranks, windows)
  {
    if hit > 0 {
      Adjunction(found, chunks, ranks, windows, hit);
    }
    forall l: nat | hit < l <= chunks
      ensures !AllFound(found, l, ranks, windows)
    {
      Adjunction(found, chunks, ranks, windows, l);
    }
  }

  // ------------------------------------------------- ranked and grouped agree

  /** Row i of the de-interleaved presence, one per (group, rank). */
  ghost function PlainRow(found: set<nat>, chunks: nat, stride: nat, i: nat): set<nat>
  {
    set c: nat | c < chunks && Mul(c, stride) + i in found
  }

  /** Every group's window repeated for each rank. */
  function PerRank(windows: seq<int>, ranks: nat): (r: seq<int>)
    requires ranks > 0
    ensures |r| == Stride(ranks, |windows|)
    ensures forall i: nat :: i < |r| ==> i / ranks < |windows| && r[i] == windows[i / ranks]
  {
    GroupDigit(ranks, |windows|);
    seq(Stride(ranks, |windows|), i requires 0 <= i < Stride(ranks, |windows|) => windows[i / ranks])
  }

  lemma GroupDigit(ranks: nat, groups: nat)
    requires ranks > 0
    ensures forall i: nat :: i < Stride(ranks, groups) ==> i / ranks < groups
  {
    forall i: nat | i < Stride(ranks, groups)
      ensures i / ranks < groups
    {
      HighDigit(i, groups, ranks);
    }
  }

  ghost predicate RowsServe(rows: seq<set<nat>>, windows: seq<int>, n: nat, length: nat)
    requires n <= |rows| == |windows|
  {
    forall i: nat :: i < n ==> RowServes(rows[i], windows[i], length)
  }

  lemma RowsServeExactly(rows: seq<set<nat>>, windows: seq<int>, j: nat)
    requires |rows| == |windows|
    ensures RowsServe(rows, windows, |rows|, j + 1) <==>
              forall i: nat, c: nat :: i < |rows| && c <= j && (windows[i] <= 0 || j + 1 - windows[i] <= c) ==> c in rows[i]
  {
    forall i: nat | i < |rows|
      ensures RowServes(rows[i], windows[i], j + 1) <==> forall c: nat :: c < j + 1 && (windows[i] <= 0 || j + 1 - windows[i] <= c) ==> c in rows[i]
    {
      RowServesExactly(rows[i], windows[i], j + 1);
    }
  }

  ghost function PlainRows(found: set<nat>, chunks: nat, stride: nat): (r: seq<set<nat>>)
    ensures |r| == stride
    ensures forall i: nat :: i < stride ==> r[i] == PlainRow(found, chunks, stride, i)
  {
    seq(stride, i requires 0 <= i < stride => PlainRow(found, chunks, stride, i))
  }

  /** The row of one rank of a group. */
  ghost function RankRow(found: set<nat>, chunks: nat, ranks: nat, groups: nat, g: nat, r: nat): set<nat>
  {
    PlainRow(found, chunks, Stride(ranks, groups), Mul(g, ranks) + r)
  }

  /** A group serves a length exactly when each of its ranks does. */
  lemma GroupByRanks(found: set<nat>, chunks: nat, ranks: nat, windows: seq<int>, g: nat, length: nat)
    requires g < |windows| && length <= chunks
    ensures RowServes(GroupRow(found, chunks, ranks, |windows|, g), windows[g], length)
       <==> forall r: nat :: r < ranks ==> RowServes(RankRow(found, chunks, ranks, |windows|, g, r), windows[g], length)
  {
    var groups := |windows|;
    if RowServes(GroupRow(found, chunks, ranks, groups, g), windows[g], length) {
      forall r: nat | r < ranks
        ensures RowServes(RankRow(found, chunks, ranks, groups, g, r), windows[g], length)
      {
        forall c: nat | Low(windows[g], length) <= c < length
          ensures c in RankRow(found, chunks, ranks, groups, g, r)
        {
          assert c in GroupRow(found, chunks, ranks, groups, g);
          assert Cell(ranks, groups, c, g, r) in found;
        }
      }
    }
    if forall r: nat :: r < ranks ==> RowServes(RankRow(found, chunks, ranks, groups, g, r), windows[g], length) {
      forall c: nat, r: nat | Low(windows[g], length) <= c < length && r < ranks
        ensures Cell(ranks, groups, c, g, r) in found
      {
        assert RowServes(RankRow(found, chunks, ranks, groups, g, r), windows[g], length);
        assert c in RankRow(found, chunks, ranks, groups, g, r);
      }
    }
  }

  /** Row i belongs to rank i mod ranks of group i / ranks. */
  lemma RowOfRank(found: set<nat>, chunks: nat, ranks: nat, windows: seq<int>, g: nat, r: nat)
    requires g < |windows| && r < ranks
    ensures var (stride, i) := (Stride(ranks, |windows|), Mul(g, ranks) + r);
            && i < stride
            && PlainRows(found, chunks, stride)[i] == RankRow(found, chunks, ranks, |windows|, g, r)
            && PerRank(windows, ranks)[i] == windows[g]
  {
    Less(g, r, |windows|, ranks);
    Digits(g, r, ranks);
  }

  /** Folding the ranked bitmap equals folding its rows with the windows repeated per rank. */
  lemma FoldsAgree(found: set<nat>, chunks: nat, ranks: nat, windows: seq<int>, length: nat)
    requires ranks > 0 && length <= chunks
    ensures var stride := Stride(ranks, |windows|);
            (Servable(found, chunks, ranks, windows, length) <==>
             RowsServe(PlainRows(found, chunks, stride), PerRank(windows, ranks), stride, length))
  {
    if Servable(found, chunks, ranks, windows, length) {
      RowsFollow(found, chunks, ranks, windows, length);
    }
    if RowsServe(PlainRows(found, chunks, Stride(ranks, |windows|)), PerRank(windows, ranks), Stride(ranks, |windows|), length) {
      forall g: nat | g < |windows|
        ensures RowServes(GroupRow(found, chunks, ranks, |windows|, g), windows[g], length)
      {
        GroupFollows(found, chunks, ranks, windows, g, length);
      }
    }
  }

  lemma RowsFollow(found: set<nat>, chunks: nat, ranks: nat, windows: seq<int>, length: nat)
    requires ranks > 0 && length <= chunks && Servable(found, chunks, ranks, windows, length)
    ensures var stride := Stride(ranks, |windows|);
            RowsServe(PlainRows(found, chunks, stride), PerRank(windows, ranks), stride, length)
  {
    var stride := Stride(ranks, |windows|);
    var (rows, per) := (PlainRows(found, chunks, stride), PerRank(windows, ranks));
    forall i: nat | i < stride
      ensures RowServes(rows[i], per[i], length)
    {
      var (g, r) := (Quot(i, ranks), Rem(i, ranks));
      GroupByRanks(found, chunks, ranks, windows, g, length);
      RowOfRank(found, chunks, ranks, windows, g, r);
      assert RowServes(RankRow(found, chunks, ranks, |windows|, g, r), windows[g], length);
    }
  }

  lemma GroupFollows(found: set<nat>, chunks: nat, ranks: nat, windows: seq<int>, g: nat, length: nat)
    requires ranks > 0 && length <= chunks && g < |windows|
    requires var stride := Stride(ranks, |windows|);
             RowsServe(PlainRows(found, chunks, stride), PerRank(windows, ranks), stride, length)
    ensures RowServes(GroupRow(found, chunks, ranks, |windows|, g), windows[g], length)
  {
    forall r: nat | r < ranks
      ensures RowServes(RankRow(found, chunks, ranks, |windows|, g, r), windows[g], length)
    {
      RowOfRank(found, chunks, ranks, windows, g, r);
    }
    GroupByRanks(found, chunks, ranks, windows, g, length);
  }

  /** Chunk c is retained by a row with this window. */
  ghost predicate RowNeeds(window: int, length: nat, c: nat)
  {
    Low(window, length) <= c < length
  }

  /** The ranked retain mask is the interleaving of the rows' masks. */
  lemma UnfoldsAgree(length: nat, ranks: nat, windows: seq<int>, c: nat, i: nat)
    requires ranks > 0 && i < Stride(ranks, |windows|)
    ensures Needed(length, ranks, windows, Mul(c, Stride(ranks, |windows|)) + i) <==> RowNeeds(PerRank(windows, ranks)[i], length, c)
  {
    var (groups, stride) := (|windows|, Stride(ranks, |windows|));
    var x := Mul(c, stride) + i;
    if RowNeeds(PerRank(windows, ranks)[i], length, c) {
      Split(i, ranks);
      assert IsCell(ranks, groups, x, c, i / ranks, i % ranks);
    }
    if Needed(length, ranks, windows, x) {
      var c1: nat, g: nat, r: nat :| IsCell(ranks, groups, x, c1, g, r) && Low(windows[g], length) <= c1 < length;
      Less(g, r, groups, ranks);
      Unique(c, i, c1, g * ranks + r, stride);
      Digits(g, r, ranks);
    }
  }
}
