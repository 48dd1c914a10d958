/**
 Memory after a set of byte moves, in whatever order they were made.
 */
module ByteMoves {

  datatype Move = Move(dst: int, src: int)

  type Moves = iset<Move>

  ghost predicate Hit(p: Moves, a: int)
  {
    exists m :: m in p && m.dst == a
  }

  ghost predicate From(p: Moves, a: int, v: bv8, before: seq<bv8>)
  {
    exists m :: m in p && m.dst == a && 0 <= m.src < |before| && before[m.src] == v
  }

  /** Every byte that is a destination holds the old value of one of its sources; every other byte is as before. */
  ghost predicate Copied(before: seq<bv8>, after: seq<bv8>, p: Moves)
  {
    && |after| == |before|
    && forall a :: 0 <= a < |before| ==> if Hit(p, a) then From(p, a, after[a], before) else after[a] == before[a]
  }

  /** Moves write inside the zone and read outside it. */
  ghost predicate Into(p: Moves, zone: iset<int>)
  {
    forall m :: m in p ==> m.dst in zone && m.src !in zone
  }

  lemma CopiedNone(before: seq<bv8>)
    ensures Copied(before, before, iset{})
  {
  }

  lemma CopiedThen(before: seq<bv8>, mid: seq<bv8>, after: seq<bv8>, p: Moves, q: Moves, zone: iset<int>)
    requires Copied(before, mid, p) && Copied(mid, after, q) && Into(p, zone) && Into(q, zone)
    ensures Copied(before, after, p + q)
  {
    forall a | 0 <= a < |before|
      ensures if Hit(p + q, a) then From(p + q, a, after[a], before) else after[a] == before[a]
    {
      if Hit(q, a) {
        var m :| m in q && m.dst == a && 0 <= m.src < |mid| && mid[m.src] == after[a];
        assert m in p + q;
        assert !Hit(p, m.src);
      } else if Hit(p, a) {
        var m :| m in p && m.dst == a && 0 <= m.src < |before| && before[m.src] == mid[a];
        assert m in p + q;
      }
    }
  }

  /** When no two moves share a destination, every move's value arrives. */
  lemma CopiedExactly(before: seq<bv8>, after: seq<bv8>, p: Moves, m: Move)
    requires Copied(before, after, p) && m in p && 0 <= m.dst < |before|
    requires forall n :: n in p && n.dst == m.dst ==> n == m
    ensures 0 <= m.src < |before| && after[m.dst] == before[m.src]
  {
    assert Hit(p, m.dst);
  }

  /** The same moves the other way. */
  ghost function Back(p: Moves): Moves
  {
    iset m: Move | Move(m.src, m.dst) in p
  }

  ghost predicate DistinctTargets(p: Moves)
  {
    forall m, n :: m in p && n in p && m.dst == n.dst ==> m == n
  }

  /** Moving out and back again restores the memory read, if no two moves share the place they went to. */
  lemma RoundTrip(before: seq<bv8>, mid: seq<bv8>, after: seq<bv8>, p: Moves, zone: iset<int>, a: nat)
    requires Copied(before, mid, p) && Copied(mid, after, Back(p)) && Into(p, zone) && DistinctTargets(p)
    requires forall m :: m in p ==> 0 <= m.dst < |before|
    requires a < |before| && a !in zone
    ensures after[a] == before[a]
  {
    assert !Hit(p, a);
    if Hit(Back(p), a) {
      var m :| m in Back(p) && m.dst == a && 0 <= m.src < |mid| && mid[m.src] == after[a];
      assert Move(m.src, m.dst) in p;
      CopiedExactly(before, mid, p, Move(m.src, m.dst));
    }
  }
}
