/**
 The byte-packed bitmap and the finite set of indices it stands for.
 */
module Bitmaps {
  import opened PackedBits
  import opened Radix

  function Bytes(size: nat): nat
  {
    if size == 0 then 0 else (size - 1) / 8 + 1
  }

  lemma ByteCount(size: nat)
    ensures size <= 8 * Bytes(size) < size + 8
    ensures forall i: nat :: i < size ==> i / 8 < Bytes(size)
  {
  }

  lemma ShorterBytes(m: nat, n: nat)
    ensures Bytes(Min(m, n)) == Min(Bytes(m), Bytes(n))
  {
  }

  /** The stored bit, whether or not it lies below the size. */
  predicate Raw(d: seq<Byte>, i: nat)
  {
    i < 8 * |d| && d[i / 8][i % 8]
  }

  lemma RawIs(d: seq<Byte>, k: nat, j: nat)
    requires k < |d| && j < 8
    ensures Raw(d, 8 * k + j) == d[k][j]
  {
    assert (8 * k + j) / 8 == k && (8 * k + j) % 8 == j;
  }

  /** The set of indices a bitmap of the given size holds. */
  ghost function Ones(d: seq<Byte>, size: nat): set<nat>
  {
    set i: nat | i < size && Raw(d, i)
  }

  /** No bit is stored beyond the size. */
  ghost predicate Clean(d: seq<Byte>, size: nat)
  {
    forall i: nat :: size <= i ==> !Raw(d, i)
  }

  // --------------------------------------------------------------- counting

  /** Set bits below n, one index at a time. */
  ghost function Count(d: seq<Byte>, n: nat): nat
  {
    if n == 0 then 0 else Count(d, n - 1) + One(Raw(d, n - 1))
  }

  lemma OnesStep(d: seq<Byte>, n: nat)
    requires n > 0
    ensures Ones(d, n) == Ones(d, n - 1) + (if Raw(d, n - 1) then {n - 1} else {})
    ensures n - 1 !in Ones(d, n - 1)
  {
  }

  lemma {:induction false} CountIsSize(d: seq<Byte>, n: nat)
    ensures Count(d, n) == |Ones(d, n)|
  {
    if n == 0 {
      assert Ones(d, n) == {};
    } else {
      CountIsSize(d, n - 1);
      OnesStep(d, n);
    }
  }

  lemma {:induction false} CountPart(d: seq<Byte>, k: nat, m: nat)
    requires k < |d| && m <= 8
    ensures Count(d, 8 * k + m) == Count(d, 8 * k) + PopUpTo(d[k], m)
  {
    if m > 0 {
      CountPart(d, k, m - 1);
      RawIs(d, k, m - 1);
    }
  }

  /** The masked byte counts exactly the bits below the mask's width. */
  lemma {:induction false} PopMasked(b: Byte, r: nat, m: nat)
    requires r <= 8 && m <= 8
    ensures PopUpTo(ByteAnd(b, LowMask(r)), m) == PopUpTo(b, Min(m, r))
  {
    if m > 0 {
      PopMasked(b, r, m - 1);
    }
  }

  lemma TailCount(d: seq<Byte>, k: nat, r: nat)
    requires k < |d| && r < 8
    ensures Count(d, 8 * k + r) == Count(d, 8 * k) + Popcount(ByteAnd(d[k], LowMask(r)))
  {
    CountPart(d, k, r);
    PopMasked(d[k], r, 8);
  }

  // ------------------------------------------------------------------ ranges

  /** Exactly the bits of the range added. */
  ghost predicate Ranged(d: seq<Byte>, e: seq<Byte>, start: nat, stop: nat)
  {
    forall i: nat :: Raw(e, i) <==> Raw(d, i) || start <= i < stop
  }

  lemma RangedSets(d: seq<Byte>, e: seq<Byte>, start: nat, stop: nat, size: nat)
    requires Ranged(d, e, start, stop) && stop <= size
    ensures Clean(d, size) ==> Clean(e, size)
    ensures forall i: nat :: i in Ones(e, size) <==> i in Ones(d, size) || start <= i < stop
  {
  }

  lemma RangedInByte(d: seq<Byte>, e: seq<Byte>, start: nat, stop: nat)
    requires start < stop && start / 8 == (stop - 1) / 8 < |d|
    requires e == d[start / 8 := ByteOr(d[start / 8], Shl(LowMask(stop - start), start % 8))]
    ensures Ranged(d, e, start, stop)
  {
  }

  /** First, middle and last byte of a range changed, the others kept. */
  ghost predicate RangeBytes(d: seq<Byte>, e: seq<Byte>, start: nat, stop: nat)
  {
    && start < stop && start / 8 < (stop - 1) / 8 < |d| == |e|
    && var (first, last) := (start / 8, (stop - 1) / 8);
       && e[first] == ByteOr(d[first], Shl(FULL, start % 8))
       && e[last] == ByteOr(d[last], LowMask(stop - 8 * last))
       && (forall j: nat :: first < j < last ==> e[j] == FULL)
       && (forall j: nat :: j < |d| && !(first <= j <= last) ==> e[j] == d[j])
  }

  lemma RangedByBytes(d: seq<Byte>, e: seq<Byte>, start: nat, stop: nat)
    requires RangeBytes(d, e, start, stop)
    ensures Ranged(d, e, start, stop)
  {
    forall i: nat
      ensures Raw(e, i) <==> Raw(d, i) || start <= i < stop
    {
      var (k, first, last) := (i / 8, start / 8, (stop - 1) / 8);
      if first < k < last {
        assert e[k] == FULL;
      }
    }
  }

  // --------------------------------------------------------------- extremes

  ghost predicate NoneBefore(d: seq<Byte>, n: nat)
  {
    forall i: nat :: i < n ==> !Raw(d, i)
  }

  /** The lowest set bit below the size, or the size. */
  ghost predicate IsFirst(d: seq<Byte>, size: nat, n: nat)
  {
    n <= size && NoneBefore(d, n) && (n < size ==> Raw(d, n))
  }

  lemma NoneInZero(d: seq<Byte>, k: nat)
    requires k < |d| && d[k] == ZERO && NoneBefore(d, 8 * k)
    ensures NoneBefore(d, 8 * k + 8)
  {
  }

  lemma FirstInByte(d: seq<Byte>, size: nat, k: nat)
    requires k < |d| && d[k] != ZERO && NoneBefore(d, 8 * k) && 8 * k + 8 <= size
    ensures IsFirst(d, size, 8 * k + Ctz(d[k]))
  {
    RawIs(d, k, Ctz(d[k]));
  }

  /** The first bit of the last byte cut at the size. */
  lemma FirstMasked(d: seq<Byte>, k: nat, r: nat, last: Byte)
    requires k < |d| && 0 < r < 8 && NoneBefore(d, 8 * k) && last == ByteAnd(d[k], LowMask(r))
    ensures IsFirst(d, 8 * k + r, 8 * k + if last == ZERO then r else Ctz(last))
  {
    var m := if last == ZERO then r else Ctz(last);
    forall i: nat | i < 8 * k + m
      ensures !Raw(d, i)
    {
      if 8 * k <= i {
        assert !last[i - 8 * k];
      }
    }
    if last != ZERO {
      assert last[m];
      RawIs(d, k, m);
    }
  }

  lemma FirstElement(d: seq<Byte>, size: nat, n: nat)
    requires IsFirst(d, size, n)
    ensures n < size ==> n in Ones(d, size)
    ensures forall i :: i in Ones(d, size) ==> n <= i
  {
  }

  ghost predicate NoneFrom(d: seq<Byte>, n: nat)
  {
    forall i: nat :: n <= i ==> !Raw(d, i)
  }

  lemma LastInByte(d: seq<Byte>, k: nat)
    requires k < |d| && d[k] != ZERO && NoneFrom(d, 8 * k + 8)
    ensures Raw(d, 8 * k + HighBit(d[k])) && NoneFrom(d, 8 * k + HighBit(d[k]) + 1)
  {
    RawIs(d, k, HighBit(d[k]));
    forall i: nat | 8 * k + HighBit(d[k]) < i
      ensures !Raw(d, i)
    {
      if i < 8 * k + 8 {
        assert !d[k][i - 8 * k];
      }
    }
  }

  // --------------------------------------------------------------- set algebra

  lemma AndSets(d: seq<Byte>, m: nat, e: seq<Byte>, n: nat, r: seq<Byte>)
    requires |d| == Bytes(m) && |e| == Bytes(n) && |r| == Min(|d|, |e|) && forall j: nat :: j < |r| ==> r[j] == ByteAnd(d[j], e[j])
    ensures Ones(r, Min(m, n)) == Ones(d, m) * Ones(e, n)
    ensures Clean(d, m) && Clean(e, n) ==> Clean(r, Min(m, n))
  {
    assert forall i: nat :: Raw(r, i) <==> Raw(d, i) && Raw(e, i);
  }

  function OrBytes(d: seq<Byte>, e: seq<Byte>): (r: seq<Byte>)
    ensures |r| == Min(|d|, |e|)
    ensures forall j: nat :: j < |r| ==> r[j] == ByteOr(d[j], e[j])
  {
    seq(Min(|d|, |e|), j requires 0 <= j < Min(|d|, |e|) => ByteOr(d[j], e[j]))
  }

  lemma OrRaw(d: seq<Byte>, e: seq<Byte>, i: nat)
    ensures Raw(OrBytes(d, e), i) <==> i < 8 * Min(|d|, |e|) && (Raw(d, i) || Raw(e, i))
  {
  }

  lemma OrSets(d: seq<Byte>, m: nat, e: seq<Byte>, n: nat)
    requires |d| == Bytes(m) && |e| == Bytes(n)
    ensures var size := Min(m, n);
            forall i: nat :: i in Ones(OrBytes(d, e), size) <==> i < size && (i in Ones(d, m) || i in Ones(e, n))
  {
    ShorterBytes(m, n);
    ByteCount(Min(m, n));
    forall i: nat
      ensures Raw(OrBytes(d, e), i) <==> i < 8 * Min(|d|, |e|) && (Raw(d, i) || Raw(e, i))
    {
      OrRaw(d, e, i);
    }
  }

  /** Complemented bytes, the last one cut at the size. */
  lemma NotSets(d: seq<Byte>, e: seq<Byte>, size: nat)
    requires |d| == |e| == Bytes(size)
    requires forall j: nat :: j < |d| ==> e[j] == if j == |d| - 1 && size % 8 > 0 then ByteAnd(ByteNot(d[j]), LowMask(size % 8)) else ByteNot(d[j])
    ensures Clean(e, size)
    ensures forall i: nat :: i in Ones(e, size) <==> i < size && i !in Ones(d, size)
  {
    ByteCount(size);
    forall i: nat
      ensures Raw(e, i) <==> i < size && !Raw(d, i)
    {
      if i < 8 * |d| {
        NotRaw(d, e, size, i);
      }
    }
  }

  lemma NotRaw(d: seq<Byte>, e: seq<Byte>, size: nat, i: nat)
    requires |d| == |e| && size <= 8 * |d| < size + 8 && i < 8 * |d|
    requires e[i / 8] == if i / 8 == |d| - 1 && size % 8 > 0 then ByteAnd(ByteNot(d[i / 8]), LowMask(size % 8)) else ByteNot(d[i / 8])
    ensures Raw(e, i) <==> i < size && !Raw(d, i)
  {
  }

  // ----------------------------------------------------------------- listing

  /** The elements below n, in ascending order. */
  ghost function Listing(d: seq<Byte>, size: nat, n: nat): seq<nat>
  {
    if n == 0 then [] else Append(Listing(d, size, n - 1), size, n - 1, Raw(d, n - 1))
  }

  ghost function Append(s: seq<nat>, size: nat, i: nat, present: bool): seq<nat>
  {
    if present && i < size then s + [i] else s
  }

  lemma {:induction false} ListingSkip(d: seq<Byte>, size: nat, n: nat, m: nat)
    requires n <= m && forall i: nat :: n <= i < m ==> !Raw(d, i)
    ensures Listing(d, size, m) == Listing(d, size, n)
  {
    if n < m {
      ListingSkip(d, size, n, m - 1);
    }
  }

  ghost predicate Ascending(s: seq<nat>)
  {
    forall i: nat, j: nat :: i < j < |s| ==> s[i] < s[j]
  }

  ghost predicate Below(s: seq<nat>, n: nat)
  {
    forall i: nat :: i < |s| ==> s[i] < n
  }

  lemma {:induction false} ListingAscends(d: seq<Byte>, size: nat, n: nat)
    ensures Ascending(Listing(d, size, n)) && Below(Listing(d, size, n), n)
  {
    if n > 0 {
      ListingAscends(d, size, n - 1);
      var s := Listing(d, size, n - 1);
      assert Below(s, n);
      assert Below(s + [n - 1], n) && Ascending(s + [n - 1]);
    }
  }

  lemma {:induction false} ListingHas(d: seq<Byte>, size: nat, n: nat, i: nat)
    ensures i in Listing(d, size, n) <==> i < n && i < size && Raw(d, i)
  {
    if n > 0 {
      ListingHas(d, size, n - 1, i);
    }
  }

  /** The bits of a byte from position low on. */
  ghost predicate From(b: Byte, whole: Byte, low: nat)
  {
    forall j :: 0 <= j < 8 ==> b[j] == (whole[j] && low <= j)
  }

  lemma FromNext(b: Byte, whole: Byte, low: nat)
    requires b != ZERO && From(b, whole, low)
    ensures low <= Ctz(b) && From(ByteAnd(b, Dec(b)), whole, Ctz(b) + 1)
  {
    forall j | 0 <= j < 8
      ensures ByteAnd(b, Dec(b))[j] == (whole[j] && Ctz(b) + 1 <= j)
    {
      ClearLowest(b, j);
    }
  }

  lemma NoneBetween(d: seq<Byte>, k: nat, b: Byte, low: nat, high: nat)
    requires k < |d| && From(b, d[k], low) && low <= high <= 8 && forall j :: low <= j < high ==> !b[j]
    ensures forall i: nat :: 8 * k + low <= i < 8 * k + high ==> !Raw(d, i)
  {
    forall i: nat | 8 * k + low <= i < 8 * k + high
      ensures !Raw(d, i)
    {
      RawIs(d, k, i - 8 * k);
    }
  }

  /** The lowest remaining bit of a byte is the next element. */
  lemma ListingBit(d: seq<Byte>, size: nat, k: nat, b: Byte, low: nat, bit: nat)
    requires k < |d| && low <= bit < 8 && From(b, d[k], low) && b[bit] && forall j :: 0 <= j < bit ==> !b[j]
    ensures Listing(d, size, 8 * k + bit + 1) == Append(Listing(d, size, 8 * k + low), size, 8 * k + bit, true)
  {
    NoneBetween(d, k, b, low, bit);
    ListingSkip(d, size, 8 * k + low, 8 * k + bit);
    RawIs(d, k, bit);
  }

  lemma ListingByte(d: seq<Byte>, size: nat, k: nat, low: nat)
    requires k < |d| && low <= 8 && From(ZERO, d[k], low)
    ensures Listing(d, size, 8 * (k + 1)) == Listing(d, size, 8 * k + low)
  {
    NoneBetween(d, k, ZERO, low, 8);
    ListingSkip(d, size, 8 * k + low, 8 * k + 8);
  }

  // ---------------------------------------------------------------- the class

  class Bitmap {
    const size: nat
    const data: array<Byte>

    ghost predicate Valid()
      reads this
    {
      data.Length == Bytes(size)
    }

    ghost predicate Padded()
      reads this, data
    {
      Clean(data[..], size)
    }

    ghost function Elements(): set<nat>
      reads this, data
    {
      Ones(data[..], size)
    }

    constructor (size: nat)
      ensures Valid() && Padded() && this.size == size && fresh(data) && Elements() == {}
    {
      this.size := size;
      this.data := new Byte[Bytes(size)](_ => ZERO);
      new;
      assert forall i: nat :: !Raw(data[..], i);
    }

    /** The first bits set. */
    constructor Prefix(size: nat, prefix: nat)
      ensures Valid() && Padded() && this.size == size && fresh(data)
      ensures forall i: nat :: i in Elements() <==> i < size && i < prefix
    {
      this.size := size;
      this.data := new Byte[Bytes(size)](_ => ZERO);
      new;
      var bits := if prefix > size then size else prefix;
      var full := bits / 8;
      ByteCount(size);
      var k := 0;
      while k < full
        invariant k <= full
        invariant forall j :: 0 <= j < data.Length ==> data[j] == if j < k then FULL else ZERO
      {
        data[k] := FULL;
        k := k + 1;
      }
      if bits % 8 > 0 {
        data[full] := LowMask(bits % 8);
      }
      assert forall i: nat :: Raw(data[..], i) <==> i < bits;
    }

    method Set(index: nat)
      requires Valid()
      modifies data
      ensures old(Padded()) ==> Padded()
      ensures Elements() == old(Elements()) + (if index < size then {index} else {})
    {
      if index >= size {
        return;
      }
      ByteCount(size);
      ghost var before := data[..];
      data[index / 8] := ByteOr(data[index / 8], Mask(index % 8));
      assert data[..] == before[index / 8 := ByteOr(before[index / 8], Mask(index % 8))];
      assert forall i: nat :: Raw(data[..], i) <==> Raw(before, i) || i == index;
    }

    method Clear(index: nat)
      requires Valid()
      modifies data
      ensures old(Padded()) ==> Padded()
      ensures Elements() == old(Elements()) - {index}
    {
      if index >= size {
        return;
      }
      ByteCount(size);
      ghost var before := data[..];
      data[index / 8] := ByteAnd(data[index / 8], ByteNot(Mask(index % 8)));
      assert data[..] == before[index / 8 := ByteAnd(before[index / 8], ByteNot(Mask(index % 8)))];
      assert forall i: nat :: Raw(data[..], i) <==> Raw(before, i) && i != index;
    }

    method Test(index: nat) returns (r: bool)
      requires Valid()
      ensures r <==> index in Elements()
    {
      if index >= size {
        return false;
      }
      ByteCount(size);
      r := data[index / 8][index % 8];
    }

    /** Whole bytes at a time; the same as setting every bit of the range below the size. */
    method SetRange(start: nat, end: nat)
      requires Valid()
      modifies data
      ensures old(Padded()) ==> Padded()
      ensures forall i: nat :: i in Elements() <==> i in old(Elements()) || (start <= i < end && i < size)
    {
      var stop := if end > size then size else end;
      ghost var before := data[..];
      if start >= stop {
        return;
      }
      ByteCount(size);
      var first, last, low := start / 8, (stop - 1) / 8, start % 8;
      if first == last {
        data[first] := ByteOr(data[first], Shl(LowMask(stop - start), low));
        RangedInByte(before, data[..], start, stop);
      } else {
        FillBytes(first, last, Shl(FULL, low), LowMask(stop - 8 * last));
        RangedByBytes(before, data[..], start, stop);
      }
      RangedSets(before, data[..], start, stop, size);
    }

    /** Head byte, whole bytes, tail byte. */
    method FillBytes(first: nat, last: nat, head: Byte, tail: Byte)
      requires first < last < data.Length
      modifies data
      ensures data[first] == ByteOr(old(data[first]), head) && data[last] == ByteOr(old(data[last]), tail)
      ensures forall j: nat :: first < j < last ==> data[j] == FULL
      ensures forall j: nat :: j < data.Length && !(first <= j <= last) ==> data[j] == old(data[j])
    {
      data[first] := ByteOr(data[first], head);
      var k := first + 1;
      while k < last
        invariant first < k <= last
        invariant data[first] == ByteOr(old(data[first]), head)
        invariant forall j: nat :: first < j < k ==> data[j] == FULL
        invariant forall j: nat :: j < data.Length && !(first <= j < k) ==> data[j] == old(data[j])
      {
        data[k] := FULL;
        k := k + 1;
      }
      data[last] := ByteOr(data[last], tail);
    }

    method Popcount() returns (count: nat)
      requires Valid()
      ensures count == |Elements()|
    {
      count := 0;
      var full := size / 8;
      var k := 0;
      while k < full
        invariant k <= full && count == Count(data[..], 8 * k)
      {
        CountPart(data[..], k, 8);
        count := count + PackedBits.Popcount(data[k]);
        k := k + 1;
      }
      CountIsSize(data[..], size);
      if size % 8 > 0 {
        var last := data[data.Length - 1];
        assert last == data[..][full] && 8 * full + size % 8 == size;
        TailCount(data[..], full, size % 8);
        count := count + PackedBits.Popcount(ByteAnd(last, LowMask(size % 8)));
      }
    }

    /** The first bit set in a whole byte below the size, or the end of those bytes. */
    method FullZeros() returns (found: bool, count: nat)
      requires Valid()
      ensures if found then IsFirst(data[..], size, count) else count == 8 * (size / 8) && NoneBefore(data[..], count)
    {
      found, count := false, 0;
      var full := size / 8;
      var k := 0;
      while k < full
        invariant k <= full && count == 8 * k && NoneBefore(data[..], 8 * k)
      {
        if data[k] == ZERO {
          NoneInZero(data[..], k);
          count := count + 8;
        } else {
          FirstInByte(data[..], size, k);
          return true, count + Ctz(data[k]);
        }
        k := k + 1;
      }
    }

    /** Leading zeros: the lowest element, or the size when there is none. */
    method Clz() returns (count: nat)
      requires Valid()
      ensures count <= size && (count < size ==> count in Elements())
      ensures forall i :: i in Elements() ==> count <= i
    {
      var found;
      found, count := FullZeros();
      if !found && size % 8 > 0 {
        var last := ByteAnd(data[data.Length - 1], LowMask(size % 8));
        FirstMasked(data[..], size / 8, size % 8, last);
        count := count + if last == ZERO then size % 8 else Ctz(last);
      }
      FirstElement(data[..], size, count);
    }

    /** Leading ones: the lowest index that is not an element, or the size. */
    method Clo() returns (count: nat)
      requires Valid()
      ensures count <= size && (count < size ==> count !in Elements())
      ensures forall i: nat :: i < count ==> i in Elements()
    {
      var inverted := Not();
      count := inverted.Clz();
      forall i: nat | i < count
        ensures i in Elements()
      {
        assert i !in inverted.Elements();
      }
    }

    /** The highest stored bit; with no bit beyond the size, the maximum of the set. */
    method HighestSetBit() returns (r: int)
      requires Valid()
      ensures r >= -1 && (r >= 0 ==> Raw(data[..], r)) && NoneFrom(data[..], r + 1)
      ensures Padded() ==> (r >= 0 ==> r in Elements()) && forall i :: i in Elements() ==> i <= r
    {
      var k: nat := data.Length;
      while k > 0
        invariant k <= data.Length && NoneFrom(data[..], 8 * k)
      {
        k := k - 1;
        if data[k] != ZERO {
          LastInByte(data[..], k);
          return 8 * k + HighBit(data[k]);
        }
      }
      return -1;
    }

    method And(other: Bitmap) returns (r: Bitmap)
      requires Valid() && other.Valid()
      ensures fresh(r) && fresh(r.data) && r.Valid() && r.size == Min(size, other.size)
      ensures r.Elements() == Elements() * other.Elements()
      ensures Padded() && other.Padded() ==> r.Padded()
    {
      ShorterBytes(size, other.size);
      r := new Bitmap(Min(size, other.size));
      var k := 0;
      while k < r.data.Length
        invariant k <= r.data.Length
        invariant forall j: nat :: j < k ==> r.data[j] == ByteAnd(data[j], other.data[j])
      {
        r.data[k] := ByteAnd(data[k], other.data[k]);
        k := k + 1;
      }
      AndSets(data[..], size, other.data[..], other.size, r.data[..]);
    }

    /** Truncated to the smaller size; bits of the larger one may survive beyond it. */
    method Or(other: Bitmap) returns (r: Bitmap)
      requires Valid() && other.Valid()
      ensures fresh(r) && fresh(r.data) && r.Valid() && r.size == Min(size, other.size)
      ensures r.data[..] == OrBytes(data[..], other.data[..])
      ensures forall i: nat :: i in r.Elements() <==> i < r.size && (i in Elements() || i in other.Elements())
    {
      ShorterBytes(size, other.size);
      r := new Bitmap(Min(size, other.size));
      var k := 0;
      while k < r.data.Length
        invariant k <= r.data.Length
        invariant forall j: nat :: j < k ==> r.data[j] == ByteOr(data[j], other.data[j])
      {
        r.data[k] := ByteOr(data[k], other.data[k]);
        k := k + 1;
      }
      assert r.data[..] == OrBytes(data[..], other.data[..]);
      OrSets(data[..], size, other.data[..], other.size);
    }

    method Not() returns (r: Bitmap)
      requires Valid()
      ensures fresh(r) && fresh(r.data) && r.Valid() && r.Padded() && r.size == size
      ensures forall i: nat :: i in r.Elements() <==> i < size && i !in Elements()
    {
      r := new Bitmap(size);
      var k := 0;
      while k < data.Length
        invariant k <= data.Length
        invariant forall j: nat :: j < k ==> r.data[j] == ByteNot(data[j])
      {
        r.data[k] := ByteNot(data[k]);
        k := k + 1;
      }
      if size % 8 > 0 {
        r.data[data.Length - 1] := ByteAnd(r.data[data.Length - 1], LowMask(size % 8));
      }
      NotSets(data[..], r.data[..], size);
    }

    /** The set bits of byte k below the size, lowest first. */
    method ListByte(k: nat, before: seq<nat>) returns (indices: seq<nat>)
      requires Valid() && k < data.Length && before == Listing(data[..], size, 8 * k)
      ensures indices == Listing(data[..], size, 8 * (k + 1))
    {
      indices := before;
      var b := data[k];
      ghost var low: nat := 0;
      while b != ZERO
        invariant low <= 8 && From(b, data[k], low) && indices == Listing(data[..], size, 8 * k + low)
        decreases 8 - low
      {
        var bit := Ctz(b);
        FromNext(b, data[k], low);
        ListingBit(data[..], size, k, b, low, bit);
        if 8 * k + bit < size {
          indices := indices + [8 * k + bit];
        }
        b := ByteAnd(b, Dec(b));
        low := bit + 1;
      }
      ListingByte(data[..], size, k, low);
    }

    /** All elements in ascending order. */
    method GetIndices() returns (indices: seq<nat>)
      requires Valid()
      ensures forall i: nat, j: nat :: i < j < |indices| ==> indices[i] < indices[j]
      ensures forall i :: i in indices <==> i in Elements()
    {
      indices := [];
      for k := 0 to data.Length
        invariant indices == Listing(data[..], size, 8 * k)
      {
        indices := ListByte(k, indices);
      }
      ByteCount(size);
      ListingAscends(data[..], size, 8 * data.Length);
      forall i: nat
        ensures i in indices <==> i in Elements()
      {
        ListingHas(data[..], size, 8 * data.Length, i);
      }
    }
  }

  // ------------------------------------------------------- union and padding

  ghost predicate IsBitmap(d: seq<Byte>, size: nat)
  {
    |d| == Bytes(size) && Clean(d, size)
  }

  /** Two padded bitmaps of these sizes always have a padded union. */
  ghost predicate OrKeepsPadding(m: nat, n: nat)
  {
    forall d: seq<Byte>, e: seq<Byte> :: IsBitmap(d, m) && IsBitmap(e, n) ==> Clean(OrBytes(d, e), Min(m, n))
  }

  lemma OrPadded(m: nat, n: nat, d: seq<Byte>, e: seq<Byte>)
    requires IsBitmap(d, m) && IsBitmap(e, n) && (m == n || Min(m, n) % 8 == 0)
    ensures Clean(OrBytes(d, e), Min(m, n))
  {
    ShorterBytes(m, n);
    ByteCount(Min(m, n));
    forall i: nat | Min(m, n) <= i
      ensures !Raw(OrBytes(d, e), i)
    {
      OrRaw(d, e, i);
    }
  }

  /** One bit set. */
  function Single(size: nat, index: nat): (d: seq<Byte>)
    requires index < size
    ensures |d| == Bytes(size)
  {
    ByteCount(size);
    seq(Bytes(size), _ => ZERO)[index / 8 := Mask(index % 8)]
  }

  lemma SingleBit(size: nat, index: nat, i: nat)
    requires index < size
    ensures Raw(Single(size, index), i) <==> i == index
  {
    ByteCount(size);
  }

  /** A longer bitmap with the bit just past the shorter one leaks it when the last byte is shared. */
  lemma OrLeaks(m: nat, n: nat)
    requires m < n && m % 8 != 0
    ensures !OrKeepsPadding(m, n) && !OrKeepsPadding(n, m)
  {
    var zero: seq<Byte> := seq(Bytes(m), _ => ZERO);
    var one := Single(n, m);
    forall i: nat
      ensures !Raw(zero, i) && (Raw(one, i) <==> i == m)
    {
      SingleBit(n, m, i);
    }
    assert IsBitmap(zero, m) && IsBitmap(one, n);
    ShorterBytes(m, n);
    OrRaw(zero, one, m);
    OrRaw(one, zero, m);
    assert !Clean(OrBytes(zero, one), m);
    assert !Clean(OrBytes(one, zero), m);
  }

  /** Union keeps the bits beyond its size clear, whatever the contents, exactly for these sizes. */
  lemma OrKeepsPaddingIff(m: nat, n: nat)
    ensures OrKeepsPadding(m, n) <==> m == n || Min(m, n) % 8 == 0
  {
    if m == n || Min(m, n) % 8 == 0 {
      forall d: seq<Byte>, e: seq<Byte> | IsBitmap(d, m) && IsBitmap(e, n)
        ensures Clean(OrBytes(d, e), Min(m, n))
      {
        OrPadded(m, n, d, e);
      }
    } else if m < n {
      OrLeaks(m, n);
    } else {
      OrLeaks(n, m);
    }
  }
}
