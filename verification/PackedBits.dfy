/**
 Bytes as their eight bits, lowest first, with the byte operations the bitmap
 uses.
 */
module PackedBits {
  import Bits

  type Byte = b: seq<bool> | |b| == 8 witness [false, false, false, false, false, false, false, false]

  const ZERO: Byte := [false, false, false, false, false, false, false, false]
  const FULL: Byte := [true, true, true, true, true, true, true, true]

  function ByteOr(a: Byte, b: Byte): (r: Byte)
    ensures forall k :: 0 <= k < 8 ==> r[k] == (a[k] || b[k])
  {
    seq(8, k requires 0 <= k < 8 => a[k] || b[k])
  }

  function ByteAnd(a: Byte, b: Byte): (r: Byte)
    ensures forall k :: 0 <= k < 8 ==> r[k] == (a[k] && b[k])
  {
    seq(8, k requires 0 <= k < 8 => a[k] && b[k])
  }

  function ByteNot(a: Byte): (r: Byte)
    ensures forall k :: 0 <= k < 8 ==> r[k] == !a[k]
  {
    seq(8, k requires 0 <= k < 8 => !a[k])
  }

  /** Shift towards the high bits; what leaves the byte is lost. */
  function Shl(a: Byte, h: nat): (r: Byte)
    ensures forall k :: 0 <= k < 8 ==> r[k] == (h <= k && a[k - h])
  {
    seq(8, k requires 0 <= k < 8 => h <= k && a[k - h])
  }

  /** The value of little-endian bits. */
  function Value(b: seq<bool>): nat
  {
    if b == [] then 0 else One(b[0]) + 2 * Value(b[1..])
  }

  function One(b: bool): nat { if b then 1 else 0 }

  /** Subtract one: borrow through the low zeros. */
  function Dec(b: seq<bool>): (r: seq<bool>)
    ensures |r| == |b|
  {
    if b == [] then [] else if b[0] then [false] + b[1..] else [true] + Dec(b[1..])
  }

  /** Dec is b - 1 modulo 2^width. */
  lemma {:induction false} DecValue(b: seq<bool>)
    ensures Value(Dec(b)) == if Value(b) == 0 then Bits.Pow2(|b|) - 1 else Value(b) - 1
  {
    if b != [] {
      DecValue(b[1..]);
      var r := Dec(b);
      assert r[1..] == if b[0] then b[1..] else Dec(b[1..]);
    }
  }

  /** The low false bits become true, the first true one false, the rest stays. */
  lemma {:induction false} DecBit(b: seq<bool>, k: nat)
    requires k < |b|
    ensures Dec(b)[k] == if forall j: nat :: j < k ==> !b[j] then !b[k] else b[k]
  {
    if b[0] {
      assert k > 0 ==> !(forall j: nat :: j < k ==> !b[j]);
    } else if k > 0 {
      DecBit(b[1..], k - 1);
      assert (forall j: nat :: j < k ==> !b[j]) <==> forall j: nat :: j < k - 1 ==> !b[1..][j] by {
        assert forall j: nat :: 0 < j < k ==> b[j] == b[1..][j - 1];
      }
    }
  }

  /** 1 << j, zero when j is 8. */
  function Mask(j: nat): (r: Byte)
    ensures forall k :: 0 <= k < 8 ==> r[k] == (k == j)
  {
    Shl([true, false, false, false, false, false, false, false], j)
  }

  /** (1 << r) - 1. */
  function LowMask(r: nat): (m: Byte)
    requires r <= 8
    ensures forall k :: 0 <= k < 8 ==> m[k] == (k < r)
  {
    LowMaskBits(r);
    Dec(Mask(r))
  }

  lemma LowMaskBits(r: nat)
    requires r <= 8
    ensures forall k :: 0 <= k < 8 ==> Dec(Mask(r))[k] == (k < r)
  {
    forall k | 0 <= k < 8
      ensures Dec(Mask(r))[k] == (k < r)
    {
      DecBit(Mask(r), k);
      if r < k {
        assert Mask(r)[r];
      }
    }
  }

  /** First set bit from position j on, or 8. */
  function LowestFrom(b: Byte, j: nat): (r: nat)
    requires j <= 8
    ensures j <= r <= 8 && (r < 8 ==> b[r]) && forall k :: j <= k < r ==> !b[k]
    decreases 8 - j
  {
    if j == 8 || b[j] then j else LowestFrom(b, j + 1)
  }

  /** Position of the lowest set bit (count of trailing zeros). */
  function Ctz(b: Byte): (r: nat)
    requires b != ZERO
    ensures r < 8 && b[r] && forall k :: 0 <= k < r ==> !b[k]
  {
    LowestFrom(b, 0)
  }

  /** Last set bit below position j. */
  function HighestBelow(b: Byte, j: nat): (r: nat)
    requires 0 < j <= 8 && exists k :: 0 <= k < j && b[k]
    ensures r < j && b[r] && forall k :: r < k < j ==> !b[k]
  {
    if b[j - 1] then j - 1 else HighestBelow(b, j - 1)
  }

  lemma HasBit(b: Byte)
    requires b != ZERO
    ensures exists k :: 0 <= k < 8 && b[k]
  {
  }

  /** Position of the highest set bit (31 minus the leading zeros of the word). */
  function HighBit(b: Byte): (r: nat)
    requires b != ZERO
    ensures r < 8 && b[r] && forall k :: r < k < 8 ==> !b[k]
  {
    HasBit(b);
    HighestBelow(b, 8)
  }

  /** b & (b - 1) clears the lowest set bit and no other. */
  lemma ClearLowest(b: Byte, k: nat)
    requires b != ZERO && k < 8
    ensures ByteAnd(b, Dec(b))[k] == (b[k] && k != Ctz(b))
  {
    DecBit(b, k);
    var c := Ctz(b);
    assert b[c];
  }

  /** Set bits below position m. */
  function PopUpTo(b: Byte, m: nat): nat
    requires m <= 8
  {
    if m == 0 then 0 else PopUpTo(b, m - 1) + One(b[m - 1])
  }

  function Popcount(b: Byte): nat
  {
    PopUpTo(b, 8)
  }
}
