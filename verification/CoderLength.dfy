/**
 How long the encoder's output is.  Every symbol multiplies the interval by its
 slot's share of the table and every emitted bit doubles it, so the length
 follows the information in the symbols to within two bits and the rounding.
 */
module CoderLength {
  import opened Bits
  import opened CoderSpec

  /** Table share of a symbol, in units of 1/2^16. */
  function Width(cdf: seq<nat>, s: nat): (w: nat)
    requires ValidCdf(cdf) && s < |cdf| - 1
    ensures w >= 1
  {
    CHigh(cdf, s) - CLow(cdf, s)
  }

  /** Shares in units of 1/2^30, short and long of them by one unit: what the rounding can cost a settled interval. */
  function Under(cdf: seq<nat>, syms: seq<nat>): (p: nat)
    requires ValidCdf(cdf) && ValidSyms(cdf, syms)
    ensures p >= 1
  {
    if syms == [] then 1 else
      var (u, p) := (0x4000 * Width(cdf, syms[0]) - 1, Under(cdf, syms[1..]));
      MulLe(u, 1, p);
      u * p
  }

  function Over(cdf: seq<nat>, syms: seq<nat>): nat
    requires ValidCdf(cdf) && ValidSyms(cdf, syms)
  {
    if syms == [] then 1 else (0x4000 * Width(cdf, syms[0]) + 1) * Over(cdf, syms[1..])
  }

  /** 2^30 to the n. */
  function Whole(n: nat): nat
  {
    if n == 0 then 1 else 0x4000_0000 * Whole(n - 1)
  }

  // -------------------------------------------------------------- one symbol

  lemma FloorGap(x: nat, y: nat)
    requires x <= y
    ensures y - x - SCALE < SCALE * (y / SCALE - x / SCALE) < y - x + SCALE
  {
  }

  lemma ScaledLe(a: int, b: int, k: nat)
    requires a <= b
    ensures a * k <= b * k
  {
  }

  /** A settled interval shrinks to its share, up to one unit. */
  lemma Shrinks(span: nat, cLow: nat, cHigh: nat)
    requires span >= QUARTER && cLow < cHigh
    ensures var (w, d) := (cHigh - cLow, span * cHigh / SCALE - span * cLow / SCALE);
            span * (0x4000 * w - 1) <= 0x4000_0000 * d <= span * (0x4000 * w + 1)
  {
    var (w, d) := (cHigh - cLow, span * cHigh / SCALE - span * cLow / SCALE);
    MulLe(span, cLow, cHigh);
    FloorGap(span * cLow, span * cHigh);
    assert span * cHigh - span * cLow == span * w;
    assert span * (0x4000 * w - 1) == 0x4000 * (span * w) - span;
    assert span * (0x4000 * w + 1) == 0x4000 * (span * w) + span;
  }

  // --------------------------------------------------------------- all of them

  /** L doublings bring the span, times the shares, to between a quarter and the whole of 2^32. */
  ghost predicate Balanced(span: nat, L: int, under: nat, over: nat, whole: nat)
  {
    && L >= 0
    && Pow2(L) * span * under <= FULL * whole
    && QUARTER * whole <= Pow2(L) * span * over
  }

  lemma UnderStep(p: nat, span: nat, d: nat, u: nat, under: nat, whole: nat)
    requires p * d * under <= FULL * whole && span * u <= 0x4000_0000 * d
    ensures p * span * (u * under) <= FULL * (0x4000_0000 * whole)
  {
    ScaledLe(span * u, 0x4000_0000 * d, p * under);
    assert (span * u) * (p * under) == p * span * (u * under);
    assert (0x4000_0000 * d) * (p * under) == 0x4000_0000 * (p * d * under);
  }

  lemma OverStep(p: nat, span: nat, d: nat, o: nat, over: nat, whole: nat)
    requires QUARTER * whole <= p * d * over && 0x4000_0000 * d <= span * o
    ensures QUARTER * (0x4000_0000 * whole) <= p * span * (o * over)
  {
    ScaledLe(0x4000_0000 * d, span * o, p * over);
    assert (span * o) * (p * over) == p * span * (o * over);
    assert (0x4000_0000 * d) * (p * over) == 0x4000_0000 * (p * d * over);
  }

  lemma BalancedSymbol(span: nat, d: nat, L: int, u: nat, under: nat, o: nat, over: nat, whole: nat)
    requires Balanced(d, L, under, over, whole) && span * u <= 0x4000_0000 * d <= span * o
    ensures Balanced(span, L, u * under, o * over, 0x4000_0000 * whole)
  {
    UnderStep(Pow2(L), span, d, u, under, whole);
    OverStep(Pow2(L), span, d, o, over, whole);
  }

  lemma BalancedShift(span: nat, L: int, under: nat, over: nat, whole: nat)
    requires Balanced(2 * span, L, under, over, whole)
    ensures Balanced(span, L + 1, under, over, whole)
  {
    assert Pow2(L + 1) * span == Pow2(L) * (2 * span) by {
      assert Pow2(L + 1) == 2 * Pow2(L);
    }
  }

  lemma BalancedFlush(low: nat, high: nat)
    requires Settled(low, high)
    ensures Balanced(Span(low, high), 0, 1, 1, 1)
  {
  }

  lemma {:induction false} FromBalanced(cdf: seq<nat>, low: nat, high: nat, pending: nat, syms: seq<nat>)
    requires ValidCdf(cdf) && ValidSyms(cdf, syms) && Settled(low, high)
    ensures Balanced(Span(low, high), |EncodeFrom(cdf, low, high, pending, syms)| - pending - 2, Under(cdf, syms), Over(cdf, syms), Whole(|syms|))
    decreases |syms|, 0, 0
  {
    if syms == [] {
      BalancedFlush(low, high);
    } else {
      var s := syms[0];
      var (cl, ch) := (CLow(cdf, s), CHigh(cdf, s));
      NarrowInside(low, high, cl, ch);
      var l, h := NarrowLow(low, high, cl), NarrowHigh(low, high, ch);
      ShiftBalanced(cdf, l, h, pending, syms[1..]);
      Shrinks(Span(low, high), cl, ch);
      var w := Width(cdf, s);
      BalancedSymbol(Span(low, high), Span(l, h), |EncodeShift(cdf, l, h, pending, syms[1..])| - pending - 2,
                     0x4000 * w - 1, Under(cdf, syms[1..]), 0x4000 * w + 1, Over(cdf, syms[1..]), Whole(|syms| - 1));
    }
  }

  lemma {:induction false} ShiftBalanced(cdf: seq<nat>, low: nat, high: nat, pending: nat, syms: seq<nat>)
    requires ValidCdf(cdf) && ValidSyms(cdf, syms) && Interval(low, high)
    ensures Balanced(Span(low, high), |EncodeShift(cdf, low, high, pending, syms)| - pending - 2, Under(cdf, syms), Over(cdf, syms), Whole(|syms|))
    decreases |syms|, 1, FULL - (high - low)
  {
    var (u, o, t) := (Under(cdf, syms), Over(cdf, syms), Whole(|syms|));
    if high < HALF {
      ShiftBalanced(cdf, 2 * low, 2 * high + 1, 0, syms);
      BalancedShift(Span(low, high), |EncodeShift(cdf, 2 * low, 2 * high + 1, 0, syms)| - 2, u, o, t);
    } else if low >= HALF {
      ShiftBalanced(cdf, 2 * low - FULL, 2 * high + 1 - FULL, 0, syms);
      BalancedShift(Span(low, high), |EncodeShift(cdf, 2 * low - FULL, 2 * high + 1 - FULL, 0, syms)| - 2, u, o, t);
    } else if low >= QUARTER && high < THREE_QUARTERS {
      ShiftBalanced(cdf, 2 * low - HALF, 2 * high + 1 - HALF, pending + 1, syms);
      BalancedShift(Span(low, high), |EncodeShift(cdf, 2 * low - HALF, 2 * high + 1 - HALF, pending + 1, syms)| - pending - 3, u, o, t);
    } else {
      FromBalanced(cdf, low, high, pending, syms);
    }
  }

  /**
   The length lies within two bits of the information in the symbols, from
   either side, but for one part in 2^14 of a unit slot per symbol.
   */
  lemma LengthBounds(cdf: seq<nat>, syms: seq<nat>)
    requires ValidCdf(cdf) && ValidSyms(cdf, syms)
    ensures |EncodeBits(cdf, syms)| >= 2
    ensures Pow2(|EncodeBits(cdf, syms)| - 2) * Under(cdf, syms) <= Whole(|syms|)
    ensures Whole(|syms|) <= Pow2(|EncodeBits(cdf, syms)|) * Over(cdf, syms)
  {
    FromBalanced(cdf, 0, FULL - 1, 0, syms);
    Unscale(|EncodeBits(cdf, syms)| - 2, Under(cdf, syms), Over(cdf, syms), Whole(|syms|));
  }

  lemma Unscale(L: int, under: nat, over: nat, whole: nat)
    requires Balanced(FULL, L, under, over, whole)
    ensures L >= 0 && Pow2(L) * under <= whole <= Pow2(L + 2) * over
  {
    assert Pow2(L) * FULL * under == FULL * (Pow2(L) * under);
    assert Pow2(L) * FULL * over == QUARTER * (4 * Pow2(L) * over);
    assert Pow2(L + 2) == 2 * Pow2(L + 1) && Pow2(L + 1) == 2 * Pow2(L);
  }

  /** Whether the stream fits a given number of bits, decided from the shares but for two bits and the rounding. */
  lemma LengthDecided(cdf: seq<nat>, syms: seq<nat>, bits: nat)
    requires ValidCdf(cdf) && ValidSyms(cdf, syms) && bits >= 1
    ensures Whole(|syms|) < Pow2(bits - 1) * Under(cdf, syms) ==> |EncodeBits(cdf, syms)| <= bits
    ensures Pow2(bits) * Over(cdf, syms) < Whole(|syms|) ==> |EncodeBits(cdf, syms)| > bits
  {
    LengthBounds(cdf, syms);
    var n := |EncodeBits(cdf, syms)|;
    if n > bits {
      Pow2Monotone(bits - 1, n - 2);
      ScaledLe(Pow2(bits - 1), Pow2(n - 2), Under(cdf, syms));
    } else {
      Pow2Monotone(n, bits);
      ScaledLe(Pow2(n), Pow2(bits), Over(cdf, syms));
    }
  }

  // ----------------------------------------------------------- whole factors

  function Product(ks: seq<nat>): nat
  {
    if ks == [] then 1 else ks[0] * Product(ks[1..])
  }

  /** A slot of width w shrinks the interval at most k times, rounding included. */
  predicate AtMost(w: nat, k: nat)
  {
    0x4000_0000 <= k * (0x4000 * w - 1)
  }

  /** At least k times. */
  predicate AtLeast(w: nat, k: nat)
  {
    k * (0x4000 * w + 1) <= 0x4000_0000
  }

  lemma Regrouped(a: nat, b: nat, c: nat, d: nat)
    ensures (a * b) * (c * d) == (a * c) * (b * d)
  {
  }

  lemma Products(a: nat, b: nat, c: nat, d: nat)
    requires a <= b && c <= d
    ensures a * c <= b * d
  {
    MulLe(a, c, d);
    ScaledLe(a, b, d);
  }

  lemma CostStep(k: nat, u: nat, c: nat, under: nat, whole: nat)
    requires 0x4000_0000 <= k * u && whole <= c * under
    ensures 0x4000_0000 * whole <= (k * c) * (u * under)
  {
    Products(0x4000_0000, k * u, whole, c * under);
    Regrouped(k, u, c, under);
  }

  lemma GainStep(k: nat, o: nat, g: nat, over: nat, whole: nat)
    requires k * o <= 0x4000_0000 && g * over <= whole
    ensures (k * g) * (o * over) <= 0x4000_0000 * whole
  {
    Products(k * o, 0x4000_0000, g * over, whole);
    Regrouped(k, o, g, over);
  }

  lemma {:induction false} CostsCover(cdf: seq<nat>, syms: seq<nat>, costs: seq<nat>)
    requires ValidCdf(cdf) && ValidSyms(cdf, syms) && |costs| == |syms|
    requires forall i :: 0 <= i < |syms| ==> AtMost(Width(cdf, syms[i]), costs[i])
    ensures Whole(|syms|) <= Product(costs) * Under(cdf, syms)
  {
    if syms != [] {
      CostsCover(cdf, syms[1..], costs[1..]);
      CostStep(costs[0], 0x4000 * Width(cdf, syms[0]) - 1, Product(costs[1..]), Under(cdf, syms[1..]), Whole(|syms| - 1));
    }
  }

  lemma {:induction false} GainsCovered(cdf: seq<nat>, syms: seq<nat>, gains: seq<nat>)
    requires ValidCdf(cdf) && ValidSyms(cdf, syms) && |gains| == |syms|
    requires forall i :: 0 <= i < |syms| ==> AtLeast(Width(cdf, syms[i]), gains[i])
    ensures Product(gains) * Over(cdf, syms) <= Whole(|syms|)
  {
    if syms != [] {
      GainsCovered(cdf, syms[1..], gains[1..]);
      GainStep(gains[0], 0x4000 * Width(cdf, syms[0]) + 1, Product(gains[1..]), Over(cdf, syms[1..]), Whole(|syms| - 1));
    }
  }

  lemma ScaledLess(a: nat, b: nat, c: nat)
    requires a < b && c > 0
    ensures a * c < b * c
  {
    ScaledLe(a + 1, b, c);
    assert (a + 1) * c == a * c + c;
  }

  lemma Cancel(a: nat, b: nat, c: nat)
    requires a * c <= b * c && c > 0
    ensures a <= b
  {
    if a > b {
      ScaledLess(b, a, c);
    }
  }

  lemma LengthBelow(cdf: seq<nat>, syms: seq<nat>, costs: seq<nat>)
    requires ValidCdf(cdf) && ValidSyms(cdf, syms) && |costs| == |syms|
    requires forall i :: 0 <= i < |syms| ==> AtMost(Width(cdf, syms[i]), costs[i])
    ensures |EncodeBits(cdf, syms)| >= 2 && Pow2(|EncodeBits(cdf, syms)| - 2) <= Product(costs)
  {
    LengthBounds(cdf, syms);
    CostsCover(cdf, syms, costs);
    Cancel(Pow2(|EncodeBits(cdf, syms)| - 2), Product(costs), Under(cdf, syms));
  }

  lemma LengthAbove(cdf: seq<nat>, syms: seq<nat>, gains: seq<nat>)
    requires ValidCdf(cdf) && ValidSyms(cdf, syms) && |gains| == |syms|
    requires forall i :: 0 <= i < |syms| ==> AtLeast(Width(cdf, syms[i]), gains[i])
    ensures Product(gains) <= Pow2(|EncodeBits(cdf, syms)|)
  {
    LengthBounds(cdf, syms);
    GainsCovered(cdf, syms, gains);
    OverPositive(cdf, syms);
    Cancel(Product(gains), Pow2(|EncodeBits(cdf, syms)|), Over(cdf, syms));
  }

  lemma {:induction false} OverPositive(cdf: seq<nat>, syms: seq<nat>)
    requires ValidCdf(cdf) && ValidSyms(cdf, syms)
    ensures Over(cdf, syms) > 0
  {
    if syms != [] {
      OverPositive(cdf, syms[1..]);
      Products(1, 0x4000 * Width(cdf, syms[0]) + 1, 1, Over(cdf, syms[1..]));
    }
  }

  // ------------------------------------------------------------- plain bounds

  /** The same price for n symbols. */
  function Same(k: nat, n: nat): (ks: seq<nat>)
    ensures |ks| == n && forall i :: 0 <= i < n ==> ks[i] == k
  {
    seq(n, _ => k)
  }

  lemma {:induction false} ProductSame(a: nat, n: nat)
    ensures Product(Same(Pow2(a), n)) == Pow2(a * n)
  {
    if n > 0 {
      ProductSame(a, n - 1);
      assert Same(Pow2(a), n)[1..] == Same(Pow2(a), n - 1);
      assert a * n == a + a * (n - 1);
      Pow2Add(a, a * (n - 1));
    }
  }

  lemma ExponentLe(a: nat, b: nat)
    requires Pow2(a) <= Pow2(b)
    ensures a <= b
  {
    if a > b {
      Pow2Monotone(b + 1, a);
    }
  }

  /** At most as dear as a unit slot. */
  lemma Dearest(w: nat)
    requires w >= 1
    ensures AtMost(w, Pow2(17))
  {
    Pow2Constants();
    assert Pow2(17) == 2 * Pow2(16);
  }

  /** n symbols take at most 17n + 2 bits, whatever the table. */
  lemma StreamLength(cdf: seq<nat>, syms: seq<nat>)
    requires ValidCdf(cdf) && ValidSyms(cdf, syms)
    ensures |EncodeBits(cdf, syms)| <= 17 * |syms| + 2
  {
    var n := |syms|;
    forall i | 0 <= i < n
      ensures AtMost(Width(cdf, syms[i]), Pow2(17))
    {
      Dearest(Width(cdf, syms[i]));
    }
    LengthBelow(cdf, syms, Same(Pow2(17), n));
    ProductSame(17, n);
    ExponentLe(|EncodeBits(cdf, syms)| - 2, 17 * n);
  }

  /** n symbols whose slots are narrower than 1/2^b of the table take at least bn bits. */
  lemma NarrowSlots(cdf: seq<nat>, syms: seq<nat>, b: nat)
    requires ValidCdf(cdf) && ValidSyms(cdf, syms)
    requires forall i :: 0 <= i < |syms| ==> AtLeast(Width(cdf, syms[i]), Pow2(b))
    ensures |EncodeBits(cdf, syms)| >= b * |syms|
  {
    var n := |syms|;
    LengthAbove(cdf, syms, Same(Pow2(b), n));
    ProductSame(b, n);
    ExponentLe(b * n, |EncodeBits(cdf, syms)|);
  }
}
