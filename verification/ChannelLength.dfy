/**
 Does a channel's stream fit its 256-byte row?  Encoded with the table of its
 own tokens it always does; a piece of a longer channel need not.
 */
module ChannelLength {
  import opened Bits
  import opened CoderSpec
  import opened CoderLength
  import opened CdfTable

  const ROW: nat := 256
  const MAX_TOKENS: nat := 256

  ghost predicate Tokens(input: seq<nat>, maxBins: nat)
  {
    forall k :: 0 <= k < |input| ==> input[k] < maxBins
  }

  /** The row, for any table: it holds the stream, or not, as the shares decide. */
  lemma RowDecided(cdf: seq<nat>, syms: seq<nat>)
    requires ValidCdf(cdf) && ValidSyms(cdf, syms)
    ensures Whole(|syms|) < Pow2(8 * ROW - 1) * Under(cdf, syms) ==> |EncodeBits(cdf, syms)| <= 8 * ROW
    ensures Pow2(8 * ROW) * Over(cdf, syms) < Whole(|syms|) ==> |EncodeBits(cdf, syms)| > 8 * ROW
  {
    LengthDecided(cdf, syms, 8 * ROW);
  }

  // ------------------------------------------------- the share of a token value

  lemma ShareBounds(s: nat, a: nat, m: nat, n: nat)
    requires n > 0
    ensures s * m - n < n * (s * (a + m) / n - s * a / n) < s * m + n
  {
    MulLe(s, 0, a);
    MulLe(s, a, a + m);
    assert s * (a + m) == s * a + s * m;
    DivGap(s * a, s * (a + m), n);
  }

  lemma DivGap(x: nat, y: nat, n: nat)
    requires x <= y && n > 0
    ensures y - x - n < n * (y / n - x / n) < y - x + n
  {
    var (p, q) := (x / n, y / n);
    assert n * p <= x < n * p + n;
    assert n * q <= y < n * q + n;
    assert n * (q - p) == n * q - n * p;
  }

  lemma WidthShare(s: nat, a: nat, m: nat, n: nat, w: nat)
    requires n > 0
    requires var d := s * (a + m) / n - s * a / n; d + 1 <= w <= d + 2
    ensures s * m < n * w < s * m + 3 * n
  {
    ShareBounds(s, a, m, n);
    var d := s * (a + m) / n - s * a / n;
    assert n * (d + 1) == n * d + n && n * (d + 2) == n * d + 2 * n;
    MulLess(n, d + 1, w, d + 2);
  }

  lemma MulLess(n: nat, a: int, b: int, c: int)
    requires a <= b <= c
    ensures n * a <= n * b <= n * c
  {
  }

  lemma EntryGap(input: seq<nat>, maxBins: nat, v: nat)
    requires maxBins < U16 && input != []
    ensures var (s, a, m, n) := (0xFFFF - maxBins, CountBelow(input, v), CountEq(input, v), |input|);
            Entry(input, maxBins, v + 1) - Entry(input, maxBins, v) == s * (a + m) / n - s * a / n + 1
  {
    CountBelowStep(input, v);
  }

  /** The last slot reaches one further than its entry. */
  lemma WidthIsGap(input: seq<nat>, maxBins: nat, v: nat)
    requires v < maxBins < U16 && input != [] && Tokens(input, maxBins)
    ensures ValidCdf(Table(input, maxBins)) && v < |Table(input, maxBins)| - 1
    ensures var g := Entry(input, maxBins, v + 1) - Entry(input, maxBins, v);
            g <= Width(Table(input, maxBins), v) <= g + 1
  {
    TableIsValid(input, maxBins);
    EntryEnds(input, maxBins);
  }

  /** A value's slot is as wide as its share of the tokens, up to rounding. */
  lemma SlotWidth(input: seq<nat>, maxBins: nat, v: nat)
    requires v < maxBins < U16 && input != [] && Tokens(input, maxBins)
    ensures ValidCdf(Table(input, maxBins)) && v < |Table(input, maxBins)| - 1
    ensures var (w, n, share) := (Width(Table(input, maxBins), v), |input|, (0xFFFF - maxBins) * CountEq(input, v));
            share < n * w < share + 3 * n
  {
    WidthIsGap(input, maxBins, v);
    EntryGap(input, maxBins, v);
    WidthShare(0xFFFF - maxBins, CountBelow(input, v), CountEq(input, v), |input|, Width(Table(input, maxBins), v));
  }

  // --------------------------------------------------------------- the own table

  /** Positions of syms whose value occurs once in input, values below i only. */
  function Singles(input: seq<nat>, syms: seq<nat>, i: nat): nat
  {
    if syms == [] then 0
    else (if syms[0] < i && CountEq(input, syms[0]) == 1 then 1 else 0) + Singles(input, syms[1..], i)
  }

  lemma {:induction false} CountFront(s: seq<nat>, v: nat)
    requires s != []
    ensures CountEq(s, v) == (if s[0] == v then 1 else 0) + CountEq(s[1..], v)
  {
    var n := |s|;
    if n > 1 {
      CountFront(s[..n - 1], v);
      assert s[..n - 1][1..] == s[1..][..n - 2];
    } else {
      assert s[..0] == [] && s[1..] == [];
    }
  }

  lemma {:induction false} SinglesStep(input: seq<nat>, syms: seq<nat>, i: nat)
    ensures Singles(input, syms, i + 1) == Singles(input, syms, i) + (if CountEq(input, i) == 1 then CountEq(syms, i) else 0)
  {
    if syms != [] {
      SinglesStep(input, syms[1..], i);
      CountFront(syms, i);
    }
  }

  lemma {:induction false} NoSingles(input: seq<nat>, syms: seq<nat>)
    ensures Singles(input, syms, 0) == 0
  {
    if syms != [] {
      NoSingles(input, syms[1..]);
    }
  }

  /** At most one such position per value. */
  lemma {:induction false} FewSingles(input: seq<nat>, i: nat)
    ensures Singles(input, input, i) <= i
  {
    if i == 0 {
      NoSingles(input, input);
    } else {
      FewSingles(input, i - 1);
      SinglesStep(input, input, i - 1);
    }
  }

  /** 2^7 and a little for a value that occurs at least twice, double for one that occurs once. */
  function Price(input: seq<nat>, v: nat): nat
  {
    if CountEq(input, v) == 1 then 260 else 130
  }

  function Prices(input: seq<nat>, syms: seq<nat>): (ks: seq<nat>)
    ensures |ks| == |syms| && forall i :: 0 <= i < |syms| ==> ks[i] == Price(input, syms[i])
  {
    if syms == [] then [] else [Price(input, syms[0])] + Prices(input, syms[1..])
  }

  function Pow130(n: nat): nat
  {
    if n == 0 then 1 else 130 * Pow130(n - 1)
  }

  lemma PriceTimes(p: nat, q: nat)
    ensures 260 * (p * q) == (130 * p) * (2 * q)
    ensures 130 * (p * q) == (130 * p) * q
  {
  }

  lemma {:induction false} PricesProduct(input: seq<nat>, syms: seq<nat>, maxBins: nat)
    requires Tokens(syms, maxBins)
    ensures Product(Prices(input, syms)) == Pow130(|syms|) * Pow2(Singles(input, syms, maxBins))
  {
    if syms != [] {
      var rest := syms[1..];
      PricesProduct(input, rest, maxBins);
      assert Prices(input, syms)[1..] == Prices(input, rest);
      PriceTimes(Pow130(|rest|), Pow2(Singles(input, rest, maxBins)));
    }
  }

  lemma FourTokens(p: nat, q: nat)
    requires p <= q
    ensures 130 * (130 * (130 * (130 * p))) <= 0x2000_0000 * q
  {
  }

  /** Four times 130 is below 2^29. */
  lemma {:induction false} Pow130Bound(n: nat, q: nat)
    requires n <= 4 * q
    ensures Pow130(n) <= Pow2(29 * q)
    decreases q
  {
    if n <= 4 {
      SmallPow130(n);
      if q > 0 {
        Pow2Monotone(29, 29 * q);
        Pow2At29();
      }
    } else {
      Pow130Bound(n - 4, q - 1);
      FourTokens(Pow130(n - 4), Pow2(29 * (q - 1)));
      Pow130Four(n);
      Pow2Add(29, 29 * (q - 1));
      Pow2At29();
    }
  }

  lemma Pow130Four(n: nat)
    requires n >= 4
    ensures Pow130(n) == 130 * (130 * (130 * (130 * Pow130(n - 4))))
  {
    assert Pow130(n - 1) == 130 * Pow130(n - 2);
    assert Pow130(n - 2) == 130 * Pow130(n - 3);
    assert Pow130(n - 3) == 130 * Pow130(n - 4);
  }

  lemma SmallPow130(n: nat)
    requires n <= 4
    ensures Pow130(n) <= (if n == 0 then 1 else 285_610_000)
  {
    assert Pow130(0) == 1 && Pow130(1) == 130 && Pow130(2) == 16_900 && Pow130(3) == 2_197_000 && Pow130(4) == 285_610_000;
  }

  lemma Pow2At29()
    ensures Pow2(29) == 0x2000_0000
  {
    Pow2Constants();
    assert Pow2(30) == 2 * Pow2(29);
  }

  lemma WideEnough(s: nat, m: nat, n: nat, w: nat)
    requires s >= 65472 && m >= 1 && n <= MAX_TOKENS && s * m < n * w
    ensures AtMost(w, if m == 1 then 260 else 130)
  {
    var m' := if m == 1 then 1 else 2;
    MulLe(s, m', m);
    MulLe(w, n, 256);
    assert n * w == w * n;
    assert w >= 256 * m';
  }

  /** The prices cover the slots of the own table. */
  lemma PriceCovers(input: seq<nat>, maxBins: nat, v: nat)
    requires v < maxBins < MAX_BINS_SUPPORTED && |input| <= MAX_TOKENS && Tokens(input, maxBins) && CountEq(input, v) >= 1
    ensures ValidCdf(Table(input, maxBins)) && v < |Table(input, maxBins)| - 1
    ensures AtMost(Width(Table(input, maxBins), v), Price(input, v))
  {
    SlotWidth(input, maxBins, v);
    WideEnough(0xFFFF - maxBins, CountEq(input, v), |input|, Width(Table(input, maxBins), v));
  }

  lemma {:induction false} Occurs(s: seq<nat>, k: nat)
    requires k < |s|
    ensures CountEq(s, s[k]) >= 1
  {
    var n := |s|;
    if k < n - 1 {
      Occurs(s[..n - 1], k);
    }
  }

  /** A channel encoded with its own table: 7 1/4 bits per token and one per value. */
  lemma OwnTableLength(input: seq<nat>, maxBins: nat)
    requires 1 <= maxBins < MAX_BINS_SUPPORTED && |input| <= MAX_TOKENS && Tokens(input, maxBins)
    ensures ValidCdf(Table(input, maxBins)) && ValidSyms(Table(input, maxBins), input)
    ensures |EncodeBits(Table(input, maxBins), input)| <= 29 * ((|input| + 3) / 4) + maxBins + 2
  {
    TableIsValid(input, maxBins);
    var cdf := Table(input, maxBins);
    forall i | 0 <= i < |input|
      ensures AtMost(Width(cdf, input[i]), Price(input, input[i]))
    {
      Occurs(input, i);
      PriceCovers(input, maxBins, input[i]);
    }
    LengthBelow(cdf, input, Prices(input, input));
    BudgetBits(input, maxBins, |EncodeBits(cdf, input)| - 2, (|input| + 3) / 4);
  }

  lemma BudgetBits(input: seq<nat>, maxBins: nat, bits: nat, q: nat)
    requires Tokens(input, maxBins) && |input| <= 4 * q && Pow2(bits) <= Product(Prices(input, input))
    ensures bits <= 29 * q + maxBins
  {
    var b := Singles(input, input, maxBins);
    PricesProduct(input, input, maxBins);
    FewSingles(input, maxBins);
    Pow130Bound(|input|, q);
    ProductBits(bits, Pow130(|input|), 29 * q, b);
  }

  lemma ProductBits(bits: nat, p: nat, a: nat, b: nat)
    requires Pow2(bits) <= p * Pow2(b) && p <= Pow2(a)
    ensures bits <= a + b
  {
    ScaledLe(p, Pow2(a), Pow2(b));
    Pow2Add(a, b);
    ExponentLe(bits, a + b);
  }

  /** So it fits the row, with at least four bytes to spare for the decoder's look-ahead. */
  lemma OwnRowFits(input: seq<nat>, maxBins: nat)
    requires 1 <= maxBins < MAX_BINS_SUPPORTED && |input| <= MAX_TOKENS && Tokens(input, maxBins)
    ensures ValidCdf(Table(input, maxBins)) && ValidSyms(Table(input, maxBins), input)
    ensures (|EncodeBits(Table(input, maxBins), input)| + 7) / 8 + 4 <= ROW
  {
    OwnTableLength(input, maxBins);
  }

  // ------------------------------------------------------ pieces of longer channels

  lemma ThinSlot(s: nat, m: nat, n: nat, w: nat)
    requires s < 0xFFFF && 525 * m <= n && n * w < s * m + 3 * n
    ensures AtLeast(w, 512)
  {
    MulLe(m, s, 65534);
    assert m * s == s * m;
    assert 525 * (s * m) <= 65534 * n;
    if w >= 128 {
      MulLe(n, 128, w);
    }
  }

  /** 228 tokens of values that each make up at most 1/525 of the channel overflow the row. */
  lemma RareOverflows(input: seq<nat>, maxBins: nat, piece: seq<nat>)
    requires 1 <= maxBins < MAX_BINS_SUPPORTED && input != [] && Tokens(input, maxBins) && Tokens(piece, maxBins)
    requires |piece| >= 228 && forall k :: 0 <= k < |piece| ==> 525 * CountEq(input, piece[k]) <= |input|
    ensures ValidCdf(Table(input, maxBins)) && ValidSyms(Table(input, maxBins), piece)
    ensures |EncodeBits(Table(input, maxBins), piece)| > 8 * ROW
  {
    TableIsValid(input, maxBins);
    var cdf := Table(input, maxBins);
    forall i | 0 <= i < |piece|
      ensures AtLeast(Width(cdf, piece[i]), Pow2(9))
    {
      SlotWidth(input, maxBins, piece[i]);
      ThinSlot(0xFFFF - maxBins, CountEq(input, piece[i]), |input|, Width(cdf, piece[i]));
      assert Pow2(8) == 256 by { Pow2Constants(); }
      assert Pow2(9) == 512;
    }
    NarrowSlots(cdf, piece, 9);
  }

  function Cycle(n: nat): (r: seq<nat>)
    ensures |r| == n && forall i :: 0 <= i < n ==> r[i] == 1 + i % 30
  {
    seq(n, i => 1 + i % 30)
  }

  lemma CycleStep(n: nat, v: nat)
    requires n > 0 && 1 <= v <= 30
    ensures (n + 30 - v) / 30 == (n - 1 + 30 - v) / 30 + (if 1 + (n - 1) % 30 == v then 1 else 0)
  {
  }

  lemma {:induction false} CycleCount(n: nat, v: nat)
    requires 1 <= v <= 30
    ensures CountEq(Cycle(n), v) == (n + 30 - v) / 30
  {
    if n > 0 {
      CycleCount(n - 1, v);
      CycleStep(n, v);
      assert Cycle(n)[..n - 1] == Cycle(n - 1);
    }
  }

  function Zeros(n: nat): (r: seq<nat>)
    ensures |r| == n && forall i :: 0 <= i < n ==> r[i] == 0
  {
    seq(n, _ => 0)
  }

  lemma {:induction false} ZerosCount(s: seq<nat>, n: nat, v: nat)
    requires v > 0
    ensures CountEq(s + Zeros(n), v) == CountEq(s, v)
  {
    if n == 0 {
      assert s + Zeros(0) == s;
    } else {
      ZerosCount(s, n - 1, v);
      assert (s + Zeros(n))[..|s| + n - 1] == s + Zeros(n - 1);
    }
  }

  /**
   Such a channel: 256 tokens that go round the values 1 to 30, which are all of
   the values of 32 bins but zero, and then zeros.  The first cut does not fit.
   */
  lemma RowOverflows()
    ensures var (input, piece) := (Cycle(256) + Zeros(4469), Cycle(256));
            && Tokens(input, 31) && piece == input[..MAX_TOKENS]
            && ValidCdf(Table(input, 32)) && ValidSyms(Table(input, 32), piece)
            && |EncodeBits(Table(input, 32), piece)| > 8 * ROW
  {
    var (input, piece) := (Cycle(256) + Zeros(4469), Cycle(256));
    forall k | 0 <= k < |piece|
      ensures 525 * CountEq(input, piece[k]) <= |input|
    {
      ZerosCount(piece, 4469, piece[k]);
      CycleCount(256, piece[k]);
    }
    RareOverflows(input, 32, piece);
  }
}
