/**
 Decoding undoes encoding.

 With p pending bits the decoder's register is not the next 32 stream bits: it
 is the next p+32 bits less the p middle-quarter subtractions.  Window is that
 number.  Read backwards from the flush, every encoder step keeps it inside the
 current interval, for any bits that follow the stream.
 */
module CoderProof {
  import opened Bits
  import opened Sequences
  import opened CoderSpec

  function Window(pending: nat, s: seq<bit>): int
    requires |s| >= pending + 32
  {
    Val(s[..pending + 32]) - HALF * (Pow2(pending) - 1)
  }

  /** An emitted bit and its pending complements, as one number. */
  lemma {:induction false} ValEmitted(b: bit, n: nat)
    ensures Val([b] + Rep(1 - b, n)) == Pow2(n) - 1 + b
  {
    var s := [b] + Rep(1 - b, n);
    if n == 0 {
      assert s[..0] == [];
    } else {
      ValEmitted(b, n - 1);
      assert s[..n] == [b] + Rep(1 - b, n - 1);
    }
  }

  /** What the register holds when bit b, n complements and then rest follow. */
  lemma ValEmittedThen(b: bit, n: nat, e: seq<bit>, rest: seq<bit>, k: nat)
    requires e == [b] + Rep(1 - b, n) && k <= |rest|
    ensures |e| == n + 1
    ensures Val((e + rest)[..n + 1 + k]) == (Pow2(n) - 1 + b) * Pow2(k) + Val(rest[..k])
  {
    ValEmitted(b, n);
    ValThen(e, rest, k, Pow2(n) - 1 + b);
  }

  lemma ValThen(e: seq<bit>, rest: seq<bit>, k: nat, v: nat)
    requires k <= |rest| && Val(e) == v
    ensures Val((e + rest)[..|e| + k]) == v * Pow2(k) + Val(rest[..k])
  {
    TakeInto(e, rest, k);
    ValConcat(e, rest[..k]);
  }

  lemma TakeInto<T>(a: seq<T>, b: seq<T>, k: nat)
    requires k <= |b|
    ensures (a + b)[..|a| + k] == a + b[..k]
  {
  }

  lemma DropInto<T>(a: seq<T>, b: seq<T>, k: nat)
    requires k <= |b|
    ensures (a + b)[|a| + k..] == b[k..]
  {
  }

  /** Emitting b with its pending complements leaves rest as the stream. */
  lemma EmitWindow(b: bit, pending: nat, rest: seq<bit>)
    requires |rest| >= 32
    ensures var s := [b] + Rep(1 - b, pending) + rest;
            && |s| >= pending + 32
            && Window(pending, s) == b * HALF + Val(rest[..31])
            && s[pending + 32..] == rest[31..]
    ensures Window(0, rest) == 2 * Val(rest[..31]) + rest[31]
  {
    Pow2Constants();
    ValEmittedThen(b, pending, [b] + Rep(1 - b, pending), rest, 31);
    assert rest[..32][..31] == rest[..31];
    DropInto([b] + Rep(1 - b, pending), rest, 31);
    HalfTimes(Pow2(pending), b);
  }

  lemma HalfTimes(q: nat, b: bit)
    ensures (q - 1 + b) * HALF == HALF * (q - 1) + b * HALF
  {
  }

  /** A middle-quarter shift subtracts a quarter and reads one more bit. */
  lemma PendWindow(pending: nat, s: seq<bit>)
    requires |s| >= pending + 33
    ensures Window(pending + 1, s) == 2 * Window(pending, s) + s[pending + 32] - HALF
    ensures Head(s[pending + 32..]) == s[pending + 32] && Tail(s[pending + 32..]) == s[pending + 33..]
  {
    assert s[..pending + 33][..pending + 32] == s[..pending + 32];
    var q := Pow2(pending);
    assert HALF * (2 * q - 1) == 2 * (HALF * (q - 1)) + HALF;
  }

  /** The flush pins the register to a quarter inside the interval, whatever follows. */
  lemma FlushWindow(b: bit, pending: nat, pad: seq<bit>)
    requires |pad| >= 30
    ensures var s := [b] + Rep(1 - b, pending + 1) + pad;
            && |s| >= pending + 32
            && (b + 1) * QUARTER <= Window(pending, s) < (b + 2) * QUARTER
  {
    Pow2Constants();
    ValEmittedThen(b, pending + 1, [b] + Rep(1 - b, pending + 1), pad, 30);
    ValBound(pad[..30]);
    var q := Pow2(pending);
    assert (2 * q - 1 + b) * QUARTER == HALF * (q - 1) + (b + 1) * QUARTER;
  }

  /** The flush names the first quarter that begins above the lower bound; it lies inside the interval. */
  lemma FlushPins(cdf: seq<nat>, low: nat, high: nat, pending: nat, pad: seq<bit>)
    requires ValidCdf(cdf) && Settled(low, high) && |pad| >= 30
    ensures var (s, q) := (EncodeFrom(cdf, low, high, pending, []) + pad, low / 0x4000_0000 + 1);
            && low < q * 0x4000_0000 && (q + 1) * 0x4000_0000 - 1 <= high
            && |s| >= pending + 32
            && q * 0x4000_0000 <= Window(pending, s) < (q + 1) * 0x4000_0000
  {
    FlushWindow(if low < QUARTER then 0 else 1, pending, pad);
  }

  /** From register v and stream t the decoder reads exactly syms, shifting in at most room bits. */
  ghost predicate ReadsBack(cdf: seq<nat>, low: nat, high: nat, v: int, t: seq<bit>, syms: seq<nat>, room: int)
    requires ValidCdf(cdf) && Interval(low, high)
  {
    && low <= v <= high
    && DecodeShift(cdf, low, high, v, t, |syms|) == syms
    && ShiftsIn(cdf, low, high, v, t, |syms|) <= room
  }

  /** Undoing one shift: the interval and the register were doubled together. */
  lemma UnshiftReadsBack(cdf: seq<nat>, low: nat, high: nat, c: nat, v: int, t: seq<bit>, syms: seq<nat>, room: int)
    requires ValidCdf(cdf) && Interval(low, high)
    requires if high < HALF then c == 0
             else if low >= HALF then c == FULL
             else c == HALF && low >= QUARTER && high < THREE_QUARTERS
    requires ReadsBack(cdf, 2 * low - c, 2 * high + 1 - c, 2 * v + Head(t) - c, Tail(t), syms, room)
    ensures ReadsBack(cdf, low, high, v, t, syms, room + 1)
  {
  }

  ghost predicate GoodShift(cdf: seq<nat>, low: nat, high: nat, pending: nat, syms: seq<nat>, e: seq<bit>, pad: seq<bit>)
    requires ValidCdf(cdf) && Interval(low, high)
  {
    var s := e + pad;
    && |s| >= pending + 32
    && ReadsBack(cdf, low, high, Window(pending, s), s[pending + 32..], syms, |e| - pending - 2)
  }

  /** From every settled state: the rest of the stream decodes to the rest of the symbols. */
  lemma {:induction false} FromCorrect(cdf: seq<nat>, low: nat, high: nat, pending: nat, syms: seq<nat>, pad: seq<bit>)
    requires ValidCdf(cdf) && ValidSyms(cdf, syms) && Settled(low, high) && |pad| >= 30
    ensures GoodShift(cdf, low, high, pending, syms, EncodeFrom(cdf, low, high, pending, syms), pad)
    decreases |syms|, 0, 0
  {
    if syms == [] {
      FlushWindow(if low < QUARTER then 0 else 1, pending, pad);
    } else {
      var s, rest := syms[0], syms[1..];
      NarrowInside(low, high, CLow(cdf, s), CHigh(cdf, s));
      var l, h := NarrowLow(low, high, CLow(cdf, s)), NarrowHigh(low, high, CHigh(cdf, s));
      ShiftCorrect(cdf, l, h, pending, rest, pad);
      FromStep(cdf, low, high, l, h, pending, syms, EncodeShift(cdf, l, h, pending, rest), pad);
    }
  }

  /** The interval of symbol s inside (low, high). */
  ghost predicate Narrowed(cdf: seq<nat>, low: nat, high: nat, s: nat, l: nat, h: nat)
    requires ValidCdf(cdf) && low <= high && s + 1 < |cdf|
  {
    l == NarrowLow(low, high, CLow(cdf, s)) && h == NarrowHigh(low, high, CHigh(cdf, s))
  }

  lemma FromStep(cdf: seq<nat>, low: nat, high: nat, l: nat, h: nat, pending: nat, syms: seq<nat>, e: seq<bit>, pad: seq<bit>)
    requires ValidCdf(cdf) && ValidSyms(cdf, syms) && Settled(low, high) && syms != []
    requires Narrowed(cdf, low, high, syms[0], l, h) && Interval(l, h) && low <= l && h <= high
    requires GoodShift(cdf, l, h, pending, syms[1..], e, pad)
    ensures GoodShift(cdf, low, high, pending, syms, e, pad)
  {
    var v := Window(pending, e + pad);
    var t := SymbolAt(cdf, low, high, v);
    SlotIffInterval(cdf, low, high, v, syms[0]);
    SlotIffInterval(cdf, low, high, v, t);
    SlotUnique(cdf, syms[0], t, Count(low, high, v));
    assert [syms[0]] + syms[1..] == syms;
  }

  lemma {:induction false} ShiftCorrect(cdf: seq<nat>, low: nat, high: nat, pending: nat, syms: seq<nat>, pad: seq<bit>)
    requires ValidCdf(cdf) && ValidSyms(cdf, syms) && Interval(low, high) && |pad| >= 30
    ensures GoodShift(cdf, low, high, pending, syms, EncodeShift(cdf, low, high, pending, syms), pad)
    decreases |syms|, 1, FULL - (high - low)
  {
    if high < HALF {
      ShiftCorrect(cdf, 2 * low, 2 * high + 1, 0, syms, pad);
      EmitStep(cdf, low, high, 0, 0, pending, syms, EncodeShift(cdf, 2 * low, 2 * high + 1, 0, syms), pad);
    } else if low >= HALF {
      ShiftCorrect(cdf, 2 * low - FULL, 2 * high + 1 - FULL, 0, syms, pad);
      EmitStep(cdf, low, high, 1, FULL, pending, syms, EncodeShift(cdf, 2 * low - FULL, 2 * high + 1 - FULL, 0, syms), pad);
    } else if low >= QUARTER && high < THREE_QUARTERS {
      ShiftCorrect(cdf, 2 * low - HALF, 2 * high + 1 - HALF, pending + 1, syms, pad);
      PendStep(cdf, low, high, pending, syms, EncodeShift(cdf, 2 * low - HALF, 2 * high + 1 - HALF, pending + 1, syms), pad);
    } else {
      FromCorrect(cdf, low, high, pending, syms, pad);
    }
  }

  lemma PendStep(cdf: seq<nat>, low: nat, high: nat, pending: nat, syms: seq<nat>, e: seq<bit>, pad: seq<bit>)
    requires ValidCdf(cdf) && Interval(low, high)
    requires QUARTER <= low < HALF <= high < THREE_QUARTERS
    requires GoodShift(cdf, 2 * low - HALF, 2 * high + 1 - HALF, pending + 1, syms, e, pad)
    ensures GoodShift(cdf, low, high, pending, syms, e, pad)
  {
    var s := e + pad;
    PendWindow(pending, s);
    UnshiftReadsBack(cdf, low, high, HALF, Window(pending, s), s[pending + 32..], syms, |e| - pending - 3);
  }

  lemma EmitStep(cdf: seq<nat>, low: nat, high: nat, b: bit, c: nat, pending: nat, syms: seq<nat>, e: seq<bit>, pad: seq<bit>)
    requires ValidCdf(cdf) && Interval(low, high)
    requires (b == 0 && c == 0 && high < HALF) || (b == 1 && c == FULL && low >= HALF)
    requires GoodShift(cdf, 2 * low - c, 2 * high + 1 - c, 0, syms, e, pad)
    ensures GoodShift(cdf, low, high, pending, syms, ([b] + Rep(1 - b, pending)) + e, pad)
  {
    var rest := e + pad;
    var emitted := [b] + Rep(1 - b, pending);
    EmitWindow(b, pending, rest);
    ConcatAssoc(emitted, e, pad);
    var v, t := Window(pending, emitted + rest), rest[31..];
    assert Head(t) == rest[31] && Tail(t) == rest[32..];
    assert 2 * v + Head(t) - c == Window(0, rest);
    UnshiftReadsBack(cdf, low, high, c, v, t, syms, |e| - 2);
  }

  /**
   Round trip: for every table and every symbol sequence, decoding the encoder's
   bits gives the symbols back, whatever bits follow the stream; and the decoder
   shifts in at least two bits fewer than were emitted.
   */
  lemma RoundTrip(cdf: seq<nat>, syms: seq<nat>, pad: seq<bit>)
    requires ValidCdf(cdf) && ValidSyms(cdf, syms) && |pad| >= 30
    ensures |EncodeBits(cdf, syms)| >= 2
    ensures DecodeBits(cdf, EncodeBits(cdf, syms) + pad, |syms|) == syms
    ensures ShiftsBits(cdf, EncodeBits(cdf, syms) + pad, |syms|) + 2 <= |EncodeBits(cdf, syms)|
  {
    FromCorrect(cdf, 0, FULL - 1, 0, syms, pad);
  }

  // ---------------------------------------------------------- renormalisation

  /** Shifts until the interval is settled. */
  function Doublings(low: nat, high: nat): nat
    requires Interval(low, high)
    decreases FULL - (high - low)
  {
    if high < HALF then 1 + Doublings(2 * low, 2 * high + 1)
    else if low >= HALF then 1 + Doublings(2 * low - FULL, 2 * high + 1 - FULL)
    else if low >= QUARTER && high < THREE_QUARTERS then 1 + Doublings(2 * low - HALF, 2 * high + 1 - HALF)
    else 0
  }

  lemma SettledSpan(low: nat, high: nat)
    requires Settled(low, high)
    ensures Span(low, high) > QUARTER
  {
  }

  /** A full-size interval needs no shift. */
  lemma WideSettled(low: nat, high: nat, k: nat)
    requires Interval(low, high) && k <= 18 && Span(low, high) >= Pow2(14 + k) && !Settled(low, high)
    ensures k < 18
  {
    if k == 18 {
      Pow2Constants();
    }
  }

  /** A settled interval has more than 2^30 values, and one of 2^(14+k) values settles after at most 18 - k shifts. */
  lemma {:induction false} RenormaliseBound(low: nat, high: nat, k: nat)
    requires Interval(low, high) && k <= 18 && Span(low, high) >= Pow2(14 + k)
    ensures Settled(low, high) ==> Span(low, high) > QUARTER
    ensures Doublings(low, high) <= 18 - k
    decreases 18 - k
  {
    if Settled(low, high) {
      SettledSpan(low, high);
    } else {
      WideSettled(low, high, k);
      assert Pow2(14 + (k + 1)) == 2 * Pow2(14 + k);
      if high < HALF {
        RenormaliseBound(2 * low, 2 * high + 1, k + 1);
      } else if low >= HALF {
        RenormaliseBound(2 * low - FULL, 2 * high + 1 - FULL, k + 1);
      } else {
        RenormaliseBound(2 * low - HALF, 2 * high + 1 - HALF, k + 1);
      }
    }
  }
}
