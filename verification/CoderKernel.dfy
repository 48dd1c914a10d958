/**
 The encoder and decoder loops of one (layer, channel) pair, on 32-bit words and
 the shared byte buffers, proved to compute the functions of CoderSpec.
 */
module CoderKernel {
  import opened Bits
  import opened Sequences
  import opened CoderSpec
  import opened BitWriter

  // -------------------------------------------------------- 32-bit registers

  /** Conversion of an arithmetic result to uint32_t. */
  function W32(x: int): (r: nat)
    ensures r < FULL
  {
    x % FULL
  }

  function Shl1(x: nat): nat { W32(2 * x) }        // x << 1
  function SetBit0(x: nat): nat { x - x % 2 + 1 }   // x | 1
  function ClearTop(x: nat): nat { x % HALF }       // x & 0x7FFFFFFF, x < 2^32
  function SetTop(x: nat): nat { x % HALF + HALF }  // x | 0x80000000, x < 2^32

  function WordHigh(low: nat, span: nat, c: nat): nat { W32(W32(low - 1) + W32(span * c / SCALE)) }
  function WordLow(low: nat, span: nat, c: nat): nat { W32(low + W32(span * c / SCALE)) }

  /** The wrap-around of (low - 1) + ... cancels: the words are the narrowed bounds. */
  lemma WordNarrow(low: nat, high: nat, cLow: nat, cHigh: nat)
    requires Settled(low, high) && cLow < cHigh <= SCALE
    ensures WordHigh(low, Span(low, high), cHigh) == NarrowHigh(low, high, cHigh)
    ensures WordLow(low, Span(low, high), cLow) == NarrowLow(low, high, cLow)
    ensures Interval(NarrowLow(low, high, cLow), NarrowHigh(low, high, cHigh))
    ensures low <= NarrowLow(low, high, cLow) && NarrowHigh(low, high, cHigh) <= high
  {
    NarrowInside(low, high, cLow, cHigh);
    WordSum(low, Span(low, high) * cHigh / SCALE);
    WordSum(low, Span(low, high) * cLow / SCALE);
  }

  lemma WordSum(low: nat, x: nat)
    requires low < FULL && low + x <= FULL
    ensures x >= 1 ==> W32(W32(low - 1) + W32(x)) == low + x - 1
    ensures low + x < FULL ==> W32(low + W32(x)) == low + x
  {
  }

  lemma WordDouble(low: nat, high: nat)
    requires Interval(low, high)
    ensures high < HALF ==> Shl1(low) == 2 * low && SetBit0(Shl1(high)) == 2 * high + 1
    ensures low >= HALF ==> Shl1(low) == 2 * low - FULL && SetBit0(Shl1(high)) == 2 * high + 1 - FULL
  {
  }

  lemma WordMiddle(low: nat, high: nat)
    requires QUARTER <= low < HALF <= high < THREE_QUARTERS
    ensures ClearTop(Shl1(low)) == 2 * low - HALF && SetTop(SetBit0(Shl1(high))) == 2 * high + 1 - HALF
  {
    assert Shl1(low) == 2 * low;
    assert Shl1(high) == 2 * high - FULL;
  }

  /** The three renormalisation updates are doublings less a constant. */
  lemma WordShift(low: nat, high: nat)
    requires Interval(low, high)
    ensures high < HALF ==> Shl1(low) == 2 * low && SetBit0(Shl1(high)) == 2 * high + 1
    ensures low >= HALF ==> Shl1(low) == 2 * low - FULL && SetBit0(Shl1(high)) == 2 * high + 1 - FULL
    ensures QUARTER <= low < HALF <= high < THREE_QUARTERS ==>
              ClearTop(Shl1(low)) == 2 * low - HALF && SetTop(SetBit0(Shl1(high))) == 2 * high + 1 - HALF
  {
    WordDouble(low, high);
    if QUARTER <= low < HALF <= high < THREE_QUARTERS {
      WordMiddle(low, high);
    }
  }

  /** The narrowing step of both loops, in 32-bit words. */
  method NarrowWords(cdf: seq<nat>, low: nat, high: nat, s: nat) returns (l: nat, h: nat)
    requires ValidCdf(cdf) && s < |cdf| - 1 && Settled(low, high)
    ensures l == NarrowLow(low, high, CLow(cdf, s)) && h == NarrowHigh(low, high, CHigh(cdf, s))
    ensures Interval(l, h)
  {
    var span := high - low + 1;
    var cLow, cHigh := cdf[s], if s == |cdf| - 2 then SCALE else cdf[s + 1];
    WordNarrow(low, high, cLow, cHigh);
    h := WordHigh(low, span, cHigh);
    l := WordLow(low, span, cLow);
  }

  // ---------------------------------------------------------------- encoder

  /** One emitting shift: the bit and its complements leave the remaining stream. */
  lemma EmitShift(cdf: seq<nat>, low: nat, high: nat, pending: nat, rest: seq<nat>, before: seq<bit>, b: bit, l: nat, h: nat)
    requires ValidCdf(cdf) && ValidSyms(cdf, rest) && Interval(low, high)
    requires if b == 0 then high < HALF && l == 2 * low && h == 2 * high + 1 else low >= HALF && l == 2 * low - FULL && h == 2 * high + 1 - FULL
    ensures Interval(l, h) && h - l == 2 * (high - low) + 1
    ensures |EncodeShift(cdf, low, high, pending, rest)| == 1 + pending + |EncodeShift(cdf, l, h, 0, rest)|
    ensures before + EncodeShift(cdf, low, high, pending, rest) == (before + ([b] + Rep(1 - b, pending))) + EncodeShift(cdf, l, h, 0, rest)
  {
    EmitUnfold(cdf, low, high, pending, rest, b, l, h);
    ConcatAssoc(before, [b] + Rep(1 - b, pending), EncodeShift(cdf, l, h, 0, rest));
  }

  lemma EmitUnfold(cdf: seq<nat>, low: nat, high: nat, pending: nat, rest: seq<nat>, b: bit, l: nat, h: nat)
    requires ValidCdf(cdf) && ValidSyms(cdf, rest) && Interval(low, high)
    requires if b == 0 then high < HALF && l == 2 * low && h == 2 * high + 1 else low >= HALF && l == 2 * low - FULL && h == 2 * high + 1 - FULL
    ensures Interval(l, h)
    ensures EncodeShift(cdf, low, high, pending, rest) == ([b] + Rep(1 - b, pending)) + EncodeShift(cdf, l, h, 0, rest)
  {
  }

  /** Emit the leading bit both bounds share and double the interval. */
  method EmitBit(w: Writer, b: bit, low: nat, high: nat, pending: nat, ghost cdf: seq<nat>, ghost rest: seq<nat>)
    returns (l: nat, h: nat)
    requires ValidCdf(cdf) && ValidSyms(cdf, rest) && Interval(low, high)
    requires if b == 0 then high < HALF else low >= HALF
    requires w.Valid() && |w.Contents()| + |EncodeShift(cdf, low, high, pending, rest)| <= 8 * (w.out.Length - w.base)
    modifies w, w.out
    ensures Interval(l, h) && h - l == 2 * (high - low) + 1
    ensures w.Valid() && w.out == old(w.out) && w.offset >= old(w.offset)
    ensures w.Contents() + EncodeShift(cdf, l, h, 0, rest) == old(w.Contents()) + EncodeShift(cdf, low, high, pending, rest)
    ensures forall k :: 0 <= k < w.out.Length && !(w.base <= k < w.offset) ==> w.out[k] == old(w.out[k])
  {
    l, h := Shl1(low), SetBit0(Shl1(high));
    WordShift(low, high);
    EmitShift(cdf, low, high, pending, rest, w.Contents(), b, l, h);
    w.AppendBitAndPending(b, pending);
  }

  /** The inner while loop: emit settled leading bits, count middle-quarter ones. */
  method Renormalise(w: Writer, low: nat, high: nat, pending: nat, ghost cdf: seq<nat>, ghost rest: seq<nat>)
    returns (l: nat, h: nat, p: nat)
    requires ValidCdf(cdf) && ValidSyms(cdf, rest) && Interval(low, high)
    requires w.Valid() && |w.Contents()| + |EncodeShift(cdf, low, high, pending, rest)| <= 8 * (w.out.Length - w.base)
    modifies w, w.out
    ensures Settled(l, h) && w.Valid() && w.out == old(w.out) && w.offset >= old(w.offset)
    ensures w.Contents() + EncodeFrom(cdf, l, h, p, rest) == old(w.Contents()) + EncodeShift(cdf, low, high, pending, rest)
    ensures forall k :: 0 <= k < w.out.Length && !(w.base <= k < w.offset) ==> w.out[k] == old(w.out[k])
  {
    l, h, p := low, high, pending;
    ghost var goal := w.Contents() + EncodeShift(cdf, low, high, pending, rest);
    while true
      invariant Interval(l, h) && w.Valid() && w.out == old(w.out) && w.offset >= old(w.offset)
      invariant w.Contents() + EncodeShift(cdf, l, h, p, rest) == goal
      invariant forall k :: 0 <= k < w.out.Length && !(w.base <= k < w.offset) ==> w.out[k] == old(w.out[k])
      decreases FULL - (h - l)
    {
      if h < HALF {
        l, h := EmitBit(w, 0, l, h, p, cdf, rest);
        p := 0;
      } else if l >= HALF {
        l, h := EmitBit(w, 1, l, h, p, cdf, rest);
        p := 0;
      } else if l >= QUARTER && h < THREE_QUARTERS {
        WordShift(l, h);
        l, h, p := ClearTop(Shl1(l)), SetTop(SetBit0(Shl1(h))), p + 1;
      } else {
        break;
      }
    }
  }

  /** One pass of the token loop: narrow to the symbol's slot, then renormalise. */
  method EncodeSymbol(w: Writer, cdf: seq<nat>, s: nat, low: nat, high: nat, pending: nat, ghost rest: seq<nat>)
    returns (l: nat, h: nat, p: nat)
    requires ValidCdf(cdf) && s < |cdf| - 1 && ValidSyms(cdf, [s] + rest) && ValidSyms(cdf, rest) && Settled(low, high)
    requires w.Valid()
    requires |w.Contents()| + |EncodeFrom(cdf, low, high, pending, [s] + rest)| <= 8 * (w.out.Length - w.base)
    modifies w, w.out
    ensures Settled(l, h) && w.Valid() && w.out == old(w.out) && w.offset >= old(w.offset)
    ensures w.Contents() + EncodeFrom(cdf, l, h, p, rest) == old(w.Contents()) + EncodeFrom(cdf, low, high, pending, [s] + rest)
    ensures forall k :: 0 <= k < w.out.Length && !(w.base <= k < w.offset) ==> w.out[k] == old(w.out[k])
  {
    assert ([s] + rest)[1..] == rest;
    l, h := NarrowWords(cdf, low, high, s);
    l, h, p := Renormalise(w, l, h, pending, cdf, rest);
  }

  /** The final bits: enough to name a quarter inside the interval. */
  method Flush(w: Writer, low: nat, high: nat, pending: nat, ghost cdf: seq<nat>)
    requires ValidCdf(cdf) && Settled(low, high) && w.Valid()
    requires |w.Contents()| + |EncodeFrom(cdf, low, high, pending, [])| <= 8 * (w.out.Length - w.base)
    modifies w, w.out
    ensures w.Valid() && w.out == old(w.out) && w.offset >= old(w.offset)
    ensures w.Contents() == old(w.Contents()) + EncodeFrom(cdf, low, high, pending, [])
    ensures forall k :: 0 <= k < w.out.Length && !(w.base <= k < w.offset) ==> w.out[k] == old(w.out[k])
  {
    if low < QUARTER {
      w.AppendBitAndPending(0, pending + 1);
    } else {
      w.AppendBitAndPending(1, pending + 1);
    }
  }

  /** The token loop and the flush. */
  method EncodeTokens(w: Writer, cdf: seq<nat>, syms: seq<nat>)
    requires ValidCdf(cdf) && ValidSyms(cdf, syms)
    requires w.Valid() && w.Contents() == [] && |EncodeBits(cdf, syms)| <= 8 * (w.out.Length - w.base)
    modifies w, w.out
    ensures w.Valid() && w.out == old(w.out) && w.Contents() == EncodeBits(cdf, syms)
    ensures forall k :: 0 <= k < w.out.Length && !(w.base <= k < w.offset) ==> w.out[k] == old(w.out[k])
  {
    ghost var goal := EncodeBits(cdf, syms);
    var low: nat, high: nat, pending: nat := 0, FULL - 1, 0;
    assert syms[0..] == syms && [] + goal == goal;
    for i := 0 to |syms|
      invariant Settled(low, high) && w.Valid() && w.out == old(w.out)
      invariant w.Contents() + EncodeFrom(cdf, low, high, pending, syms[i..]) == goal
      invariant forall k :: 0 <= k < w.out.Length && !(w.base <= k < w.offset) ==> w.out[k] == old(w.out[k])
    {
      assert [syms[i]] + syms[i + 1..] == syms[i..];
      low, high, pending := EncodeSymbol(w, cdf, syms[i], low, high, pending, syms[i + 1..]);
    }
    Flush(w, low, high, pending, cdf);
  }

  /**
   Encode one channel into its row.  The caller must have made the row large
   enough for the stream (StreamLength bounds it); nothing outside the reported
   length is written.
   */
  method EncodeChannel(cdf: seq<nat>, syms: seq<nat>, out: array<byte>, base: nat) returns (len: nat)
    requires ValidCdf(cdf) && ValidSyms(cdf, syms)
    requires base <= out.Length && |EncodeBits(cdf, syms)| <= 8 * (out.Length - base)
    modifies out
    ensures len == (|EncodeBits(cdf, syms)| + 7) / 8 && base + len <= out.Length
    ensures Unpack(out[base..base + len]) == EncodeBits(cdf, syms) + Rep(0, 8 * len - |EncodeBits(cdf, syms)|)
    ensures forall k :: 0 <= k < out.Length && !(base <= k < base + len) ==> out[k] == old(out[k])
  {
    var w := new Writer(out, base);
    EncodeTokens(w, cdf, syms);
    w.SpillPartial();
    len := w.offset - base;
  }

  // ---------------------------------------------------------------- decoder

  /** Binary search over cdf[0..maxSym]: the last entry not above target. */
  method Binsearch(cdf: seq<nat>, target: nat, maxSym: nat) returns (s: nat)
    requires |cdf| >= maxSym + 1 && cdf[0] == 0
    requires forall i, j :: 0 <= i < j <= maxSym ==> cdf[i] < cdf[j]
    ensures s <= maxSym && cdf[s] <= target
    ensures s < maxSym ==> target < cdf[s + 1]
  {
    var left: nat, right: nat := 0, maxSym + 1;
    while left + 1 < right
      invariant left < right <= maxSym + 1
      invariant cdf[left] <= target
      invariant right <= maxSym ==> target < cdf[right]
    {
      var m := (left + right) / 2;
      if cdf[m] < target {
        left := m;
      } else if cdf[m] > target {
        right := m;
      } else {
        return m;
      }
    }
    s := left;
  }

  lemma {:induction false} BitOfByte(x: nat, n: nat, j: nat)
    requires j < n
    ensures ToBits(x, n)[j] == x / Pow2(n - 1 - j) % 2
  {
    if j < n - 1 {
      BitOfByte(x / 2, n - 1, j);
      DivTwice(x, Pow2(n - 2 - j));
    }
  }

  lemma DivTwice(x: nat, d: nat)
    requires d > 0
    ensures x / 2 / d == x / (2 * d)
  {
    var q := x / 2 / d;
    var r := x / 2 % d;
    assert x / 2 == d * q + r;
    assert 2 * (d * q) == (2 * d) * q;
    DivUnique(x, 2 * d, q, 2 * r + x % 2);
  }

  lemma DivUnique(x: nat, d: nat, q: nat, r: nat)
    requires x == d * q + r && r < d
    ensures x / d == q
  {
    if x / d < q {
      MulLe(d, x / d + 1, q);
    } else if x / d > q {
      MulLe(d, q + 1, x / d);
    }
  }

  /** The decoder's position in its row and whatever memory follows it. */
  datatype Cursor = Cursor(byteBuffer: byte, bitIdx: nat, offset: nat)
  {
    ghost predicate Valid(bytes: seq<byte>)
    {
      4 <= offset < |bytes| && 1 <= bitIdx <= 8 && byteBuffer == bytes[offset]
    }

    /** Stream position of the next bit. */
    ghost function Pos(): nat
      requires bitIdx >= 1
    {
      8 * offset + bitIdx - 1
    }
  }

  /** Take the next bit; a byte is fetched as soon as the previous one is used up. */
  method TakeBit(bytes: seq<byte>, c: Cursor) returns (b: bit, c': Cursor)
    requires c.Valid(bytes) && (c.Pos() + 1) / 8 < |bytes|
    ensures c'.Valid(bytes) && c'.Pos() == c.Pos() + 1
    ensures b == Head(Unpack(bytes)[c.Pos()..]) && Unpack(bytes)[c'.Pos()..] == Tail(Unpack(bytes)[c.Pos()..])
  {
    b := c.byteBuffer / Pow2(8 - c.bitIdx) % 2;
    BitOfByte(c.byteBuffer, 8, c.bitIdx - 1);
    UnpackAt(bytes, c.offset, c.bitIdx - 1);
    c' := c.(bitIdx := c.bitIdx + 1);
    if c'.bitIdx == 9 {
      c' := Cursor(bytes[c.offset + 1], 1, c.offset + 1);
    }
  }

  /** Everything the decoder will produce and consume from a state still to be renormalised. */
  ghost function Ahead(cdf: seq<nat>, low: nat, high: nat, value: nat, stream: seq<bit>, n: nat): (seq<nat>, nat)
    requires ValidCdf(cdf) && Interval(low, high) && low <= value <= high
  {
    (DecodeShift(cdf, low, high, value, stream, n), ShiftsIn(cdf, low, high, value, stream, n))
  }

  /** What each renormalisation case subtracts from the doubled registers. */
  function Drop(low: nat, high: nat): nat
  {
    if high < HALF then 0 else if low >= HALF then FULL else HALF
  }

  /** Registers after one decoder shift. */
  function ShiftedWords(low: nat, high: nat, value: nat, b: bit): (nat, nat, nat)
  {
    if low >= HALF || high < HALF then (Shl1(low), SetBit0(Shl1(high)), Shl1(value) + b)
    else (ClearTop(Shl1(low)), SetTop(SetBit0(Shl1(high))), Shl1(W32(value - QUARTER)) + b)
  }

  lemma ValueDouble(low: nat, high: nat, value: nat)
    requires Interval(low, high) && low <= value <= high
    ensures high < HALF ==> Shl1(value) == 2 * value
    ensures low >= HALF ==> Shl1(value) == 2 * value - FULL
  {
  }

  lemma ValueMiddle(value: nat)
    requires QUARTER <= value < THREE_QUARTERS
    ensures Shl1(W32(value - QUARTER)) == 2 * value - HALF
  {
    assert W32(value - QUARTER) == value - QUARTER;
  }

  lemma ShiftedWordsDouble(low: nat, high: nat, value: nat, b: bit)
    requires Interval(low, high) && low <= value <= high && !Settled(low, high)
    ensures var c := Drop(low, high);
            && 2 * low >= c && ShiftedWords(low, high, value, b) == (2 * low - c, 2 * high + 1 - c, 2 * value + b - c)
            && Interval(2 * low - c, 2 * high + 1 - c)
  {
    if low >= HALF || high < HALF {
      WordDouble(low, high);
      ValueDouble(low, high, value);
    } else {
      WordMiddle(low, high);
      ValueMiddle(value);
    }
  }

  lemma AheadStep(cdf: seq<nat>, low: nat, high: nat, value: nat, stream: seq<bit>, n: nat)
    requires ValidCdf(cdf) && Interval(low, high) && low <= value <= high && !Settled(low, high)
    requires 2 * low >= Drop(low, high) && Interval(2 * low - Drop(low, high), 2 * high + 1 - Drop(low, high))
    ensures var c := Drop(low, high);
            var next := Ahead(cdf, 2 * low - c, 2 * high + 1 - c, 2 * value + Head(stream) - c, Tail(stream), n);
            Ahead(cdf, low, high, value, stream, n).0 == next.0 && Ahead(cdf, low, high, value, stream, n).1 == next.1 + 1
  {
  }

  /** One decoder shift follows the specification. */
  method ShiftValue(bytes: seq<byte>, c: Cursor, low: nat, high: nat, value: nat, ghost cdf: seq<nat>, ghost n: nat)
    returns (l: nat, h: nat, v: nat, c': Cursor)
    requires ValidCdf(cdf) && Interval(low, high) && low <= value <= high && !Settled(low, high)
    requires c.Valid(bytes) && (c.Pos() + 1) / 8 < |bytes|
    ensures Interval(l, h) && l <= v <= h && h - l == 2 * (high - low) + 1 && c'.Valid(bytes) && c'.Pos() == c.Pos() + 1
    ensures Ahead(cdf, l, h, v, Unpack(bytes)[c'.Pos()..], n).0 == Ahead(cdf, low, high, value, Unpack(bytes)[c.Pos()..], n).0
    ensures Ahead(cdf, l, h, v, Unpack(bytes)[c'.Pos()..], n).1 + 1 == Ahead(cdf, low, high, value, Unpack(bytes)[c.Pos()..], n).1
  {
    ghost var stream := Unpack(bytes)[c.Pos()..];
    var b;
    b, c' := TakeBit(bytes, c);
    var words := ShiftedWords(low, high, value, b);
    l, h, v := words.0, words.1, words.2;
    ShiftAhead(cdf, low, high, value, stream, n, l, h, v);
    assert Tail(stream) == Unpack(bytes)[c'.Pos()..];
  }

  lemma ShiftAhead(cdf: seq<nat>, low: nat, high: nat, value: nat, stream: seq<bit>, n: nat, l: nat, h: nat, v: nat)
    requires ValidCdf(cdf) && Interval(low, high) && low <= value <= high && !Settled(low, high)
    requires ShiftedWords(low, high, value, Head(stream)) == (l, h, v)
    ensures Interval(l, h) && l <= v <= h && h - l == 2 * (high - low) + 1
    ensures Ahead(cdf, l, h, v, Tail(stream), n).0 == Ahead(cdf, low, high, value, stream, n).0
    ensures Ahead(cdf, l, h, v, Tail(stream), n).1 + 1 == Ahead(cdf, low, high, value, stream, n).1
  {
    ShiftedWordsDouble(low, high, value, Head(stream));
    AheadStep(cdf, low, high, value, stream, n);
  }

  /** Renormalisation mirrored: the register is doubled with the bounds. */
  method RenormaliseValue(bytes: seq<byte>, c: Cursor, low: nat, high: nat, value: nat, ghost cdf: seq<nat>, ghost n: nat)
    returns (l: nat, h: nat, v: nat, c': Cursor)
    requires ValidCdf(cdf) && Interval(low, high) && low <= value <= high && c.Valid(bytes)
    requires (c.Pos() + Ahead(cdf, low, high, value, Unpack(bytes)[c.Pos()..], n).1) / 8 < |bytes|
    ensures Settled(l, h) && l <= v <= h && c'.Valid(bytes)
    ensures Ahead(cdf, low, high, value, Unpack(bytes)[c.Pos()..], n).0 == Ahead(cdf, l, h, v, Unpack(bytes)[c'.Pos()..], n).0
    ensures Ahead(cdf, low, high, value, Unpack(bytes)[c.Pos()..], n).1 + c.Pos() == Ahead(cdf, l, h, v, Unpack(bytes)[c'.Pos()..], n).1 + c'.Pos()
  {
    l, h, v, c' := low, high, value, c;
    ghost var goal := Ahead(cdf, low, high, value, Unpack(bytes)[c.Pos()..], n);
    while (l >= HALF || h < HALF) || (l >= QUARTER && h < THREE_QUARTERS)
      invariant Interval(l, h) && l <= v <= h && c'.Valid(bytes) && c'.Pos() >= c.Pos()
      invariant Ahead(cdf, l, h, v, Unpack(bytes)[c'.Pos()..], n).0 == goal.0
      invariant Ahead(cdf, l, h, v, Unpack(bytes)[c'.Pos()..], n).1 + c'.Pos() == goal.1 + c.Pos()
      decreases FULL - (h - l)
    {
      l, h, v, c' := ShiftValue(bytes, c', l, h, v, cdf, n);
    }
  }

  /** The search finds the symbol whose slot holds the count. */
  method FindSymbol(cdf: seq<nat>, low: nat, high: nat, value: nat) returns (s: nat)
    requires ValidCdf(cdf) && low <= value <= high
    ensures s == SymbolAt(cdf, low, high, value)
  {
    var span := high - low + 1;
    CountBound(low, high, value);
    var count := ((value - low + 1) * SCALE - 1) / span;
    s := Binsearch(cdf, count, |cdf| - 2);
    SlotUnique(cdf, s, FindSlot(cdf, count, |cdf| - 2), count);
  }

  /** Unfolding the specification by one symbol. */
  lemma AheadSymbol(cdf: seq<nat>, low: nat, high: nat, value: nat, stream: seq<bit>, n: nat, s: nat)
    requires ValidCdf(cdf) && Settled(low, high) && low <= value <= high && n > 0 && s == SymbolAt(cdf, low, high, value)
    ensures n == 1 ==> Ahead(cdf, low, high, value, stream, n).0 == [s]
    ensures n > 1 ==> var (l, h) := (NarrowLow(low, high, CLow(cdf, s)), NarrowHigh(low, high, CHigh(cdf, s)));
                      && Interval(l, h) && l <= value <= h
                      && var next := Ahead(cdf, l, h, value, stream, n - 1);
                         Ahead(cdf, low, high, value, stream, n).0 == [s] + next.0 && Ahead(cdf, low, high, value, stream, n).1 == next.1
  {
    NarrowInside(low, high, CLow(cdf, s), CHigh(cdf, s));
    AheadSettled(cdf, low, high, value, stream, n);
    assert [s] + [] == [s];
  }

  lemma AheadSettled(cdf: seq<nat>, low: nat, high: nat, value: nat, stream: seq<bit>, n: nat)
    requires ValidCdf(cdf) && Settled(low, high) && low <= value <= high
    ensures Ahead(cdf, low, high, value, stream, n).0 == DecodeFrom(cdf, low, high, value, stream, n)
    ensures Ahead(cdf, low, high, value, stream, n).1 == ShiftsFrom(cdf, low, high, value, stream, n)
  {
  }

  /** One pass of the decoding loop other than the last. */
  method DecodeSymbol(bytes: seq<byte>, c: Cursor, cdf: seq<nat>, low: nat, high: nat, value: nat, s: nat, ghost n: nat)
    returns (l: nat, h: nat, v: nat, c': Cursor)
    requires ValidCdf(cdf) && Settled(low, high) && low <= value <= high && c.Valid(bytes) && n > 1
    requires s == SymbolAt(cdf, low, high, value)
    requires (c.Pos() + Ahead(cdf, low, high, value, Unpack(bytes)[c.Pos()..], n).1) / 8 < |bytes|
    ensures Settled(l, h) && l <= v <= h && c'.Valid(bytes)
    ensures Ahead(cdf, low, high, value, Unpack(bytes)[c.Pos()..], n).0 == [s] + Ahead(cdf, l, h, v, Unpack(bytes)[c'.Pos()..], n - 1).0
    ensures Ahead(cdf, low, high, value, Unpack(bytes)[c.Pos()..], n).1 + c.Pos() == Ahead(cdf, l, h, v, Unpack(bytes)[c'.Pos()..], n - 1).1 + c'.Pos()
  {
    AheadSymbol(cdf, low, high, value, Unpack(bytes)[c.Pos()..], n, s);
    l, h := NarrowWords(cdf, low, high, s);
    l, h, v, c' := RenormaliseValue(bytes, c, l, h, value, cdf, n - 1);
  }

  /** The first four bytes, big-endian. */
  method LoadWord(bytes: seq<byte>) returns (value: nat)
    requires |bytes| >= 4
    ensures value == Val(Unpack(bytes)[..32]) < FULL
  {
    value := bytes[0] as nat * 0x100_0000 + bytes[1] as nat * 0x1_0000 + bytes[2] as nat * 0x100 + bytes[3] as nat;
    FirstWord(bytes);
    WordBound(Unpack(bytes)[..32]);
  }

  /**
   Decode n symbols from a row (and the memory behind it).  The only reads are
   of bytes up to 4 plus one eighth of the bits shifted in.
   */
  method DecodeChannel(cdf: seq<nat>, bytes: seq<byte>, n: nat) returns (syms: seq<nat>)
    requires ValidCdf(cdf) && |bytes| > 4
    requires 4 + ShiftsBits(cdf, Unpack(bytes), n) / 8 < |bytes|
    ensures syms == DecodeBits(cdf, Unpack(bytes), n)
  {
    var value := LoadWord(bytes);
    AheadSettled(cdf, 0, FULL - 1, value, Unpack(bytes)[32..], n);
    ghost var ahead := Ahead(cdf, 0, FULL - 1, value, Unpack(bytes)[32..], n);
    assert [] + ahead.0 == ahead.0;
    syms := DecodeLoop(cdf, bytes, n, 0, FULL - 1, value, Cursor(bytes[4], 1, 4), ahead.0, ahead.1 + 32);
  }

  /** With left symbols to go, what was decoded and what is ahead make up the goal, and the reads end at stop. */
  ghost predicate Decoding(cdf: seq<nat>, bytes: seq<byte>, low: nat, high: nat, value: nat, c: Cursor, left: nat, syms: seq<nat>, goal: seq<nat>, stop: nat)
    requires ValidCdf(cdf)
  {
    && Settled(low, high) && low <= value <= high && c.Valid(bytes)
    && syms + Ahead(cdf, low, high, value, Unpack(bytes)[c.Pos()..], left).0 == goal
    && Ahead(cdf, low, high, value, Unpack(bytes)[c.Pos()..], left).1 + c.Pos() == stop
  }

  /** Any symbol but the last: append it and renormalise. */
  method NextSymbol(cdf: seq<nat>, bytes: seq<byte>, low: nat, high: nat, value: nat, c: Cursor, s: nat, ghost left: nat, ghost syms: seq<nat>, ghost goal: seq<nat>, ghost stop: nat)
      returns (l: nat, h: nat, v: nat, c': Cursor)
    requires ValidCdf(cdf) && Decoding(cdf, bytes, low, high, value, c, left, syms, goal, stop) && left > 1 && stop / 8 < |bytes|
    requires s == SymbolAt(cdf, low, high, value)
    ensures Decoding(cdf, bytes, l, h, v, c', left - 1, syms + [s], goal, stop)
  {
    l, h, v, c' := DecodeSymbol(bytes, c, cdf, low, high, value, s, left);
    ConcatAssoc(syms, [s], Ahead(cdf, l, h, v, Unpack(bytes)[c'.Pos()..], left - 1).0);
  }

  lemma LastSymbol(cdf: seq<nat>, bytes: seq<byte>, low: nat, high: nat, value: nat, c: Cursor, s: nat, syms: seq<nat>, goal: seq<nat>, stop: nat)
    requires ValidCdf(cdf) && Decoding(cdf, bytes, low, high, value, c, 1, syms, goal, stop) && s == SymbolAt(cdf, low, high, value)
    ensures syms + [s] == goal
  {
    AheadSymbol(cdf, low, high, value, Unpack(bytes)[c.Pos()..], 1, s);
  }

  lemma NoSymbol(cdf: seq<nat>, bytes: seq<byte>, low: nat, high: nat, value: nat, c: Cursor, syms: seq<nat>, goal: seq<nat>, stop: nat)
    requires ValidCdf(cdf) && Decoding(cdf, bytes, low, high, value, c, 0, syms, goal, stop)
    ensures syms == goal
  {
    AheadSettled(cdf, low, high, value, Unpack(bytes)[c.Pos()..], 0);
    assert syms + [] == syms;
  }

  /** The symbol loop; after the last symbol nothing is shifted in. */
  method DecodeLoop(cdf: seq<nat>, bytes: seq<byte>, n: nat, low0: nat, high0: nat, value0: nat, c0: Cursor, ghost goal: seq<nat>, ghost stop: nat) returns (syms: seq<nat>)
    requires ValidCdf(cdf) && Decoding(cdf, bytes, low0, high0, value0, c0, n, [], goal, stop) && stop / 8 < |bytes|
    ensures syms == goal
  {
    var low, high, value, c := low0, high0, value0, c0;
    syms := [];
    var i := 0;
    while i < n
      invariant 0 <= i <= n && Decoding(cdf, bytes, low, high, value, c, n - i, syms, goal, stop)
    {
      var s := FindSymbol(cdf, low, high, value);
      if i == n - 1 {
        LastSymbol(cdf, bytes, low, high, value, c, s, syms, goal, stop);
        return syms + [s];
      }
      low, high, value, c := NextSymbol(cdf, bytes, low, high, value, c, s, n - i, syms, goal, stop);
      syms := syms + [s];
      i := i + 1;
    }
    NoSymbol(cdf, bytes, low, high, value, c, syms, goal, stop);
  }

  lemma FirstWord(bytes: seq<byte>)
    requires |bytes| >= 4
    ensures Val(Unpack(bytes)[..32])
         == bytes[0] as nat * 0x100_0000 + bytes[1] as nat * 0x1_0000 + bytes[2] as nat * 0x100 + bytes[3] as nat
  {
    var w := bytes[..4];
    UnpackPrefix(bytes, 4);
    UnpackVal(w);
    WordVal(w);
    Pow2Constants();
    ValToBits(BytesVal(w), 32);
  }

  lemma UnpackPrefix(bytes: seq<byte>, k: nat)
    requires k <= |bytes|
    ensures Unpack(bytes)[..8 * k] == Unpack(bytes[..k])
  {
    var (head, tail) := (bytes[..k], bytes[k..]);
    FrontAndBack(bytes, k);
    UnpackConcat(head, tail);
    assert |Unpack(head)| == 8 * k;
    TakeFront(Unpack(head), Unpack(tail));
  }

  lemma TakeFront<T>(a: seq<T>, b: seq<T>)
    ensures (a + b)[..|a|] == a
  {
  }
}
