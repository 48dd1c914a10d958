/**
 The encoder's output side: a 32-bit register that is spilled, big-endian, into
 this channel's row of a byte buffer shared with the other channels.
 */
module BitWriter {
  import opened Bits
  import opened Sequences

  const WORD: nat := 0x1_0000_0000

  /** Shifting a run of r equal bits into a register appends them to its bit string. */
  lemma ShiftInRun(reg: nat, len: nat, b: bit, r: nat)
    requires reg < Pow2(len)
    ensures reg * Pow2(r) + b * (Pow2(r) - 1) < Pow2(len + r)
    ensures ToBits(reg * Pow2(r) + b * (Pow2(r) - 1), len + r) == ToBits(reg, len) + Rep(b, r)
  {
    ToBitsRun(b, r);
    var q := Pow2(r);
    assert b * (q - 1) < q;
    ToBitsConcat(reg, len, b * (q - 1), r);
    Pow2Add(len, r);
    MulStep(reg, Pow2(len), q);
  }

  /** The register after `reg <<= r; reg |= (b << r) - b`: the low bits were clear, so the or is a sum. */
  function ShiftedReg(reg: nat, b: bit, r: nat): nat
  {
    reg * Pow2(r) % WORD + b * (Pow2(r) - 1)
  }

  lemma ShiftInWord(reg: nat, len: nat, b: bit, r: nat)
    requires reg < Pow2(len) && len + r <= 32
    ensures ShiftedReg(reg, b, r) < Pow2(len + r) <= WORD
    ensures ToBits(ShiftedReg(reg, b, r), len + r) == ToBits(reg, len) + Rep(b, r)
  {
    ShiftInRun(reg, len, b, r);
    WordFits(len + r);
    NoWrap(reg, b, Pow2(r), Pow2(len + r));
  }

  lemma NoWrap(reg: nat, b: bit, q: nat, bound: nat)
    requires q > 0 && reg * q + b * (q - 1) < bound <= WORD
    ensures reg * q % WORD == reg * q
  {
    BitTimes(b, q - 1);
    SmallMod(reg * q, WORD);
  }

  lemma BitTimes(b: bit, x: nat)
    ensures 0 <= b * x <= x
  {
  }

  lemma SmallMod(x: nat, m: nat)
    requires x < m
    ensures x % m == x
  {
  }

  lemma WordFits(n: nat)
    requires n <= 32
    ensures Pow2(n) <= WORD
  {
    Pow2Constants();
    Pow2Monotone(n, 32);
  }

  lemma MulStep(x: nat, y: nat, q: nat)
    requires x < y
    ensures x * q + q <= y * q
  {
    assert (x + 1) * q <= y * q;
  }

  function WordBytes(reg: nat): (w: seq<byte>)
    requires reg < WORD
    ensures |w| == 4
  {
    [reg / 0x100_0000, reg / 0x1_0000 % 256, reg / 0x100 % 256, reg % 256]
  }

  lemma WordSplit(reg: nat)
    requires reg < WORD
    ensures BytesVal(WordBytes(reg)) == reg
  {
    WordVal(WordBytes(reg));
    var r1 := reg / 256;
    var r2 := r1 / 256;
    assert reg / 0x1_0000 == r2;
    assert reg / 0x100_0000 == r2 / 256;
  }

  /** Writing the four bytes of a full register appends its 32 bits. */
  lemma SpillWord(before: seq<byte>, reg: nat)
    requires reg < WORD
    ensures Unpack(before + WordBytes(reg)) == Unpack(before) + ToBits(reg, 32)
  {
    UnpackConcat(before, WordBytes(reg));
    UnpackVal(WordBytes(reg));
    WordSplit(reg);
  }

  lemma ZeroBits(n: nat)
    ensures ToBits(0, n) == Rep(0, n)
  {
    ToBitsRun(0, n);
  }

  /** Writing the top byte of a register and shifting it out moves eight bits. */
  lemma SpillByte(before: seq<byte>, reg: nat)
    requires reg < WORD
    ensures Unpack(before + [reg / 0x100_0000]) + ToBits(reg * 256 % WORD, 32)
         == Unpack(before) + ToBits(reg, 32) + Rep(0, 8)
  {
    TopAndLow(reg);
    SpillTop(before, reg / 0x100_0000, reg % 0x100_0000);
  }

  lemma TopAndLow(reg: nat)
    requires reg < WORD
    ensures reg / 0x100_0000 < 256 && reg == reg / 0x100_0000 * 0x100_0000 + reg % 0x100_0000
    ensures reg * 256 % WORD == reg % 0x100_0000 * 0x100
  {
  }

  lemma TopBits(top: byte, low: nat)
    requires low < 0x100_0000
    ensures ToBits(top * 0x100_0000 + low, 32) == ToBits(top, 8) + ToBits(low, 24)
  {
    Pow2Constants();
    ToBitsSplit(top, 8, low, 24, 0x100_0000, 32);
  }

  lemma LowBits(low: nat)
    requires low < 0x100_0000
    ensures ToBits(low * 0x100, 32) == ToBits(low, 24) + Rep(0, 8)
  {
    Pow2Constants();
    ToBitsSplit(low, 24, 0, 8, 0x100, 32);
    ZeroBits(8);
  }

  lemma ByteBits(before: seq<byte>, top: byte)
    ensures Unpack(before + [top]) == Unpack(before) + ToBits(top, 8)
  {
    UnpackConcat(before, [top]);
    UnpackOne(top);
  }

  lemma SpillTop(before: seq<byte>, top: byte, low: nat)
    requires low < 0x100_0000
    ensures Unpack(before + [top]) + ToBits(low * 0x100, 32) == Unpack(before) + ToBits(top * 0x100_0000 + low, 32) + Rep(0, 8)
  {
    TopBits(top, low);
    LowBits(low);
    ByteBits(before, top);
    Regroup(Unpack(before), ToBits(top, 8), ToBits(low, 24), Rep(0, 8));
  }

  lemma Regroup<T>(a: seq<T>, b: seq<T>, c: seq<T>, d: seq<T>)
    ensures (a + b) + (c + d) == a + (b + c) + d
  {
  }

  class Writer {
    var out: array<byte>
    const base: nat
    var offset: nat
    var reg: nat
    var regLen: nat

    ghost predicate Valid()
      reads this
    {
      && base <= offset <= out.Length
      && regLen < 32
      && reg < Pow2(regLen)
    }

    /** Everything appended so far. */
    ghost function Contents(): (s: seq<bit>)
      requires Valid()
      reads this, out
      ensures |s| == 8 * (offset - base) + regLen
    {
      Unpack(out[base..offset]) + ToBits(reg, regLen)
    }

    constructor (out: array<byte>, base: nat)
      requires base <= out.Length
      ensures Valid() && this.out == out && this.base == base && offset == base && Contents() == []
    {
      this.out, this.base, this.offset := out, base, base;
      reg, regLen := 0, 0;
    }

    /** Write four bytes at the offset and advance. */
    method PutWord(w: seq<byte>)
      requires |w| == 4 && base <= offset && offset + 4 <= out.Length
      modifies this`offset, out
      ensures offset == old(offset) + 4 && out[base..offset] == old(out[base..offset]) + w
      ensures forall k :: 0 <= k < out.Length && !(old(offset) <= k < offset) ==> out[k] == old(out[k])
    {
      ghost var before := out[base..offset];
      out[offset], out[offset + 1], out[offset + 2], out[offset + 3] := w[0], w[1], w[2], w[3];
      offset := offset + 4;
      assert out[base..offset - 4] == before;
      assert out[base..offset] == before + w;
    }

    /** Spill a full register: the stream is unchanged, the register is empty. */
    method SpillReg()
      requires base <= offset && regLen == 32 && reg < WORD && offset + 4 <= out.Length
      modifies this, out
      ensures Valid() && out == old(out) && offset == old(offset) + 4 && regLen == 0
      ensures Contents() == Unpack(old(out[base..offset])) + ToBits(old(reg), 32)
      ensures forall k :: 0 <= k < out.Length && !(old(offset) <= k < offset) ==> out[k] == old(out[k])
    {
      ghost var before := out[base..offset];
      SpillWord(before, reg);
      PutWord(WordBytes(reg));
      reg, regLen := 0, 0;
    }

    /** Append num copies of bit b. */
    method AddBits(b: bit, num: nat)
      requires Valid()
      requires |Contents()| + num <= 8 * (out.Length - base)
      modifies this, out
      ensures Valid() && out == old(out) && offset >= old(offset)
      ensures Contents() == old(Contents()) + Rep(b, num)
      ensures forall k :: 0 <= k < out.Length && !(base <= k < offset) ==> out[k] == old(out[k])
    {
      var n: nat := num;
      ghost var start := Contents();
      while true
        invariant Valid() && out == old(out) && offset >= old(offset) && n <= num
        invariant Contents() == start + Rep(b, num - n)
        invariant forall k :: 0 <= k < out.Length && !(base <= k < offset) ==> out[k] == old(out[k])
        decreases n
      {
        n := ShiftIn(b, n);
        assert Rep(b, num - n) == Rep(b, num)[..num - n];
        if n == 0 {
          assert Rep(b, num)[..num] == Rep(b, num);
          break;
        }
      }
    }

    /** One pass of the loop: fill the register as far as it goes, spilling when full. */
    method ShiftIn(b: bit, n: nat) returns (left: nat)
      requires Valid()
      requires |Contents()| + n <= 8 * (out.Length - base)
      modifies this, out
      ensures Valid() && out == old(out) && offset >= old(offset)
      ensures left <= n && (n > 0 ==> left < n)
      ensures Contents() == old(Contents()) + Rep(b, n - left)
      ensures forall k :: 0 <= k < out.Length && !(base <= k < offset) ==> out[k] == old(out[k])
    {
      var remaining := if n <= 32 - regLen then n else 32 - regLen;
      ShiftInWord(reg, regLen, b, remaining);
      Pow2Constants();
      ConcatAssoc(Unpack(out[base..offset]), ToBits(reg, regLen), Rep(b, remaining));
      reg := ShiftedReg(reg, b, remaining);
      left := n - remaining;
      regLen := regLen + remaining;
      if regLen == 32 {
        SpillReg();
      }
    }

    /** A resolved bit settles the pending ones: they are its complements. */
    method AppendBitAndPending(b: bit, pending: nat)
      requires Valid()
      requires |Contents()| + 1 + pending <= 8 * (out.Length - base)
      modifies this, out
      ensures Valid() && out == old(out) && offset >= old(offset)
      ensures Contents() == old(Contents()) + ([b] + Rep(1 - b, pending))
      ensures forall k :: 0 <= k < out.Length && !(base <= k < offset) ==> out[k] == old(out[k])
    {
      AddBits(b, 1);
      AddBits(1 - b, pending);
      assert Rep(b, 1) == [b];
      ConcatAssoc(old(Contents()), Rep(b, 1), Rep(1 - b, pending));
    }

    /** Write one byte at the offset and advance. */
    method PutByte(x: byte)
      requires base <= offset < out.Length
      modifies this`offset, out
      ensures offset == old(offset) + 1 && out[base..offset] == old(out[base..offset]) + [x]
      ensures forall k :: 0 <= k < out.Length && k != old(offset) ==> out[k] == old(out[k])
    {
      out[offset] := x;
      offset := offset + 1;
      assert out[base..offset - 1] == old(out[base..offset]);
    }

    /** Write the top bytes of r, as many as hold len bits; tail is what is left of it. */
    method SpillBytes(r: nat, len: nat) returns (ghost tail: seq<bit>)
      requires base <= offset && r < WORD && offset + (len + 7) / 8 <= out.Length
      modifies this`offset, out
      ensures base <= offset <= out.Length && offset == old(offset) + (len + 7) / 8
      ensures Unpack(out[base..offset]) + tail
           == Unpack(old(out[base..offset])) + ToBits(r, 32) + Rep(0, 8 * (offset - old(offset)))
      ensures forall k :: 0 <= k < out.Length && !(old(offset) <= k < offset) ==> out[k] == old(out[k])
    {
      ghost var whole, first := Unpack(out[base..offset]) + ToBits(r, 32), offset;
      var top: nat, left: int := r, len;
      assert whole == whole + Rep(0, 0);
      while left > 0
        invariant left > -8 && first <= offset <= out.Length && left == len - 8 * (offset - first)
        invariant top < WORD
        invariant Unpack(out[base..offset]) + ToBits(top, 32) == whole + Rep(0, 8 * (offset - first))
        invariant forall k :: 0 <= k < out.Length && !(first <= k < offset) ==> out[k] == old(out[k])
      {
        PartialStep(out[base..offset], top, whole, offset - first);
        left := left - 8;
        PutByte(top / 0x100_0000);
        top := top * 256 % WORD;
      }
      tail := ToBits(top, 32);
    }

    /** The register shifted up to its top bit. */
    method TopAligned() returns (word: nat)
      requires Valid()
      ensures word < WORD && ToBits(word, 32) == ToBits(reg, regLen) + Rep(0, 32 - regLen)
    {
      ShiftInWord(reg, regLen, 0, 32 - regLen);
      word := ShiftedReg(reg, 0, 32 - regLen);
    }

    /** Flush the register, padding the last byte with zero bits. */
    method SpillPartial()
      requires Valid()
      requires |Contents()| <= 8 * (out.Length - base)
      modifies this, out
      ensures out == old(out) && base <= offset <= out.Length
      ensures offset - base == (|old(Contents())| + 7) / 8
      ensures Unpack(out[base..offset]) == old(Contents()) + Rep(0, 8 * (offset - base) - |old(Contents())|)
      ensures forall k :: 0 <= k < out.Length && !(base <= k < offset) ==> out[k] == old(out[k])
    {
      ghost var bytes, bits, first := Unpack(out[base..offset]), ToBits(reg, regLen), offset;
      var word := TopAligned();
      ghost var tail := SpillBytes(word, regLen);
      PartialDone(Unpack(out[base..offset]), tail, bytes, bits, ToBits(word, 32), regLen, offset - first);
    }
  }

  lemma ExtendLeft<T>(a: seq<T>, b: seq<T>, c: seq<T>, d: seq<T>, z: seq<T>)
    requires a + b == c + d
    ensures a + b + z == c + (d + z)
  {
  }

  lemma PartialStep(sofar: seq<byte>, r: nat, whole: seq<bit>, k: nat)
    requires r < WORD
    requires Unpack(sofar) + ToBits(r, 32) == whole + Rep(0, 8 * k)
    ensures Unpack(sofar + [r / 0x100_0000]) + ToBits(r * 256 % WORD, 32) == whole + Rep(0, 8 * (k + 1))
  {
    SpillByte(sofar, r);
    assert Rep(0, 8 * k) + Rep(0, 8) == Rep(0, 8 * (k + 1));
    ExtendLeft(Unpack(sofar), ToBits(r, 32), whole, Rep(0, 8 * k), Rep(0, 8));
  }

  /** The bytes written hold the register's bits and zeros up to a byte. */
  lemma PartialDone(a: seq<bit>, tail: seq<bit>, bytes: seq<bit>, bits: seq<bit>, word: seq<bit>, n: nat, k: nat)
    requires |bits| == n < 32 && word == bits + Rep(0, 32 - n) && k == (n + 7) / 8 && |a| == |bytes| + 8 * k
    requires a + tail == bytes + word + Rep(0, 8 * k)
    ensures a == bytes + bits + Rep(0, 8 * k - n)
  {
    ConcatAssoc(bytes, bits, Rep(0, 32 - n));
    PaddedPrefix(a, tail, bytes + bits, 32 - n, 8 * k);
  }

  /** A prefix of "s then zeros" that contains s is s with fewer zeros. */
  lemma PaddedPrefix(a: seq<bit>, b: seq<bit>, s: seq<bit>, m: nat, n: nat)
    requires a + b == (s + Rep(0, m)) + Rep(0, n)
    requires |a| >= |s|
    ensures a == s + Rep(0, |a| - |s|)
  {
    var z := (s + Rep(0, m)) + Rep(0, n);
    assert a == z[..|a|];
  }
}
