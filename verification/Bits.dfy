/**
 Bit strings and their big-endian packing into bytes: the vocabulary in which
 the arithmetic coder's output stream is described.
 */
module Bits {

  type bit = n: nat | n < 2
  type byte = n: nat | n < 256

  function Pow2(n: nat): (r: nat)
    ensures r >= 1
  {
    if n == 0 then 1 else 2 * Pow2(n - 1)
  }

  lemma Pow2Constants()
    ensures Pow2(8) == 0x100
    ensures Pow2(14) == 0x4000
    ensures Pow2(16) == 0x10000
    ensures Pow2(24) == 0x100_0000
    ensures Pow2(30) == 0x4000_0000
    ensures Pow2(31) == 0x8000_0000
    ensures Pow2(32) == 0x1_0000_0000
  {
    assert Pow2(4) == 16;
    Pow2Add(4, 4);
    Pow2Add(8, 8);
    Pow2Add(8, 4);
    Pow2Add(12, 2);
    Pow2Add(16, 8);
    Pow2Add(16, 14);
    assert Pow2(31) == 2 * Pow2(30);
    assert Pow2(32) == 2 * Pow2(31);
  }

  lemma {:induction false} Pow2Add(a: nat, b: nat)
    ensures Pow2(a + b) == Pow2(a) * Pow2(b)
  {
    if b != 0 {
      Pow2Add(a, b - 1);
      calc {
        Pow2(a + b);
        2 * Pow2(a + b - 1);
        2 * (Pow2(a) * Pow2(b - 1));
        Pow2(a) * (2 * Pow2(b - 1));
      }
    }
  }

  lemma {:induction false} Pow2Monotone(a: nat, b: nat)
    requires a <= b
    ensures Pow2(a) <= Pow2(b)
  {
    if a < b {
      Pow2Monotone(a, b - 1);
    }
  }

  /** The number a bit string denotes, most significant bit first. */
  function Val(s: seq<bit>): nat
  {
    if s == [] then 0 else 2 * Val(s[..|s| - 1]) + s[|s| - 1]
  }

  lemma {:induction false} ValBound(s: seq<bit>)
    ensures Val(s) < Pow2(|s|)
  {
    if s != [] {
      ValBound(s[..|s| - 1]);
    }
  }

  lemma DoubleProduct(x: int, y: int)
    ensures x * (2 * y) == 2 * (x * y)
  {
  }

  lemma {:induction false} ValConcat(a: seq<bit>, b: seq<bit>)
    ensures Val(a + b) == Val(a) * Pow2(|b|) + Val(b)
  {
    if b == [] {
      assert a + b == a;
    } else {
      var b' := b[..|b| - 1];
      ValConcat(a, b');
      assert (a + b)[..|a + b| - 1] == a + b';
      DoubleProduct(Val(a), Pow2(|b'|));
    }
  }

  function Rep(b: bit, n: nat): (s: seq<bit>)
    ensures |s| == n && forall i :: 0 <= i < n ==> s[i] == b
  {
    seq(n, _ => b)
  }

  /** The low n bits of x, most significant first. */
  function ToBits(x: nat, n: nat): (s: seq<bit>)
    ensures |s| == n
  {
    if n == 0 then [] else ToBits(x / 2, n - 1) + [x % 2]
  }

  lemma {:induction false} ValToBits(x: nat, n: nat)
    requires x < Pow2(n)
    ensures Val(ToBits(x, n)) == x
  {
    if n != 0 {
      ValToBits(x / 2, n - 1);
      assert ToBits(x, n)[..n - 1] == ToBits(x / 2, n - 1);
    }
  }

  lemma {:induction false} ToBitsConcat(x: nat, m: nat, y: nat, n: nat)
    requires y < Pow2(n)
    ensures ToBits(x * Pow2(n) + y, m + n) == ToBits(x, m) + ToBits(y, n)
  {
    if n == 0 {
      assert x * Pow2(n) + y == x;
    } else {
      var z := x * Pow2(n) + y;
      assert z == 2 * (x * Pow2(n - 1)) + y by {
        assert x * Pow2(n) == x * (2 * Pow2(n - 1)) == 2 * (x * Pow2(n - 1));
      }
      assert z / 2 == x * Pow2(n - 1) + y / 2 && z % 2 == y % 2;
      ToBitsConcat(x, m, y / 2, n - 1);
      assert ToBits(x, m) + (ToBits(y / 2, n - 1) + [y % 2]) == (ToBits(x, m) + ToBits(y / 2, n - 1)) + [y % 2];
    }
  }

  /** A run of equal bits as a number: all zeros, or 2^n - 1. */
  lemma {:induction false} ToBitsRun(b: bit, n: nat)
    ensures ToBits(b * (Pow2(n) - 1), n) == Rep(b, n)
  {
    if n != 0 {
      ToBitsRun(b, n - 1);
      assert b * (Pow2(n) - 1) == 2 * (b * (Pow2(n - 1) - 1)) + b;
      assert Rep(b, n) == Rep(b, n - 1) + [b];
    }
  }

  /** The bit string held by a byte string, each byte most significant bit first. */
  function Unpack(bytes: seq<byte>): (s: seq<bit>)
    ensures |s| == 8 * |bytes|
  {
    if bytes == [] then [] else Unpack(bytes[..|bytes| - 1]) + ToBits(bytes[|bytes| - 1], 8)
  }

  lemma {:induction false} UnpackConcat(a: seq<byte>, b: seq<byte>)
    ensures Unpack(a + b) == Unpack(a) + Unpack(b)
  {
    if b == [] {
      assert a + b == a;
    } else {
      var b' := b[..|b| - 1];
      UnpackConcat(a, b');
      assert (a + b)[..|a + b| - 1] == a + b';
    }
  }

  lemma UnpackOne(x: byte)
    ensures Unpack([x]) == ToBits(x, 8)
  {
    assert Unpack([x][..0]) == [];
  }

  /** Byte k of a packed stream holds bits 8k to 8k+7. */
  lemma {:induction false} UnpackAt(bytes: seq<byte>, k: nat, j: nat)
    requires k < |bytes| && j < 8
    ensures Unpack(bytes)[8 * k + j] == ToBits(bytes[k], 8)[j]
  {
    if k < |bytes| - 1 {
      UnpackAt(bytes[..|bytes| - 1], k, j);
    }
  }

  /** The number a byte string denotes, most significant byte first. */
  function BytesVal(bytes: seq<byte>): nat
  {
    if bytes == [] then 0 else 256 * BytesVal(bytes[..|bytes| - 1]) + bytes[|bytes| - 1]
  }

  /** Two numbers side by side, the lower one n bits wide. */
  lemma ToBitsSplit(x: nat, m: nat, y: nat, n: nat, p: nat, k: nat)
    requires p == Pow2(n) && y < p && k == m + n
    ensures ToBits(x * p + y, k) == ToBits(x, m) + ToBits(y, n)
  {
    ToBitsConcat(x, m, y, n);
  }

  lemma AppendByte(v: nat, n: nat, x: byte)
    requires v < Pow2(n)
    ensures 256 * v + x < Pow2(n + 8)
    ensures ToBits(256 * v + x, n + 8) == ToBits(v, n) + ToBits(x, 8)
  {
    Pow2Constants();
    Pow2Add(n, 8);
    ToBitsSplit(v, n, x, 8, 256, n + 8);
  }

  lemma {:induction false} UnpackVal(bytes: seq<byte>)
    ensures BytesVal(bytes) < Pow2(8 * |bytes|)
    ensures Unpack(bytes) == ToBits(BytesVal(bytes), 8 * |bytes|)
  {
    if bytes != [] {
      var (init, last) := (bytes[..|bytes| - 1], bytes[|bytes| - 1]);
      UnpackVal(init);
      var (v, n) := (BytesVal(init), 8 * |init|);
      assert BytesVal(bytes) == 256 * v + last && 8 * |bytes| == n + 8;
      AppendByte(v, n, last);
    }
  }

  lemma WordVal(bytes: seq<byte>)
    requires |bytes| == 4
    ensures BytesVal(bytes) == bytes[0] as nat * 0x100_0000 + bytes[1] as nat * 0x1_0000 + bytes[2] as nat * 0x100 + bytes[3] as nat
    ensures BytesVal(bytes) < 0x1_0000_0000
  {
    var b3, b2, b1 := bytes[..3], bytes[..2], bytes[..1];
    assert b3[..2] == b2 && b2[..1] == b1 && b1[..0] == [];
    assert BytesVal(b1) == bytes[0];
    assert BytesVal(b2) == 256 * BytesVal(b1) + bytes[1];
    assert BytesVal(b3) == 256 * BytesVal(b2) + bytes[2];
  }
}
