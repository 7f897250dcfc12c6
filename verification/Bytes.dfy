/** Bytes, fixed-width little-endian words and alignment, as the writers use them. */
module Bytes {
  type byte = x: int | 0 <= x < 256

  const TWO32 := 0x1_0000_0000

  type uint32 = x: int | 0 <= x < TWO32

  /** Truncation of a wider value to 32 bits: the remainder, by cases on the usual ranges. */
  function Wrap32(x: int): uint32 {
    if 0 <= x < TWO32 then x
    else if -TWO32 <= x < 0 then x + TWO32
    else if TWO32 <= x < 2 * TWO32 then x - TWO32
    else x % TWO32
  }

  function U16(x: int): (r: seq<byte>)
    requires 0 <= x < 0x1_0000
    ensures |r| == 2
  {
    [x % 256, x / 256]
  }

  /** The low `n` bytes of `x`, least significant first. */
  function LittleEndian(x: nat, n: nat): (r: seq<byte>)
    ensures |r| == n
    decreases n
  {
    if n == 0 then [] else [x % 256] + LittleEndian(x / 256, n - 1)
  }

  function FromLittleEndian(b: seq<byte>): nat {
    if b == [] then 0 else b[0] as int + 256 * FromLittleEndian(b[1..])
  }

  function Power256(n: nat): (r: nat)
    ensures r > 0
  {
    if n == 0 then 1 else 256 * Power256(n - 1)
  }

  /** Encoding in enough bytes loses nothing. */
  lemma {:induction false} LittleEndianReadsBack(x: nat, n: nat)
    requires x < Power256(n)
    ensures FromLittleEndian(LittleEndian(x, n)) == x
    decreases n
  {
    if n > 0 {
      LittleEndianReadsBack(x / 256, n - 1);
    }
  }

  function U32(x: uint32): (r: seq<byte>)
    ensures |r| == 4
  {
    LittleEndian(x, 4)
  }

  lemma U32ReadsBack(x: uint32)
    ensures FromLittleEndian(U32(x)) == x
  {
    assert Power256(4) == TWO32 by {
      assert Power256(2) == 0x1_0000;
    }
    LittleEndianReadsBack(x, 4);
  }

  /** The 32-bit word at `pos`. */
  function Word(data: seq<byte>, pos: nat): (w: uint32)
    requires pos + 4 <= |data|
  {
    WordInRange(data[pos..pos + 4]);
    FromLittleEndian(data[pos..pos + 4])
  }

  lemma WordInRange(b: seq<byte>)
    requires |b| == 4
    ensures FromLittleEndian(b) < TWO32
  {
    assert FromLittleEndian(b) == b[0] as int + 256 * FromLittleEndian(b[1..]);
    assert FromLittleEndian(b[1..]) == b[1] as int + 256 * FromLittleEndian(b[1..][1..]);
    assert b[1..][1..] == b[2..] && b[2..][1..] == b[3..] && b[3..][1..] == [];
    assert FromLittleEndian(b[2..]) == b[2] as int + 256 * FromLittleEndian(b[3..]);
    assert FromLittleEndian(b[3..]) == b[3] as int;
  }

  /** Consecutive words. */
  function U32s(xs: seq<uint32>): (r: seq<byte>)
    ensures |r| == 4 * |xs|
  {
    if xs == [] then [] else U32(xs[0]) + U32s(xs[1..])
  }

  /** The least multiple of `n` that is not below `x`. */
  function RoundUp(x: nat, n: nat): (r: nat)
    requires n > 0
    ensures x <= r < x + n
  {
    if x == 0 then 0 else if x <= n then n else n + RoundUp(x - n, n)
  }

  lemma {:induction false} RoundUpAligned(x: nat, n: nat)
    requires n > 0
    ensures RoundUp(x, n) % n == 0
    decreases x
  {
    if x > n {
      RoundUpAligned(x - n, n);
      AddMultiple(RoundUp(x - n, n), n);
    }
  }

  lemma AddMultiple(x: nat, n: nat)
    requires n > 0
    ensures (x + n) % n == x % n
  {
    var k := (x + n) / n - x / n - 1;
    assert n * ((x + n) / n) + (x + n) % n == n * (x / n) + x % n + n;
    assert n * k == x % n - (x + n) % n;
    if k != 0 {
      NonzeroMultiple(n, k);
    }
  }

  lemma NonzeroMultiple(n: int, k: int)
    requires n > 0 && k != 0
    ensures n * k >= n || n * k <= -n
  {
    var m := if k > 0 then k - 1 else -k - 1;
    NonNegative(n, m);
    assert n * (m + 1) == n * m + n;
    assert k > 0 ==> k == m + 1;
    assert k < 0 ==> k == -(m + 1) && n * -(m + 1) == -(n * (m + 1));
  }

  lemma {:induction false} NonNegative(n: int, m: int)
    requires n >= 0 && m >= 0
    ensures n * m >= 0
    decreases m
  {
    if m > 0 {
      NonNegative(n, m - 1);
      assert n * m == n * (m - 1) + n;
    }
  }

  /** `bytes` stands in `data` at offset `off`. */
  predicate At(data: seq<byte>, off: nat, bytes: seq<byte>) {
    bytes == [] || (off + |bytes| <= |data| && data[off..off + |bytes|] == bytes)
  }

  /** What stands in a file stays there when the file is extended. */
  lemma AtKept(data: seq<byte>, data': seq<byte>, off: nat, bytes: seq<byte>)
    requires At(data, off, bytes) && data <= data'
    ensures At(data', off, bytes)
  {
    if bytes != [] {
      assert data'[off..off + |bytes|] == data[off..off + |bytes|];
    }
  }

  /** Two consecutive parts stand there as one. */
  lemma AtJoin(data: seq<byte>, off: nat, a: seq<byte>, b: seq<byte>)
    requires At(data, off, a) && At(data, off + |a|, b)
    ensures At(data, off, a + b)
  {
    if a == [] {
      assert a + b == b;
    } else if b == [] {
      assert a + b == a;
    } else {
      assert data[off..off + |a| + |b|] == data[off..off + |a|] + data[off + |a|..off + |a| + |b|];
    }
  }

  /** A part of what stands at an offset stands at the offset of the part. */
  lemma AtPart(data: seq<byte>, off: nat, a: seq<byte>, b: seq<byte>, c: seq<byte>)
    requires At(data, off, a + b + c)
    ensures At(data, off + |a|, b)
  {
    var s := a + b + c;
    if b != [] {
      assert |s| > 0;
      forall i | 0 <= i < |b| ensures data[off + |a| + i] == b[i] {
        assert data[off..off + |s|][|a| + i] == s[|a| + i];
      }
    }
  }
}
