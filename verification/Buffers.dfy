/** Byte buffers that are written in place. */
module Buffers {
  import opened Bytes

  function Stored(data: seq<byte>, pos: nat, bytes: seq<byte>): (r: seq<byte>)
    requires pos + |bytes| <= |data|
    ensures |r| == |data|
  {
    data[..pos] + bytes + data[pos + |bytes|..]
  }

  /** `memcpy` and the field setters. */
  method Store(image: array<byte>, pos: nat, bytes: seq<byte>)
    requires pos + |bytes| <= image.Length
    modifies image
    ensures image[..] == Stored(old(image[..]), pos, bytes)
  {
    for i := 0 to |bytes|
      invariant forall k :: 0 <= k < image.Length ==> image[k] == if pos <= k < pos + i then bytes[k - pos] else old(image[k])
    {
      image[pos + i] := bytes[i];
    }
  }

  /** Only bytes in `n` bytes at `pos` differ. */
  ghost predicate Outside(data: seq<byte>, data': seq<byte>, pos: nat, n: nat) {
    |data'| == |data| && forall k {:trigger data'[k]} :: 0 <= k < |data| && !(pos <= k < pos + n) ==> data'[k] == data[k]
  }

  lemma StoredStands(data: seq<byte>, pos: nat, bytes: seq<byte>)
    requires pos + |bytes| <= |data|
    ensures At(Stored(data, pos, bytes), pos, bytes) && Outside(data, Stored(data, pos, bytes), pos, |bytes|)
  {
  }

  /** What stands apart from the difference stays. */
  lemma AtOutside(data: seq<byte>, data': seq<byte>, pos: nat, n: nat, off: nat, bytes: seq<byte>)
    requires Outside(data, data', pos, n) && At(data, off, bytes) && (off + |bytes| <= pos || pos + n <= off)
    ensures At(data', off, bytes)
  {
    if bytes != [] {
      forall i | 0 <= i < |bytes| ensures data'[off..off + |bytes|][i] == bytes[i] {
        assert data'[off + i] == data[off + i] == data[off..off + |bytes|][i];
      }
    }
  }

  /** Equal positions make equal slices. */
  lemma SliceSame(a: seq<byte>, b: seq<byte>, from: nat, to: nat)
    requires from <= to <= |a| && to <= |b| && forall k {:trigger a[k]} :: from <= k < to ==> a[k] == b[k]
    ensures a[from..to] == b[from..to]
  {
  }

  /** Differences in a part, after differences in the whole. */
  lemma OutsideGrows(a: seq<byte>, b: seq<byte>, c: seq<byte>, pos: nat, n: nat, pos': nat, n': nat)
    requires Outside(a, b, pos, n) && Outside(b, c, pos', n') && pos <= pos' && pos' + n' <= pos + n
    ensures Outside(a, c, pos, n)
  {
  }
}
