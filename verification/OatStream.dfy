/** The stream an oat file is written to (compiler/output_stream.h): a file with a position. */
module OatStream {
  import opened Bytes

  function Zeros(n: nat): (r: seq<byte>)
    ensures |r| == n
  {
    seq(n, _ => 0)
  }

  /** The file after writing `bytes` at `pos`; a gap left by seeking past the end reads as zeros. */
  function Overwrite(data: seq<byte>, pos: nat, bytes: seq<byte>): seq<byte> {
    if bytes == [] then data
    else if pos >= |data| then data + Zeros(pos - |data|) + bytes
    else data[..pos] + bytes + (if pos + |bytes| < |data| then data[pos + |bytes|..] else [])
  }

  /** What is left of `behind` after `n` bytes. */
  function Rest(behind: seq<byte>, n: nat): seq<byte> {
    if n <= |behind| then behind[n..] else []
  }

  lemma RestOfRest(behind: seq<byte>, m: nat, n: nat)
    ensures Rest(Rest(behind, m), n) == Rest(behind, m + n)
  {
  }

  lemma RestOfFile(data: seq<byte>, behind: seq<byte>, pos: nat, offset: nat)
    requires |data| <= pos <= offset && (behind != [] ==> |data| == pos)
    ensures Rest(data + behind, offset) == Rest(behind, offset - pos) && data <= Front(data + behind, offset)
    ensures offset == pos ==> Rest(data + behind, offset) == behind
  {
  }

  /** The first `n` bytes of a file, or all there are. */
  function Front(file: seq<byte>, n: nat): (r: seq<byte>)
    ensures |r| <= n && r + Rest(file, n) == file && (Rest(file, n) != [] ==> |r| == n)
  {
    if n <= |file| then file[..n] else file
  }

  /** Writing in the middle of a file, split at the position. */
  lemma Overwritten(data: seq<byte>, behind: seq<byte>, pos: nat, bytes: seq<byte>)
    requires |data| <= pos && (behind != [] ==> |data| == pos) && bytes != []
    ensures Overwrite(data + behind, pos, bytes) == data + Zeros(pos - |data|) + bytes + Rest(behind, |bytes|)
  {
  }

  /** A file and a position, which may be anywhere in the file or past its end. */
  class OutputStream {
    /** The file in front of the position. */
    var data: seq<byte>
    /** The file from the position on. */
    var behind: seq<byte>
    var pos: nat
    const capacity: nat
    /** The file as a writer found it. */
    ghost var origin: seq<byte>

    ghost predicate Valid()
      reads this
    {
      |data| <= pos && (behind != [] ==> |data| == pos)
    }

    ghost function Contents(): seq<byte>
      reads this
    {
      data + behind
    }

    /** From the position on, the file is as the writer found it. */
    ghost predicate Untouched()
      reads this
    {
      behind == Rest(origin, pos)
    }

    constructor (contents: seq<byte>, pos: nat, capacity: nat)
      ensures Valid() && Contents() == contents && this.pos == pos && this.capacity == capacity
    {
      data := Front(contents, pos);
      behind := Rest(contents, pos);
      this.pos, this.capacity, origin := pos, capacity, contents;
    }

    /** Fails when the device is full. */
    method WriteFully(bytes: seq<byte>) returns (ok: bool)
      requires Valid()
      modifies this`data, this`behind, this`pos
      ensures Valid() && (old(Untouched()) ==> Untouched())
      ensures ok <==> old(pos) + |bytes| <= capacity
      ensures ok ==> pos == old(pos) + |bytes| && Contents() == Overwrite(old(Contents()), old(pos), bytes)
      ensures ok ==> old(data) <= data && At(data, old(pos), bytes)
      ensures !ok ==> pos == old(pos) && data == old(data) && behind == old(behind)
    {
      ok := pos + |bytes| <= capacity;
      if ok {
        RestOfRest(origin, pos, |bytes|);
        if bytes != [] {
          Overwritten(data, behind, pos, bytes);
          data := data + Zeros(pos - |data|) + bytes;
        }
        behind, pos := Rest(behind, |bytes|), pos + |bytes|;
      }
    }

    method SeekTo(offset: nat) returns (position: nat)
      requires Valid()
      modifies this`data, this`behind, this`pos
      ensures Valid() && pos == position == offset && Contents() == old(Contents())
      ensures old(pos) <= offset ==> old(data) <= data && (old(Untouched()) ==> Untouched())
    {
      hide Front, Rest;
      var contents := data + behind;
      if pos <= offset {
        RestOfFile(data, behind, pos, offset);
        RestOfRest(origin, pos, offset - pos);
      }
      data := Front(contents, offset);
      behind := Rest(contents, offset);
      pos := offset;
      position := pos;
    }

    method SeekBy(distance: nat) returns (position: nat)
      requires Valid()
      modifies this`data, this`behind, this`pos
      ensures Valid() && pos == position == old(pos) + distance && Contents() == old(Contents())
      ensures old(data) <= data && (old(Untouched()) ==> Untouched())
    {
      position := SeekTo(pos + distance);
    }
  }
}
