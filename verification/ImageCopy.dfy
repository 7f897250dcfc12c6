/** Copying an object into the image and relocating its references, on bytes. */
module ImageCopy {
  import opened Bytes
  import opened Buffers

  const LOCK_WORD := 4

  /** The object in memory, with its lock word. */
  function Memory(contents: seq<byte>, lockWord: uint32): (r: seq<byte>)
    requires |contents| >= 8
    ensures |r| == |contents|
  {
    contents[..LOCK_WORD] + U32(lockWord) + contents[LOCK_WORD + 4..]
  }

  /** The offsets of reference fields: inside the object, apart from each other and from the lock word. */
  ghost predicate OffsetsOk(offs: seq<nat>, size: nat) {
    && (forall r {:trigger offs[r]} :: 0 <= r < |offs| ==> offs[r] + 4 <= size && (offs[r] + 4 <= LOCK_WORD || LOCK_WORD + 4 <= offs[r]))
    && (forall r, q {:trigger offs[r], offs[q]} :: 0 <= r < q < |offs| ==> offs[r] + 4 <= offs[q] || offs[q] + 4 <= offs[r])
  }

  /** Byte `k` belongs to one of the first `n` reference fields. */
  ghost predicate InRef(offs: seq<nat>, n: nat, k: nat)
    requires n <= |offs|
  {
    exists r {:trigger offs[r]} :: 0 <= r < n && offs[r] <= k < offs[r] + 4
  }

  /** The copy at `pos` has lock word `word` and the addresses in its first `n` reference fields; every
      other byte is as in the original. */
  ghost predicate CopiedUpTo(data: seq<byte>, pos: nat, contents: seq<byte>, offs: seq<nat>, addresses: seq<uint32>, word: uint32, n: nat) {
    && pos + |contents| <= |data| && |addresses| == |offs| && n <= |offs| && OffsetsOk(offs, |contents|)
    && At(data, pos + LOCK_WORD, U32(word))
    && (forall r {:trigger offs[r]} :: 0 <= r < n ==> At(data, pos + offs[r], U32(addresses[r])))
    && (forall k {:trigger contents[k]} :: 0 <= k < |contents| && !(LOCK_WORD <= k < LOCK_WORD + 4) && !InRef(offs, n, k) ==> data[pos + k] == contents[k])
  }

  ghost predicate Copied(data: seq<byte>, pos: nat, contents: seq<byte>, offs: seq<nat>, addresses: seq<uint32>, word: uint32) {
    CopiedUpTo(data, pos, contents, offs, addresses, word, |offs|)
  }

  /** After the copy, with an empty lock word, no reference is relocated yet. */
  lemma CopyStarts(data: seq<byte>, pos: nat, contents: seq<byte>, lockWord: uint32, offs: seq<nat>, addresses: seq<uint32>)
    requires 8 <= |contents| && pos + |contents| <= |data| && OffsetsOk(offs, |contents|) && |addresses| == |offs|
    ensures var copied := Stored(data, pos, Memory(contents, lockWord));
            var data' := Stored(copied, pos + LOCK_WORD, U32(0));
            CopiedUpTo(data', pos, contents, offs, addresses, 0, 0) && Outside(data, data', pos, |contents|)
  {
    var copied := Stored(data, pos, Memory(contents, lockWord));
    var data' := Stored(copied, pos + LOCK_WORD, U32(0));
    StoredStands(copied, pos + LOCK_WORD, U32(0));
    forall k | 0 <= k < |contents| && !(LOCK_WORD <= k < LOCK_WORD + 4) ensures data'[pos + k] == contents[k] {
      assert data'[pos + k] == copied[pos + k] == Memory(contents, lockWord)[k];
    }
  }

  /** Relocating one more reference. */
  lemma CopyStep(data: seq<byte>, pos: nat, contents: seq<byte>, offs: seq<nat>, addresses: seq<uint32>, word: uint32, n: nat)
    requires CopiedUpTo(data, pos, contents, offs, addresses, word, n) && n < |offs|
    ensures var data' := Stored(data, pos + offs[n], U32(addresses[n]));
            CopiedUpTo(data', pos, contents, offs, addresses, word, n + 1) && Outside(data, data', pos, |contents|)
  {
    var data' := Stored(data, pos + offs[n], U32(addresses[n]));
    StoredStands(data, pos + offs[n], U32(addresses[n]));
    AtOutside(data, data', pos + offs[n], 4, pos + LOCK_WORD, U32(word));
    forall r | 0 <= r < n ensures At(data', pos + offs[r], U32(addresses[r])) {
      AtOutside(data, data', pos + offs[n], 4, pos + offs[r], U32(addresses[r]));
    }
    forall k | 0 <= k < |contents| && !(LOCK_WORD <= k < LOCK_WORD + 4) && !InRef(offs, n + 1, k) ensures data'[pos + k] == contents[k] {
      assert !(offs[n] <= k < offs[n] + 4);
      assert data'[pos + k] == data[pos + k];
    }
  }

  /** Writing elsewhere leaves a copy alone. */
  lemma CopyKept(data: seq<byte>, data': seq<byte>, at: nat, size: nat, pos: nat, contents: seq<byte>, offs: seq<nat>, addresses: seq<uint32>, word: uint32)
    requires Copied(data, pos, contents, offs, addresses, word) && Outside(data, data', at, size) && |contents| >= 8
    requires at + size <= pos || pos + |contents| <= at
    ensures Copied(data', pos, contents, offs, addresses, word)
  {
    AtOutside(data, data', at, size, pos + LOCK_WORD, U32(word));
    forall r | 0 <= r < |offs| ensures At(data', pos + offs[r], U32(addresses[r])) {
      AtOutside(data, data', at, size, pos + offs[r], U32(addresses[r]));
    }
  }

  /** Setting the lock word of a copy. */
  lemma LockWordSet(data: seq<byte>, pos: nat, contents: seq<byte>, offs: seq<nat>, addresses: seq<uint32>, word: uint32, word': uint32)
    requires Copied(data, pos, contents, offs, addresses, word) && |contents| >= 8
    ensures var data' := Stored(data, pos + LOCK_WORD, U32(word'));
            Copied(data', pos, contents, offs, addresses, word') && Outside(data, data', pos, |contents|)
  {
    var data' := Stored(data, pos + LOCK_WORD, U32(word'));
    StoredStands(data, pos + LOCK_WORD, U32(word'));
    forall r | 0 <= r < |offs| ensures At(data', pos + offs[r], U32(addresses[r])) {
      AtOutside(data, data', pos + LOCK_WORD, 4, pos + offs[r], U32(addresses[r]));
    }
  }
}
