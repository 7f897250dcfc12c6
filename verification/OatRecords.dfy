/** Writing the records and literal copies at the front of an oat file (compiler/oat_writer.cc). */
module OatRecords {
  import opened Options
  import opened Bytes
  import opened OatModel
  import opened OatFile
  import opened OatStream
  import opened OatEmit

  /** Appends `bytes` to the parts written so far of what begins at `start`. */
  method WriteNext(out: OutputStream, ghost base: nat, ghost start: nat, ghost soFar: seq<byte>, bytes: seq<byte>) returns (ok: bool)
    requires StandsAt(out, base, start + |soFar|) && At(out.data, base + start, soFar)
    modifies out`data, out`behind, out`pos
    ensures ok <==> base + start + |soFar| + |bytes| <= out.capacity
    ensures ok ==> StandsAt(out, base, start + |soFar| + |bytes|) && old(out.data) <= out.data && At(out.data, base + start, soFar + bytes)
  {
    ghost var before := out.data;
    ok := out.WriteFully(bytes);
    if ok {
      AtKept(before, out.data, base + start, soFar);
      AtJoin(out.data, base + start, soFar, bytes);
    }
  }

  /** Bytes written for dex file records, by field. */
  datatype DexBytes = DexBytes(locationSize: nat, locationData: nat, checksum: nat, offset: nat, methodsOffsets: nat) {
    function Total(): nat { locationSize + locationData + checksum + offset + methodsOffsets }

    function Plus(b: DexBytes): DexBytes {
      DexBytes(locationSize + b.locationSize, locationData + b.locationData, checksum + b.checksum, offset + b.offset, methodsOffsets + b.methodsOffsets)
    }
  }

  /** The fields of one record. */
  function DexBytesOf(d: OatDexFile): DexBytes {
    DexBytes(4, |d.location|, 4, 4, 4 * |d.methodsOffsets|)
  }

  function DexBytesUpTo(ds: seq<OatDexFile>, n: nat): DexBytes
    requires n <= |ds|
  {
    if n == 0 then DexBytes(0, 0, 0, 0, 0) else DexBytesUpTo(ds, n - 1).Plus(DexBytesOf(ds[n - 1]))
  }

  /** `OatDexFile::Write`. */
  method WriteDexRecord(out: OutputStream, ghost base: nat, d: OatDexFile, bytes: DexBytes) returns (ok: bool, bytes': DexBytes)
    requires StandsAt(out, base, d.offset)
    modifies out`data, out`behind, out`pos
    ensures ok ==> StandsAt(out, base, d.offset + |EncodeDexFile(d)|) && old(out.data) <= out.data && At(out.data, base + d.offset, EncodeDexFile(d))
    ensures ok ==> bytes'.Total() == bytes.Total() + |EncodeDexFile(d)| && bytes' == bytes.Plus(DexBytesOf(d))
    ensures base + d.offset + |EncodeDexFile(d)| <= out.capacity ==> ok
  {
    var size, checksum, offset, methods := U32(Wrap32(|d.location|)), U32(d.checksum), U32(d.dexFileOffset), U32s(d.methodsOffsets);
    hide U32, U32s, At;
    ghost var start := d.offset;
    bytes' := bytes;
    ok := WriteNext(out, base, start, [], size);
    if !ok { return; }
    assert [] + size == size;
    bytes' := bytes'.(locationSize := bytes'.locationSize + |size|);
    ok := WriteNext(out, base, start, size, d.location);
    if !ok { return; }
    bytes' := bytes'.(locationData := bytes'.locationData + |d.location|);
    ok := WriteNext(out, base, start, size + d.location, checksum);
    if !ok { return; }
    bytes' := bytes'.(checksum := bytes'.checksum + |checksum|);
    ok := WriteNext(out, base, start, size + d.location + checksum, offset);
    if !ok { return; }
    bytes' := bytes'.(offset := bytes'.offset + |offset|);
    ok := WriteNext(out, base, start, size + d.location + checksum + offset, methods);
    if !ok { return; }
    bytes' := bytes'.(methodsOffsets := bytes'.methodsOffsets + |methods|);
  }

  /** `datas` follow each other without gaps at `ends`. */
  ghost predicate Consecutive(datas: seq<seq<byte>>, ends: seq<nat>) {
    |ends| == |datas| + 1 && forall i {:trigger datas[i]} :: 0 <= i < |datas| ==> ends[i + 1] == ends[i] + |datas[i]|
  }

  lemma {:induction false} ConsecutiveGrows(datas: seq<seq<byte>>, ends: seq<nat>, i: nat, j: nat)
    requires Consecutive(datas, ends) && i <= j <= |datas|
    ensures ends[i] <= ends[j]
    decreases j - i
  {
    if i < j {
      ConsecutiveGrows(datas, ends, i, j - 1);
      assert |datas[j - 1]| >= 0;
    }
  }

  lemma ConsecutiveNext(datas: seq<seq<byte>>, ends: seq<nat>, i: nat)
    requires Consecutive(datas, ends) && i < |datas|
    ensures ends[i + 1] == ends[i] + |datas[i]|
  {
  }

  function DexRecordData(ds: seq<OatDexFile>): (r: seq<seq<byte>>)
    ensures |r| == |ds|
  {
    seq(|ds|, i requires 0 <= i < |ds| => EncodeDexFile(ds[i]))
  }

  lemma DexRecordAt(ds: seq<OatDexFile>, i: nat)
    requires i < |ds|
    ensures DexRecordData(ds)[i] == EncodeDexFile(ds[i])
  {
  }

  /** Dex file records that follow each other at `ends`, encoded as `datas`. */
  ghost predicate DexRecordsFollow(ds: seq<OatDexFile>, datas: seq<seq<byte>>, ends: seq<nat>) {
    && datas == DexRecordData(ds) && Consecutive(datas, ends)
    && forall i {:trigger ds[i]} :: 0 <= i < |ds| ==> ds[i].offset == ends[i]
  }

  /** The first `n` dex file records are written and counted. */
  ghost predicate DexRecordsWritten(out: OutputStream, base: nat, ds: seq<OatDexFile>, datas: seq<seq<byte>>, ends: seq<nat>, bytes: DexBytes, n: nat)
    requires n <= |ds| == |datas| && |ends| == |ds| + 1
    reads out
  {
    && StandsAt(out, base, ends[n]) && Found(out.data, base, datas, ends[..|ds|], n)
    && bytes.Total() + ends[0] == ends[n] && bytes == DexBytesUpTo(ds, n)
  }

  method WriteNextDexRecord(out: OutputStream, ghost base: nat, ds: seq<OatDexFile>, i: nat, bytes: DexBytes, ghost datas: seq<seq<byte>>, ghost ends: seq<nat>)
    returns (ok: bool, bytes': DexBytes)
    requires i < |ds| == |datas| && |ends| == |ds| + 1 && DexRecordsFollow(ds, datas, ends) && DexRecordsWritten(out, base, ds, datas, ends, bytes, i)
    modifies out`data, out`behind, out`pos
    ensures ok ==> DexRecordsWritten(out, base, ds, datas, ends, bytes', i + 1) && old(out.data) <= out.data
    ensures base + ends[i + 1] <= out.capacity ==> ok
  {
    ghost var before, offs := out.data, ends[..|ds|];
    ConsecutiveNext(datas, ends, i);
    DexRecordAt(ds, i);
    hide EncodeDexFile, At, Found, DexBytesOf, Consecutive, DexRecordData;
    ok, bytes' := WriteDexRecord(out, base, ds[i], bytes);
    if ok {
      FoundKept(before, out.data, base, datas, offs, i);
      FoundMore(out.data, base, datas, offs, i);
    }
  }

  method WriteDexRecords(out: OutputStream, ghost base: nat, ds: seq<OatDexFile>, ghost datas: seq<seq<byte>>, ghost ends: seq<nat>)
    returns (ok: bool, bytes: DexBytes)
    requires |datas| == |ds| && |ends| == |ds| + 1 && DexRecordsFollow(ds, datas, ends) && StandsAt(out, base, ends[0])
    modifies out`data, out`behind, out`pos
    ensures ok ==> DexRecordsWritten(out, base, ds, datas, ends, bytes, |ds|) && old(out.data) <= out.data
    ensures base + ends[|ds|] <= out.capacity ==> ok
  {
    ok, bytes := true, DexBytes(0, 0, 0, 0, 0);
    assert DexRecordsWritten(out, base, ds, datas, ends, bytes, 0);
    assert Consecutive(datas, ends);
    hide DexRecordsWritten, DexRecordsFollow, Consecutive;
    for i := 0 to |ds|
      invariant ok && DexRecordsWritten(out, base, ds, datas, ends, bytes, i) && old(out.data) <= out.data
    {
      ConsecutiveGrows(datas, ends, i + 1, |ds|);
      ok, bytes := WriteNextDexRecord(out, base, ds, i, bytes, datas, ends);
      if !ok {
        return;
      }
    }
  }

  /** Bytes written for class records, by field. */
  datatype ClassBytes = ClassBytes(status: nat, kind: nat, bitmaps: nat, methodOffsets: nat) {
    function Total(): nat { status + kind + bitmaps + methodOffsets }

    function Plus(b: ClassBytes): ClassBytes {
      ClassBytes(status + b.status, kind + b.kind, bitmaps + b.bitmaps, methodOffsets + b.methodOffsets)
    }
  }

  /** The fields of one record. */
  function ClassBytesOf(c: OatClass): ClassBytes {
    ClassBytes(2, 2, if c.bitmapSize != 0 then 4 + c.bitmapSize else 0, METHOD_OFFSETS_SIZE * |c.records|)
  }

  function ClassBytesUpTo(cs: seq<OatClass>, n: nat): ClassBytes
    requires n <= |cs|
  {
    if n == 0 then ClassBytes(0, 0, 0, 0) else ClassBytesUpTo(cs, n - 1).Plus(ClassBytesOf(cs[n - 1]))
  }

  /** `OatClass::Write`. */
  method WriteClassRecord(out: OutputStream, ghost base: nat, c: OatClass, bytes: ClassBytes) returns (ok: bool, bytes': ClassBytes)
    requires -1 <= c.status <= 9 && StandsAt(out, base, c.offset)
    modifies out`data, out`behind, out`pos
    ensures ok ==> StandsAt(out, base, c.offset + |EncodeClass(c)|) && old(out.data) <= out.data && At(out.data, base + c.offset, EncodeClass(c))
    ensures ok ==> bytes'.Total() == bytes.Total() + |EncodeClass(c)| && bytes' == bytes.Plus(ClassBytesOf(c))
    ensures base + c.offset + |EncodeClass(c)| <= out.capacity ==> ok
  {
    hide EncodeStatus, U16, EncodeRecords, EncodeBitmap, U32, Wrap32, At, StandsAt;
    var status, kind, offsets := EncodeStatus(c.status), U16(KindCode(c.kind)), EncodeRecords(c.records);
    ghost var start := c.offset;
    bytes' := bytes;
    ok := WriteNext(out, base, start, [], status);
    if !ok { return; }
    assert [] + status == status;
    bytes' := bytes'.(status := bytes'.status + |status|);
    ok := WriteNext(out, base, start, status, kind);
    if !ok { return; }
    bytes' := bytes'.(kind := bytes'.kind + |kind|);
    ghost var soFar := status + kind;
    if c.bitmapSize != 0 {
      var size, bitmap := U32(Wrap32(c.bitmapSize)), EncodeBitmap(c.bitmap, c.bitmapSize);
      ok := WriteNext(out, base, start, soFar, size);
      if !ok { return; }
      bytes' := bytes'.(bitmaps := bytes'.bitmaps + |size|);
      ok := WriteNext(out, base, start, soFar + size, bitmap);
      if !ok { return; }
      bytes' := bytes'.(bitmaps := bytes'.bitmaps + |bitmap|);
      soFar := soFar + size + bitmap;
      assert soFar == status + kind + (size + bitmap);
    } else {
      assert soFar == status + kind + [];
    }
    ok := WriteNext(out, base, start, soFar, offsets);
    if !ok { return; }
    bytes' := bytes'.(methodOffsets := bytes'.methodOffsets + |offsets|);
  }

  ghost predicate StatusesOk(cs: seq<OatClass>) {
    forall i :: 0 <= i < |cs| ==> -1 <= cs[i].status <= 9
  }

  function ClassData(cs: seq<OatClass>): (r: seq<seq<byte>>)
    requires StatusesOk(cs)
    ensures |r| == |cs|
  {
    seq(|cs|, i requires 0 <= i < |cs| => EncodeClass(cs[i]))
  }

  lemma ClassDataAt(cs: seq<OatClass>, i: nat)
    requires StatusesOk(cs) && i < |cs|
    ensures ClassData(cs)[i] == EncodeClass(cs[i])
  {
  }

  /** Class records that follow each other at `ends`, encoded as `datas`. */
  ghost predicate ClassesFit(cs: seq<OatClass>, datas: seq<seq<byte>>, ends: seq<nat>) {
    && StatusesOk(cs) && datas == ClassData(cs) && Consecutive(datas, ends)
    && forall i {:trigger cs[i]} :: 0 <= i < |cs| ==> cs[i].offset == ends[i]
  }

  /** The first `n` class records are written and counted. */
  ghost predicate ClassesWritten(out: OutputStream, base: nat, cs: seq<OatClass>, datas: seq<seq<byte>>, ends: seq<nat>, bytes: ClassBytes, n: nat)
    requires n <= |cs| == |datas| && |ends| == |cs| + 1
    reads out
  {
    && StandsAt(out, base, ends[n]) && Found(out.data, base, datas, ends[..|cs|], n)
    && bytes.Total() + ends[0] == ends[n] && bytes == ClassBytesUpTo(cs, n)
  }

  method WriteNextClass(out: OutputStream, ghost base: nat, cs: seq<OatClass>, i: nat, bytes: ClassBytes, ghost datas: seq<seq<byte>>, ghost ends: seq<nat>)
    returns (ok: bool, bytes': ClassBytes)
    requires i < |cs| == |datas| && |ends| == |cs| + 1 && ClassesFit(cs, datas, ends) && ClassesWritten(out, base, cs, datas, ends, bytes, i)
    modifies out`data, out`behind, out`pos
    ensures ok ==> ClassesWritten(out, base, cs, datas, ends, bytes', i + 1) && old(out.data) <= out.data
    ensures base + ends[i + 1] <= out.capacity ==> ok
  {
    ghost var before, offs := out.data, ends[..|cs|];
    ConsecutiveNext(datas, ends, i);
    ClassDataAt(cs, i);
    hide EncodeClass, At, Found, ClassBytesOf, Consecutive, ClassData;
    ok, bytes' := WriteClassRecord(out, base, cs[i], bytes);
    if ok {
      FoundKept(before, out.data, base, datas, offs, i);
      FoundMore(out.data, base, datas, offs, i);
    }
  }

  method WriteClassRecords(out: OutputStream, ghost base: nat, cs: seq<OatClass>, ghost datas: seq<seq<byte>>, ghost ends: seq<nat>)
    returns (ok: bool, bytes: ClassBytes)
    requires |datas| == |cs| && |ends| == |cs| + 1 && ClassesFit(cs, datas, ends) && StandsAt(out, base, ends[0])
    modifies out`data, out`behind, out`pos
    ensures ok ==> ClassesWritten(out, base, cs, datas, ends, bytes, |cs|) && old(out.data) <= out.data
    ensures base + ends[|cs|] <= out.capacity ==> ok
  {
    ok, bytes := true, ClassBytes(0, 0, 0, 0);
    assert ClassesWritten(out, base, cs, datas, ends, bytes, 0);
    assert Consecutive(datas, ends);
    hide ClassesWritten, ClassesFit, Consecutive;
    for i := 0 to |cs|
      invariant ok && ClassesWritten(out, base, cs, datas, ends, bytes, i) && old(out.data) <= out.data
    {
      ConsecutiveGrows(datas, ends, i + 1, |cs|);
      ok, bytes := WriteNextClass(out, base, cs, i, bytes, datas, ends);
      if !ok {
        return;
      }
    }
  }

  // ---------- Literal copies at aligned offsets ----------

  /** `datas` stand at `offs`, each at or behind the end of the one before it. */
  ghost predicate Spaced(datas: seq<seq<byte>>, offs: seq<nat>, ends: seq<nat>) {
    && |offs| == |datas| && |ends| == |datas| + 1
    && forall i {:trigger offs[i]} :: 0 <= i < |datas| ==> ends[i] <= offs[i] && ends[i + 1] == offs[i] + |datas[i]|
  }

  lemma {:induction false} SpacedGrows(datas: seq<seq<byte>>, offs: seq<nat>, ends: seq<nat>, i: nat, j: nat)
    requires Spaced(datas, offs, ends) && i <= j <= |datas|
    ensures ends[i] <= ends[j]
    decreases j - i
  {
    if i < j {
      SpacedGrows(datas, offs, ends, i, j - 1);
      assert offs[j - 1] >= 0;
    }
  }

  /** Writes each copy after seeking to its recorded offset, as for dex files. */
  method WriteCopies(out: OutputStream, base: nat, datas: seq<seq<byte>>, offs: seq<nat>, ghost ends: seq<nat>) returns (ok: bool, written: nat)
    requires Spaced(datas, offs, ends) && StandsAt(out, base, ends[0])
    modifies out`data, out`behind, out`pos
    ensures ok ==> StandsAt(out, base, ends[|datas|]) && old(out.data) <= out.data && Found(out.data, base, datas, offs, |datas|)
    ensures ok ==> written == TotalSize(datas, |datas|)
    ensures base + ends[|datas|] <= out.capacity ==> ok
  {
    ok, written := true, 0;
    for i := 0 to |datas|
      invariant ok && StandsAt(out, base, ends[i]) && old(out.data) <= out.data && Found(out.data, base, datas, offs, i)
      invariant written == TotalSize(datas, i)
    {
      ghost var before := out.data;
      SpacedGrows(datas, offs, ends, i + 1, |datas|);
      var expectedOffset := base + offs[i];
      var actualOffset := out.SeekTo(expectedOffset);
      if actualOffset != expectedOffset {
        return false, written;
      }
      ok := out.WriteFully(datas[i]);
      if !ok {
        return;
      }
      written := written + |datas[i]|;
      FoundKept(before, out.data, base, datas, offs, i);
    }
  }

  function TotalSize(datas: seq<seq<byte>>, n: nat): nat
    requires n <= |datas|
  {
    if n == 0 then 0 else TotalSize(datas, n - 1) + |datas[n - 1]|
  }
}
