/** The sections of an oat file as the Write passes emit them (compiler/oat_writer.cc). */
module OatSections {
  import opened Bytes
  import opened OatDedupe
  import opened OatModel
  import opened OatFile
  import opened OatStream
  import opened OatEmit
  import opened OatRecords
  import opened OatPlanFacts

  // ---------- What stands where ----------

  ghost predicate FrontStands(data: seq<byte>, base: nat, s: Setup, dexCount: nat, h: OatHeader) {
    && s.Valid() && |h.trampolines| == 10
    && At(data, base, EncodeOatHeader(s, dexCount, h)) && At(data, base + HEADER_SIZE, s.imageLocation)
  }

  /** Every dex file record stands at its offset, and its dex file where the record says. */
  ghost predicate DexFilesStand(data: seq<byte>, base: nat, records: seq<OatDexFile>, dexes: seq<DexFile>) {
    && |records| == |dexes|
    && forall d {:trigger records[d]} :: 0 <= d < |records| ==>
         At(data, base + records[d].offset, EncodeDexFile(records[d])) && At(data, base + records[d].dexFileOffset, dexes[d].data)
  }

  /** Every class record stands at its offset. */
  ghost predicate ClassesStand(data: seq<byte>, base: nat, classes: seq<OatClass>) {
    && StatusesOk(classes)
    && forall c {:trigger classes[c]} :: 0 <= c < |classes| ==> At(data, base + classes[c].offset, EncodeClass(classes[c]))
  }

  /** Every trampoline stands where the header says. */
  ghost predicate TrampolinesStand(data: seq<byte>, base: nat, s: Setup, h: OatHeader) {
    && |h.trampolines| == |s.trampolines|
    && forall i {:trigger h.trampolines[i]} :: 0 <= i < |s.trampolines| ==> At(data, base + h.trampolines[i], s.trampolines[i])
  }

  lemma FrontKept(data: seq<byte>, data': seq<byte>, base: nat, s: Setup, dexCount: nat, h: OatHeader)
    requires FrontStands(data, base, s, dexCount, h) && data <= data'
    ensures FrontStands(data', base, s, dexCount, h)
  {
    AtKept(data, data', base, EncodeOatHeader(s, dexCount, h));
    AtKept(data, data', base + HEADER_SIZE, s.imageLocation);
  }

  lemma DexFilesKept(data: seq<byte>, data': seq<byte>, base: nat, records: seq<OatDexFile>, dexes: seq<DexFile>)
    requires DexFilesStand(data, base, records, dexes) && data <= data'
    ensures DexFilesStand(data', base, records, dexes)
  {
    forall d | 0 <= d < |records|
      ensures At(data', base + records[d].offset, EncodeDexFile(records[d])) && At(data', base + records[d].dexFileOffset, dexes[d].data)
    {
      AtKept(data, data', base + records[d].offset, EncodeDexFile(records[d]));
      AtKept(data, data', base + records[d].dexFileOffset, dexes[d].data);
    }
  }

  lemma ClassesKept(data: seq<byte>, data': seq<byte>, base: nat, classes: seq<OatClass>)
    requires ClassesStand(data, base, classes) && data <= data'
    ensures ClassesStand(data', base, classes)
  {
    forall c | 0 <= c < |classes| ensures At(data', base + classes[c].offset, EncodeClass(classes[c])) {
      AtKept(data, data', base + classes[c].offset, EncodeClass(classes[c]));
    }
  }

  lemma TrampolinesKept(data: seq<byte>, data': seq<byte>, base: nat, s: Setup, h: OatHeader)
    requires TrampolinesStand(data, base, s, h) && data <= data'
    ensures TrampolinesStand(data', base, s, h)
  {
    forall i | 0 <= i < |s.trampolines| ensures At(data', base + h.trampolines[i], s.trampolines[i]) {
      AtKept(data, data', base + h.trampolines[i], s.trampolines[i]);
    }
  }

  // ---------- Header ----------

  method WriteFront(out: OutputStream, ghost base: nat, s: Setup, dexCount: nat, h: OatHeader) returns (ok: bool)
    requires s.Valid() && |h.trampolines| == 10 && StandsAt(out, base, 0)
    modifies out`data, out`behind, out`pos
    ensures ok ==> StandsAt(out, base, HEADER_SIZE + |s.imageLocation|) && old(out.data) <= out.data && FrontStands(out.data, base, s, dexCount, h)
    ensures base + HEADER_SIZE + |s.imageLocation| <= out.capacity ==> ok
  {
    var bytes := EncodeOatHeader(s, dexCount, h);
    ok := out.WriteFully(bytes);
    if ok {
      ghost var before := out.data;
      ok := out.WriteFully(s.imageLocation);
      if ok {
        AtKept(before, out.data, base, bytes);
      }
    }
  }

  // ---------- Dex files and their records ----------

  /** The records agree with the sections of records and dex files. */
  ghost predicate DexRecordsFit(records: seq<OatDexFile>, dexes: seq<DexFile>, recordsAt: nat, filesAt: nat) {
    && |records| == |dexes|
    && forall d {:trigger records[d]} :: 0 <= d < |records| ==>
         && records[d].location == dexes[d].location && |records[d].methodsOffsets| == |dexes[d].classes|
         && records[d].offset == DexRecordsEnd(dexes, recordsAt, d) && records[d].dexFileOffset == DexPlace(dexes, filesAt, d)
  }

  method WriteDexFiles(out: OutputStream, base: nat, records: seq<OatDexFile>, dexes: seq<DexFile>, ghost recordsAt: nat, ghost filesAt: nat)
    returns (ok: bool, bytes: DexBytes, written: nat)
    requires DexRecordsFit(records, dexes, recordsAt, filesAt) && filesAt == DexRecordsEnd(dexes, recordsAt, |dexes|)
    requires StandsAt(out, base, recordsAt)
    modifies out`data, out`behind, out`pos
    ensures var end := DexFilesEnd(dexes, filesAt, |dexes|);
            && (ok ==> StandsAt(out, base, end) && old(out.data) <= out.data)
            && (ok ==> bytes.Total() + written + DexPadding(dexes, filesAt, |dexes|) == end - recordsAt)
            && (ok ==> written == TotalSize(DexFileData(dexes), |dexes|))
            && (base + end <= out.capacity ==> ok)
    ensures ok ==> DexFilesStand(out.data, base, records, dexes) && bytes == DexBytesUpTo(records, |records|)
  {
    ghost var n, ends := |dexes|, DexRecordEnds(dexes, recordsAt);
    written := 0;
    DexRecordsConsecutive(records, dexes, recordsAt);
    ok, bytes := WriteDexRecords(out, base, records, DexRecordData(records), ends);
    if !ok { return; }
    ghost var before := out.data;
    var copies := DexFileData(dexes);
    var places := seq<nat>(|records|, i requires 0 <= i < |records| => records[i].dexFileOffset);
    assert places == DexFileOffsets(dexes, filesAt);
    DexFilesSpaced(dexes, filesAt);
    ok, written := WriteCopies(out, base, copies, places, DexFileEnds(dexes, filesAt));
    if !ok { return; }
    DexFilesFill(dexes, filesAt, n);
    FoundKept(before, out.data, base, DexRecordData(records), ends[..n], n);
    DexFilesFoundStand(out.data, base, records, dexes, ends[..n], places);
  }

  lemma DexFilesFoundStand(data: seq<byte>, base: nat, records: seq<OatDexFile>, dexes: seq<DexFile>, ends: seq<nat>, places: seq<nat>)
    requires |records| == |dexes| == |ends| == |places|
    requires forall d :: 0 <= d < |records| ==> records[d].offset == ends[d] && records[d].dexFileOffset == places[d]
    requires Found(data, base, DexRecordData(records), ends, |records|) && Found(data, base, DexFileData(dexes), places, |dexes|)
    ensures DexFilesStand(data, base, records, dexes)
  {
    forall d | 0 <= d < |records|
      ensures At(data, base + records[d].offset, EncodeDexFile(records[d])) && At(data, base + records[d].dexFileOffset, dexes[d].data)
    {
      assert At(data, base + ends[d], DexRecordData(records)[d]);
      assert At(data, base + places[d], DexFileData(dexes)[d]);
    }
  }

  // ---------- Classes ----------

  method WriteClasses(out: OutputStream, ghost base: nat, classes: seq<OatClass>, ghost defs: seq<ClassDef>, ghost start: nat) returns (ok: bool, bytes: ClassBytes)
    requires ClassesMade(classes, defs, start) && StatusesOk(classes) && StandsAt(out, base, start)
    modifies out`data, out`behind, out`pos
    ensures var end := ClassesEnd(defs, start, |defs|);
            && (ok ==> StandsAt(out, base, end) && old(out.data) <= out.data && bytes.Total() == end - start)
            && (base + end <= out.capacity ==> ok)
    ensures ok ==> ClassesStand(out.data, base, classes) && bytes == ClassBytesUpTo(classes, |classes|)
  {
    ClassesConsecutive(classes, defs, start);
    ghost var datas, ends := ClassData(classes), ClassEnds(defs, start);
    ok, bytes := WriteClassRecords(out, base, classes, datas, ends);
    if ok {
      ClassesFoundStand(out.data, base, classes, ends[..|classes|]);
    }
  }

  lemma ClassesFoundStand(data: seq<byte>, base: nat, classes: seq<OatClass>, ends: seq<nat>)
    requires StatusesOk(classes) && |ends| == |classes| && Found(data, base, ClassData(classes), ends, |classes|)
    requires forall c :: 0 <= c < |classes| ==> classes[c].offset == ends[c]
    ensures ClassesStand(data, base, classes)
  {
    forall c | 0 <= c < |classes| ensures At(data, base + classes[c].offset, EncodeClass(classes[c])) {
      assert At(data, base + ends[c], ClassData(classes)[c]);
    }
  }

  // ---------- Tables ----------

  method WriteTable(out: OutputStream, ghost base: nat, tab: Table, start: nat, classes: seq<OatClass>, visits: seq<Visit>, ghost lay: Layout, ghost o: Offsets)
    returns (ok: bool, offset: nat)
    requires Deduplicated(MethodsOf(visits)) && LayoutOk(MethodsOf(visits), lay) && o == OffsetsOf(MethodsOf(visits), lay)
    requires RecordsAgree(classes, visits, o, lay.isa) && start == lay.TableStart(tab) && StandsAt(out, base, start)
    modifies out`data, out`behind, out`pos
    ensures var end := End(TableItems(MethodsOf(visits), tab), 1, start, |visits|);
            (ok ==> offset == end && StandsAt(out, base, end) && old(out.data) <= out.data) && (base + end <= out.capacity ==> ok)
    ensures ok ==> Found(out.data, base, TableData(visits, tab), o.Of(tab), |visits|)
  {
    ghost var ms := MethodsOf(visits);
    TableScript(visits, lay, tab);
    AgreesOn(classes, visits, o, lay.isa, tab);
    assert o.Of(tab) == TableOffsets(ms, lay, tab);
    ok, offset := WriteMapPass(out, base, tab, start, classes, visits, o.Of(tab), TableEnds(ms, lay, tab), TableFirsts(ms, tab));
  }

  lemma AgreesOn(classes: seq<OatClass>, visits: seq<Visit>, o: Offsets, isa: InstructionSet, tab: Table)
    requires RecordsAgree(classes, visits, o, isa)
    ensures forall i :: 0 <= i < |visits| ==> GetOffset(RecordAt(classes, visits[i]), tab) == o.Of(tab)[i]
  {
  }

  /** The tables follow each other. */
  ghost predicate TablesAdjoin(ms: seq<CompiledMethod>, lay: Layout) {
    && lay.mappings == End(TableItems(ms, GcMap), 1, lay.gcMaps, |ms|)
    && lay.vmaps == End(TableItems(ms, Mapping), 1, lay.mappings, |ms|)
  }

  ghost predicate TablesFound(data: seq<byte>, base: nat, visits: seq<Visit>, o: Offsets)
    requires o.Sized(|visits|)
  {
    forall tab :: Found(data, base, TableData(visits, tab), o.Of(tab), |visits|)
  }

  lemma TablesKept(data: seq<byte>, data': seq<byte>, base: nat, visits: seq<Visit>, o: Offsets)
    requires o.Sized(|visits|) && data <= data' && TablesFound(data, base, visits, o)
    ensures TablesFound(data', base, visits, o)
  {
    forall tab ensures Found(data', base, TableData(visits, tab), o.Of(tab), |visits|) {
      FoundKept(data, data', base, TableData(visits, tab), o.Of(tab), |visits|);
    }
  }

  lemma ThreeTablesFound(gc: seq<byte>, mappings: seq<byte>, data: seq<byte>, base: nat, visits: seq<Visit>, o: Offsets)
    requires o.Sized(|visits|) && gc <= mappings <= data
    requires Found(gc, base, TableData(visits, GcMap), o.gcMaps, |visits|) && Found(mappings, base, TableData(visits, Mapping), o.mappings, |visits|)
    requires Found(data, base, TableData(visits, Vmap), o.vmaps, |visits|)
    ensures TablesFound(data, base, visits, o)
  {
    FoundKept(gc, mappings, base, TableData(visits, GcMap), o.gcMaps, |visits|);
    FoundKept(mappings, data, base, TableData(visits, GcMap), o.gcMaps, |visits|);
    FoundKept(mappings, data, base, TableData(visits, Mapping), o.mappings, |visits|);
  }

  /** The three passes over tables. */
  method WriteMaps(out: OutputStream, ghost base: nat, start: nat, classes: seq<OatClass>, visits: seq<Visit>, ghost lay: Layout, ghost o: Offsets)
    returns (ok: bool, offset: nat, gcMaps: nat, mappings: nat, vmaps: nat)
    requires Deduplicated(MethodsOf(visits)) && LayoutOk(MethodsOf(visits), lay) && o == OffsetsOf(MethodsOf(visits), lay)
    requires RecordsAgree(classes, visits, o, lay.isa) && TablesAdjoin(MethodsOf(visits), lay) && start == lay.gcMaps && StandsAt(out, base, start)
    modifies out`data, out`behind, out`pos
    ensures var end := End(TableItems(MethodsOf(visits), Vmap), 1, lay.vmaps, |visits|);
            && (ok ==> offset == end && StandsAt(out, base, end) && old(out.data) <= out.data)
            && (ok ==> gcMaps == lay.mappings - lay.gcMaps && mappings == lay.vmaps - lay.mappings && vmaps == end - lay.vmaps)
            && (base + end <= out.capacity ==> ok)
    ensures ok ==> TablesFound(out.data, base, visits, o)
  {
    gcMaps, mappings, vmaps := 0, 0, 0;
    ok, offset := WriteTable(out, base, GcMap, start, classes, visits, lay, o);
    if !ok { return; }
    ghost var d0 := out.data;
    gcMaps := offset - start;
    var mappingTablesOffset := offset;
    ok, offset := WriteTable(out, base, Mapping, offset, classes, visits, lay, o);
    if !ok { return; }
    ghost var d1 := out.data;
    mappings := offset - mappingTablesOffset;
    var vmapTablesOffset := offset;
    ok, offset := WriteTable(out, base, Vmap, offset, classes, visits, lay, o);
    if !ok { return; }
    vmaps := offset - vmapTablesOffset;
    ThreeTablesFound(d0, d1, out.data, base, visits, o);
  }

  // ---------- Trampolines ----------

  function Sum(ns: seq<nat>): nat {
    if ns == [] then 0 else Sum(ns[..|ns| - 1]) + ns[|ns| - 1]
  }

  method WriteTrampoline(out: OutputStream, ghost base: nat, isa: InstructionSet, offset: nat, code: seq<byte>) returns (ok: bool, alignmentPadding: nat)
    requires StandsAt(out, base, offset)
    modifies out`data, out`behind, out`pos
    ensures offset + alignmentPadding == RoundUp(offset, Alignment(isa))
    ensures ok ==> StandsAt(out, base, offset + alignmentPadding + |code|) && old(out.data) <= out.data
    ensures ok ==> At(out.data, base + offset + alignmentPadding, code)
    ensures base + offset + alignmentPadding + |code| <= out.capacity ==> ok
  {
    var alignedOffset := RoundUp(offset, Alignment(isa));
    alignmentPadding := alignedOffset - offset;
    var _ := out.SeekBy(alignmentPadding);
    ok := out.WriteFully(code);
  }

  /** The trampolines of a boot image, each after seeking over its padding. */
  method WriteTrampolines(out: OutputStream, ghost base: nat, isa: InstructionSet, trampolines: seq<seq<byte>>, start: nat, ghost offs: seq<nat>, ghost ends: seq<nat>)
    returns (ok: bool, offset: nat, padding: nat, sizes: seq<nat>)
    requires Spaced(trampolines, offs, ends) && ends[0] == start && StandsAt(out, base, start)
    requires forall i :: 0 <= i < |trampolines| ==> offs[i] == RoundUp(ends[i], Alignment(isa))
    modifies out`data, out`behind, out`pos
    ensures ok ==> offset == ends[|trampolines|] && StandsAt(out, base, offset) && old(out.data) <= out.data
    ensures ok ==> Found(out.data, base, trampolines, offs, |trampolines|)
    ensures ok ==> padding + Sum(sizes) == offset - start
    ensures ok ==> sizes == Sizes(trampolines)
    ensures base + ends[|trampolines|] <= out.capacity ==> ok
  {
    hide RoundUp, At, Alignment, Found, Sizes;
    assert Sizes(trampolines[..0]) == [];
    ok, offset, padding, sizes := true, start, 0, [];
    NoneFound(out.data, base, trampolines, offs);
    for i := 0 to |trampolines|
      invariant ok && offset == ends[i] && StandsAt(out, base, offset) && old(out.data) <= out.data
      invariant Found(out.data, base, trampolines, offs, i)
      invariant padding + Sum(sizes) == offset - start
      invariant sizes == Sizes(trampolines[..i])
    {
      ghost var before := out.data;
      SpacedGrows(trampolines, offs, ends, i + 1, |trampolines|);
      assert offs[i] == RoundUp(ends[i], Alignment(isa));
      var alignmentPadding;
      ok, alignmentPadding := WriteTrampoline(out, base, isa, offset, trampolines[i]);
      if !ok { return; }
      padding := padding + alignmentPadding;
      SizesStep(trampolines, i);
      sizes := sizes + [|trampolines[i]|];
      offset := offset + alignmentPadding + |trampolines[i]|;
      FoundKept(before, out.data, base, trampolines, offs, i);
      FoundMore(out.data, base, trampolines, offs, i);
    }
    assert trampolines[..|trampolines|] == trampolines;
  }

  function Sizes(datas: seq<seq<byte>>): (r: seq<nat>)
    ensures |r| == |datas|
  {
    seq(|datas|, i requires 0 <= i < |datas| => |datas[i]|)
  }

  lemma SizesStep(datas: seq<seq<byte>>, i: nat)
    requires i < |datas|
    ensures Sizes(datas[..i + 1]) == Sizes(datas[..i]) + [|datas[i]|] && Sum(Sizes(datas[..i]) + [|datas[i]|]) == Sum(Sizes(datas[..i])) + |datas[i]|
  {
    assert (Sizes(datas[..i]) + [|datas[i]|])[..i] == Sizes(datas[..i]);
  }

  function TrampolineEnds(s: Setup, start: nat): (r: seq<nat>)
    ensures |r| == |s.trampolines| + 1 && r[0] == start && r[|s.trampolines|] == TrampolinesEnd(s, start, |s.trampolines|)
  {
    seq(|s.trampolines| + 1, i requires 0 <= i <= |s.trampolines| => TrampolinesEnd(s, start, i))
  }

  lemma TrampolinesSpaced(s: Setup, start: nat)
    ensures var offs, ends := TrampolineOffsets(s, start), TrampolineEnds(s, start);
            Spaced(s.trampolines, offs, ends) && forall i :: 0 <= i < |offs| ==> offs[i] == RoundUp(ends[i], Alignment(s.isa))
  {
  }

  lemma {:induction false} ZeroSum(ns: seq<nat>)
    requires forall i :: 0 <= i < |ns| ==> ns[i] == 0
    ensures Sum(ns) == 0
  {
    if ns != [] {
      ZeroSum(ns[..|ns| - 1]);
    }
  }

  // ---------- Code ----------

  /** `WriteCodeMethodVisitor` over all methods. */
  method WriteMethodCode(out: OutputStream, ghost base: nat, isa: InstructionSet, start: nat, classes: seq<OatClass>, visits: seq<Visit>,
                   ghost lay: Layout, ghost o: Offsets)
    returns (ok: bool, offset: nat, bytes: CodeBytes)
    requires Deduplicated(MethodsOf(visits)) && LayoutOk(MethodsOf(visits), lay) && o == OffsetsOf(MethodsOf(visits), lay)
    requires RecordsFinal(classes, visits, lay) && RecordsAgree(classes, visits, o, isa)
    requires isa == lay.isa && start == lay.code && StandsAt(out, base, start)
    modifies out`data, out`behind, out`pos
    ensures var end := End(CodeItems(MethodsOf(visits)), Alignment(isa), start, |visits|);
            && (ok ==> offset == end && StandsAt(out, base, end) && old(out.data) <= out.data && bytes.Total() == end - start)
            && (base + end <= out.capacity ==> ok)
    ensures ok ==> Found(out.data, base, CodeData(visits, classes), o.headers, |visits|)
    ensures ok ==> bytes == CodeBytesUpTo(CodeData(visits, classes), HeaderOffsets(MethodsOf(visits), lay), CodeEnds(MethodsOf(visits), lay), isa, |visits|)
  {
    ghost var ms := MethodsOf(visits);
    CodeScriptHolds(visits, classes, lay);
    AgreesOnCode(classes, visits, o, isa);
    assert o.headers == HeaderOffsets(ms, lay);
    ok, offset, bytes := WriteCodePass(out, base, isa, start, classes, visits, o.headers, CodeEnds(ms, lay), CodeFirsts(ms));
  }

  lemma AgreesOnCode(classes: seq<OatClass>, visits: seq<Visit>, o: Offsets, isa: InstructionSet)
    requires RecordsAgree(classes, visits, o, isa)
    ensures forall i :: 0 <= i < |visits| && visits[i].method_.quick ==>
              RecordAt(classes, visits[i]).offsets.code == o.headers[i] + METHOD_HEADER_SIZE + CodeDelta(isa)
  {
  }
}
