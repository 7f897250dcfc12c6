/** The plan of an oat file in the terms of the Write passes. */
module OatPlanFacts {
  import opened Options
  import opened Bytes
  import opened OatDedupe
  import opened OatModel
  import opened OatFile
  import opened OatEmit
  import opened OatRecords

  /** Sections do not overlap: each starts at or behind the end of the one before it. */
  lemma PlanGrows(s: Setup, dexes: seq<DexFile>)
    requires |s.trampolines| == 10
    ensures var p := PlanOf(s, dexes);
            p.dexRecords <= p.dexFiles <= p.classes <= p.lay.gcMaps <= p.lay.mappings <= p.lay.vmaps <= p.tablesEnd <= p.executable <= p.lay.code <= p.size
  {
  }

  // ---------- Dex file records ----------

  function DexRecordEnds(dexes: seq<DexFile>, start: nat): (r: seq<nat>)
    ensures |r| == |dexes| + 1 && r[0] == start && r[|dexes|] == DexRecordsEnd(dexes, start, |dexes|)
  {
    seq(|dexes| + 1, i requires 0 <= i <= |dexes| => DexRecordsEnd(dexes, start, i))
  }

  lemma DexRecordsConsecutive(records: seq<OatDexFile>, dexes: seq<DexFile>, start: nat)
    requires |records| == |dexes|
    requires forall d {:trigger records[d]} :: 0 <= d < |dexes| ==>
               records[d].location == dexes[d].location && |records[d].methodsOffsets| == |dexes[d].classes|
    ensures Consecutive(DexRecordData(records), DexRecordEnds(dexes, start))
  {
    hide EncodeDexFile;
    var datas, ends := DexRecordData(records), DexRecordEnds(dexes, start);
    forall i | 0 <= i < |datas| ensures ends[i + 1] == ends[i] + |datas[i]| {
      assert datas[i] == EncodeDexFile(records[i]);
      assert ends[i + 1] == DexRecordsEnd(dexes, start, i + 1);
    }
  }

  // ---------- Dex files ----------

  function DexFileData(dexes: seq<DexFile>): (r: seq<seq<byte>>)
    ensures |r| == |dexes|
  {
    seq(|dexes|, i requires 0 <= i < |dexes| => dexes[i].data)
  }

  function DexFileOffsets(dexes: seq<DexFile>, start: nat): (r: seq<nat>)
    ensures |r| == |dexes|
  {
    seq(|dexes|, i requires 0 <= i < |dexes| => DexPlace(dexes, start, i))
  }

  function DexFileEnds(dexes: seq<DexFile>, start: nat): (r: seq<nat>)
    ensures |r| == |dexes| + 1 && r[0] == start && r[|dexes|] == DexFilesEnd(dexes, start, |dexes|)
  {
    seq(|dexes| + 1, i requires 0 <= i <= |dexes| => DexFilesEnd(dexes, start, i))
  }

  lemma DexFilesSpaced(dexes: seq<DexFile>, start: nat)
    ensures Spaced(DexFileData(dexes), DexFileOffsets(dexes, start), DexFileEnds(dexes, start))
  {
  }

  /** The bytes of the dex files and the padding between them fill their section. */
  lemma {:induction false} DexFilesFill(dexes: seq<DexFile>, start: nat, n: nat)
    requires n <= |dexes|
    ensures TotalSize(DexFileData(dexes), n) + DexPadding(dexes, start, n) == DexFilesEnd(dexes, start, n) - start
    decreases n
  {
    if n > 0 {
      DexFilesFill(dexes, start, n - 1);
    }
  }

  /** The padding in front of the first `n` dex files. */
  function DexPadding(dexes: seq<DexFile>, start: nat, n: nat): nat
    requires n <= |dexes|
  {
    if n == 0 then 0
    else DexPadding(dexes, start, n - 1) + (DexPlace(dexes, start, n - 1) - DexFilesEnd(dexes, start, n - 1))
  }

  // ---------- Class records ----------

  function ClassEnds(defs: seq<ClassDef>, start: nat): (r: seq<nat>)
    ensures |r| == |defs| + 1 && r[0] == start && r[|defs|] == ClassesEnd(defs, start, |defs|)
  {
    seq(|defs| + 1, i requires 0 <= i <= |defs| => ClassesEnd(defs, start, i))
  }

  lemma ClassSizeIs(c: OatClass, def: ClassDef, offset: nat)
    requires ClassMade(c, def, offset) && -1 <= c.status <= 9
    ensures |EncodeClass(c)| == ClassSize(def.methods)
  {
  }

  lemma ClassesConsecutive(classes: seq<OatClass>, defs: seq<ClassDef>, start: nat)
    requires ClassesMade(classes, defs, start) && StatusesOk(classes)
    ensures Consecutive(ClassData(classes), ClassEnds(defs, start))
    ensures forall i :: 0 <= i < |classes| ==> classes[i].offset == ClassEnds(defs, start)[i]
  {
    var datas, ends := ClassData(classes), ClassEnds(defs, start);
    forall i | 0 <= i < |datas| ensures ends[i + 1] == ends[i] + |datas[i]| && classes[i].offset == ends[i] {
      assert datas[i] == EncodeClass(classes[i]);
      ClassSizeIs(classes[i], defs[i], ClassesEnd(defs, start, i));
    }
  }

  // ---------- Trampolines ----------

  function TrampolineOffsets(s: Setup, start: nat): (r: seq<nat>)
    ensures |r| == |s.trampolines|
  {
    seq(|s.trampolines|, i requires 0 <= i < |s.trampolines| => TrampolinePlace(s, start, i))
  }

  // ---------- Methods ----------

  /** What a method's record promises about the file: its header and code behind each other at its
      code offset, and each of its tables at the offset the record yields. */
  ghost predicate MethodFound(data: seq<byte>, base: nat, m: CompiledMethod, r: Record) {
    && (m.quick ==> CodeBase(r.offsets.code) >= METHOD_HEADER_SIZE &&
                    At(data, base + CodeBase(r.offsets.code) - METHOD_HEADER_SIZE, EncodeHeader(r.header) + m.code.data))
    && (forall tab :: TableOf(m, tab).data != [] ==> GetOffset(r, tab) > 0 && At(data, base + GetOffset(r, tab), TableOf(m, tab).data))
  }

  ghost predicate MethodsFound(data: seq<byte>, base: nat, classes: seq<OatClass>, visits: seq<Visit>) {
    && Slotted(visits, classes)
    && forall i {:trigger RecordAt(classes, visits[i])} :: 0 <= i < |visits| ==>
         MethodFound(data, base, visits[i].method_, RecordAt(classes, visits[i]))
  }

  /** What the code pass needs to know of a Quick method's record. */
  lemma CodeRecorded(ms: seq<CompiledMethod>, lay: Layout, i: nat)
    requires Deduplicated(ms) && LayoutOk(ms, lay) && i < |ms| && ms[i].quick
    ensures FinalRecord(ms, lay, i).offsets.code == HeaderOffsets(ms, lay)[i] + METHOD_HEADER_SIZE + CodeDelta(lay.isa)
    ensures CodeBase(FinalRecord(ms, lay, i).offsets.code) == HeaderOffsets(ms, lay)[i] + METHOD_HEADER_SIZE
  {
    FinalFields(ms, lay, i);
  }

  /** The offsets of headers and tables, by method. */
  datatype Offsets = Offsets(headers: seq<nat>, gcMaps: seq<nat>, mappings: seq<nat>, vmaps: seq<nat>) {
    function Of(tab: Table): seq<nat> {
      match tab
      case GcMap => gcMaps
      case Mapping => mappings
      case Vmap => vmaps
    }

    predicate Sized(n: nat) {
      |headers| == |gcMaps| == |mappings| == |vmaps| == n
    }
  }

  function OffsetsOf(ms: seq<CompiledMethod>, lay: Layout): (o: Offsets)
    ensures o.Sized(|ms|)
  {
    Offsets(HeaderOffsets(ms, lay), TableOffsets(ms, lay, GcMap), TableOffsets(ms, lay, Mapping), TableOffsets(ms, lay, Vmap))
  }

  /** What the write passes need to know of a method's record. */
  ghost predicate RecordAgrees(m: CompiledMethod, r: Record, o: Offsets, isa: InstructionSet, i: nat)
    requires o.Sized(|o.headers|) && i < |o.headers|
  {
    && (m.quick ==> r.offsets.code == o.headers[i] + METHOD_HEADER_SIZE + CodeDelta(isa))
    && (m.quick ==> CodeBase(r.offsets.code) == o.headers[i] + METHOD_HEADER_SIZE)
    && (forall tab :: GetOffset(r, tab) == o.Of(tab)[i])
    && (forall tab :: TableOf(m, tab).data != [] ==> o.Of(tab)[i] > 0)
  }

  lemma FinalAgrees(ms: seq<CompiledMethod>, lay: Layout, i: nat)
    requires Deduplicated(ms) && LayoutOk(ms, lay) && i < |ms|
    ensures RecordAgrees(ms[i], FinalRecord(ms, lay, i), OffsetsOf(ms, lay), lay.isa, i)
  {
    hide FinalRecord, GetOffset, CodeBase, Deduplicated, LayoutOk, TableOffset;
    var o := OffsetsOf(ms, lay);
    assert forall tab :: o.Of(tab) == TableOffsets(ms, lay, tab);
    if ms[i].quick {
      CodeRecorded(ms, lay, i);
    }
    forall tab ensures GetOffset(FinalRecord(ms, lay, i), tab) == o.Of(tab)[i] {
      OffsetsReadBack(ms, lay, tab, i);
    }
    forall tab | TableOf(ms[i], tab).data != [] ensures o.Of(tab)[i] > 0 {
      TableRange(ms, lay, tab, i);
    }
  }

  ghost predicate RecordsAgree(classes: seq<OatClass>, visits: seq<Visit>, o: Offsets, isa: InstructionSet) {
    && Slotted(visits, classes) && o.Sized(|visits|)
    && forall i {:trigger RecordAt(classes, visits[i])} :: 0 <= i < |visits| ==>
         RecordAgrees(visits[i].method_, RecordAt(classes, visits[i]), o, isa, i)
  }

  lemma FinalRecordsAgree(classes: seq<OatClass>, visits: seq<Visit>, lay: Layout)
    requires RecordsFinal(classes, visits, lay) && Deduplicated(MethodsOf(visits)) && LayoutOk(MethodsOf(visits), lay)
    ensures RecordsAgree(classes, visits, OffsetsOf(MethodsOf(visits), lay), lay.isa)
  {
    forall i | 0 <= i < |visits| ensures RecordAgrees(visits[i].method_, RecordAt(classes, visits[i]), OffsetsOf(MethodsOf(visits), lay), lay.isa, i) {
      FinalAgrees(MethodsOf(visits), lay, i);
    }
  }

  lemma CodeFoundAt(data: seq<byte>, base: nat, classes: seq<OatClass>, visits: seq<Visit>, offs: seq<nat>, i: nat)
    requires Slotted(visits, classes) && |offs| == |visits| && Found(data, base, CodeData(visits, classes), offs, |visits|)
    requires i < |visits| && visits[i].method_.quick && CodeBase(RecordAt(classes, visits[i]).offsets.code) == offs[i] + METHOD_HEADER_SIZE
    ensures var m, r := visits[i].method_, RecordAt(classes, visits[i]);
            CodeBase(r.offsets.code) >= METHOD_HEADER_SIZE &&
            At(data, base + CodeBase(r.offsets.code) - METHOD_HEADER_SIZE, EncodeHeader(r.header) + m.code.data)
  {
    assert At(data, base + offs[i], CodeData(visits, classes)[i]);
  }

  lemma TableFoundAt(data: seq<byte>, base: nat, visits: seq<Visit>, tab: Table, offs: seq<nat>, i: nat)
    requires |offs| == |visits| && Found(data, base, TableData(visits, tab), offs, |visits|) && i < |visits|
    ensures At(data, base + offs[i], TableOf(visits[i].method_, tab).data)
  {
  }

  /** Once the sections are written, every method, repeated or not, is found through its record. */
  lemma AllMethodsFound(data: seq<byte>, base: nat, classes: seq<OatClass>, visits: seq<Visit>, o: Offsets, isa: InstructionSet)
    requires RecordsAgree(classes, visits, o, isa)
    requires forall tab :: Found(data, base, TableData(visits, tab), o.Of(tab), |visits|)
    requires Found(data, base, CodeData(visits, classes), o.headers, |visits|)
    ensures MethodsFound(data, base, classes, visits)
  {
    hide MethodFound, RecordAgrees, Found;
    forall i | 0 <= i < |visits| ensures MethodFound(data, base, visits[i].method_, RecordAt(classes, visits[i])) {
      OneMethodFound(data, base, classes, visits, o, isa, i);
    }
  }

  lemma OneMethodFound(data: seq<byte>, base: nat, classes: seq<OatClass>, visits: seq<Visit>, o: Offsets, isa: InstructionSet, i: nat)
    requires Slotted(visits, classes) && o.Sized(|visits|) && i < |visits| && RecordAgrees(visits[i].method_, RecordAt(classes, visits[i]), o, isa, i)
    requires forall tab :: Found(data, base, TableData(visits, tab), o.Of(tab), |visits|)
    requires Found(data, base, CodeData(visits, classes), o.headers, |visits|)
    ensures MethodFound(data, base, visits[i].method_, RecordAt(classes, visits[i]))
  {
    hide At, Found, CodeData, TableData;
    var m, r := visits[i].method_, RecordAt(classes, visits[i]);
    if m.quick {
      CodeFoundAt(data, base, classes, visits, o.headers, i);
    }
    forall tab | TableOf(m, tab).data != [] ensures GetOffset(r, tab) > 0 && At(data, base + GetOffset(r, tab), TableOf(m, tab).data) {
      TableFoundAt(data, base, visits, tab, o.Of(tab), i);
    }
  }
}
