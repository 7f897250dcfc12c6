/**
  The oat writer (compiler/oat_writer.cc).  The constructor runs the Init passes, which assign an
  offset to everything using maps to deduplicate; `Write` then emits the file, deciding from the
  recorded offsets alone what is a first occurrence.
*/
module OatWriter {
  import opened Options
  import opened Bytes
  import opened OatDedupe
  import opened OatModel
  import opened OatFile
  import opened OatStream
  import opened OatEmit
  import opened OatRecords
  import opened OatPlanFacts
  import opened OatSections

  /** Bytes written, by category. */
  datatype Stats = Stats(
    dexFileAlignment: nat, executableAlignment: nat, oatHeader: nat, imageLocation: nat, dexFile: nat,
    trampolines: seq<nat>, trampolineAlignment: nat, methodHeader: nat, code: nat, codeAlignment: nat,
    mappingTable: nat, vmapTable: nat, gcMap: nat, locationSize: nat, locationData: nat, locationChecksum: nat,
    dexFileOffset: nat, methodsOffsets: nat, classType: nat, classStatus: nat, classBitmaps: nat, classMethodOffsets: nat)
  {
    function Total(): nat {
      dexFileAlignment + executableAlignment + oatHeader + imageLocation + dexFile + Sum(trampolines) + trampolineAlignment +
      methodHeader + code + codeAlignment + mappingTable + vmapTable + gcMap + locationSize + locationData + locationChecksum +
      dexFileOffset + methodsOffsets + classType + classStatus + classBitmaps + classMethodOffsets
    }

    function WithFront(header: nat, location: nat): (r: Stats)
      ensures r.Total() == Total() + header + location
    {
      this.(oatHeader := oatHeader + header, imageLocation := imageLocation + location)
    }

    function WithDexFiles(b: DexBytes, files: nat): (r: Stats)
      ensures r.Total() == Total() + b.Total() + files
    {
      this.(locationSize := locationSize + b.locationSize, locationData := locationData + b.locationData,
            locationChecksum := locationChecksum + b.checksum, dexFileOffset := dexFileOffset + b.offset,
            methodsOffsets := methodsOffsets + b.methodsOffsets, dexFile := dexFile + files)
    }

    function WithClasses(b: ClassBytes): (r: Stats)
      ensures r.Total() == Total() + b.Total()
    {
      this.(classStatus := classStatus + b.status, classType := classType + b.kind, classBitmaps := classBitmaps + b.bitmaps,
            classMethodOffsets := classMethodOffsets + b.methodOffsets)
    }

    function WithTables(gc: nat, mapping: nat, vmap: nat): Stats {
      this.(gcMap := gc, mappingTable := mapping, vmapTable := vmap)
    }

    function WithTrampolines(sizes: seq<nat>, padding: nat): (r: Stats)
      requires |sizes| == |trampolines|
    {
      this.(trampolines := seq(|sizes|, i requires 0 <= i < |sizes| => trampolines[i] + sizes[i]), trampolineAlignment := trampolineAlignment + padding)
    }

    function WithCode(b: CodeBytes): (r: Stats)
      ensures r.Total() == Total() + b.Total()
    {
      this.(codeAlignment := codeAlignment + b.padding, methodHeader := methodHeader + b.headers, code := code + b.code)
    }
  }

  class OatWriter {
    const setup: Setup
    const dexFiles: seq<DexFile>
    var header: OatHeader
    var oatDexFiles: seq<OatDexFile>
    var oatClasses: seq<OatClass>
    var size: nat
    var stats: Stats

    /** The Init passes are done and `Write` has not started. */
    ghost predicate Planned()
      reads this
    {
      LaidOut() && stats == PlannedStats(setup, dexFiles)
    }

    /** Every record is as planned. */
    ghost predicate LaidOut()
      reads this`size, this`header, this`oatDexFiles, this`oatClasses
    {
      && setup.Valid()
      && size == PlanOf(setup, dexFiles).size
      && header == PlannedHeader(setup, PlanOf(setup, dexFiles).executable)
      && DexRecordsPlanned(oatDexFiles, setup, dexFiles)
      && ClassesMade(oatClasses, AllClasses(dexFiles), PlanOf(setup, dexFiles).classes)
      && RecordsFinal(oatClasses, AllVisits(dexFiles), PlanOf(setup, dexFiles).lay)
    }

    /** The Init passes, in the order of the file.  After them everything is as planned. */
    constructor (setup: Setup, dexFiles: seq<DexFile>)
      requires setup.Valid()
      ensures this.setup == setup && this.dexFiles == dexFiles && Planned()
    {
      this.setup, this.dexFiles := setup, dexFiles;
      header := OatHeader(0, seq(10, _ => 0));
      oatDexFiles, oatClasses, size := [], [], 0;
      stats := NO_STATS;
      new;
      var offset := InitRecords();
      offset := InitMethods(offset);
      size := offset;
    }

    /** The passes that lay out the header, the dex files and the class records. */
    method InitRecords() returns (offset: nat)
      requires setup.Valid()
      modifies this`oatDexFiles, this`oatClasses, this`stats
      ensures offset == PlanOf(setup, dexFiles).lay.gcMaps
      ensures DexRecordsPlanned(oatDexFiles, setup, dexFiles)
      ensures ClassesMade(oatClasses, AllClasses(dexFiles), PlanOf(setup, dexFiles).classes) && AllBlank(oatClasses)
      ensures stats == old(stats).(dexFileAlignment := old(stats).dexFileAlignment + DexPadding(dexFiles, PlanOf(setup, dexFiles).dexFiles, |dexFiles|))
    {
      offset := HEADER_SIZE + |setup.imageLocation|;
      offset := InitOatDexFiles(offset);
      offset := InitDexFiles(offset);
      offset := InitOatClasses(offset);
    }

    /** The passes that lay out what belongs to methods. */
    method InitMethods(start: nat) returns (offset: nat)
      requires setup.Valid() && start == PlanOf(setup, dexFiles).lay.gcMaps
      requires ClassesMade(oatClasses, AllClasses(dexFiles), PlanOf(setup, dexFiles).classes) && AllBlank(oatClasses)
      modifies this`oatClasses, this`header, this`stats
      ensures offset == PlanOf(setup, dexFiles).size
      ensures header == PlannedHeader(setup, PlanOf(setup, dexFiles).executable)
      ensures ClassesMade(oatClasses, AllClasses(dexFiles), PlanOf(setup, dexFiles).classes)
      ensures RecordsFinal(oatClasses, AllVisits(dexFiles), PlanOf(setup, dexFiles).lay)
      ensures stats == old(stats).(executableAlignment := PlanOf(setup, dexFiles).executable - PlanOf(setup, dexFiles).tablesEnd)
    {
      ghost var defs, plan := AllClasses(dexFiles), PlanOf(setup, dexFiles);
      MadeShaped(oatClasses, defs, plan.classes);
      offset := InitOatMaps(start);
      ghost var tables := oatClasses;
      assert TablesRecorded(tables, dexFiles, plan.lay);
      MadeKept(old(oatClasses), tables, defs, plan.classes);
      MadeShaped(tables, defs, plan.classes);
      offset := InitOatCode(offset);
      offset := InitOatCodeDexFiles(offset);
      MadeKept(tables, oatClasses, defs, plan.classes);
      MethodsDone(tables, oatClasses, dexFiles, plan.lay);
    }

    // ---------- Visiting ----------

    /** Visits the compiled methods of one class, counting them. */
    static method VisitClass(oatClassIndex: nat, methods: seq<Option<CompiledMethod>>) returns (visits: seq<Visit>)
      ensures visits == ClassVisits(oatClassIndex, Compiled(methods))
    {
      visits := [];
      var methodOffsetsIndex := 0;
      for m := 0 to |methods|
        invariant methodOffsetsIndex == |Compiled(methods[..m])|
        invariant visits == ClassVisits(oatClassIndex, Compiled(methods[..m]))
      {
        assert methods[..m + 1][..m] == methods[..m];
        if methods[m].Some? {
          visits := visits + [Visit(oatClassIndex, methodOffsetsIndex, methods[m].value)];
          methodOffsetsIndex := methodOffsetsIndex + 1;
        }
      }
      assert methods[..|methods|] == methods;
    }

    /** Visits all compiled methods of all classes of all dex files, counting the classes. */
    method VisitDexMethods() returns (visits: seq<Visit>)
      requires |oatClasses| == |AllClasses(dexFiles)|
      requires forall c :: 0 <= c < |oatClasses| ==> oatClasses[c].methods == AllClasses(dexFiles)[c].methods
      ensures visits == AllVisits(dexFiles)
    {
      ghost var defs := AllClasses(dexFiles);
      assert dexFiles[..|dexFiles|] == dexFiles;
      assert ClassBase(dexFiles, 0) == 0 && ClassBase(dexFiles, |dexFiles|) == |defs| && Visits(defs, 0) == [];
      visits := [];
      var oatClassIndex := 0;
      hide AllClasses, ClassBase, ClassVisits, Compiled;
      for d := 0 to |dexFiles|
        invariant oatClassIndex == ClassBase(dexFiles, d) <= |defs|
        invariant visits == Visits(defs, oatClassIndex)
      {
        ClassesInRange(dexFiles, d);
        NextBase(dexFiles, d);
        for c := 0 to |dexFiles[d].classes|
          invariant oatClassIndex == ClassBase(dexFiles, d) + c <= |defs|
          invariant visits == Visits(defs, oatClassIndex)
        {
          ClassAt(dexFiles, d, c);
          var classVisits := VisitClass(oatClassIndex, oatClasses[oatClassIndex].methods);
          visits := visits + classVisits;
          oatClassIndex := oatClassIndex + 1;
        }
      }
    }

    // ---------- Init passes ----------

    method InitOatDexFiles(start: nat) returns (offset: nat)
      modifies this`oatDexFiles
      ensures offset == DexRecordsEnd(dexFiles, start, |dexFiles|)
      ensures |oatDexFiles| == |dexFiles|
      ensures forall d :: 0 <= d < |dexFiles| ==> oatDexFiles[d] == BlankDexRecord(dexFiles, start, d)
    {
      offset := start;
      oatDexFiles := [];
      for i := 0 to |dexFiles|
        invariant |oatDexFiles| == i && offset == DexRecordsEnd(dexFiles, start, i)
        invariant forall d :: 0 <= d < i ==> oatDexFiles[d] == BlankDexRecord(dexFiles, start, d)
      {
        var dex := dexFiles[i];
        var r := OatDexFile(offset, dex.location, dex.checksum, 0, seq(|dex.classes|, _ => 0));
        oatDexFiles := oatDexFiles + [r];
        offset := offset + 4 + |r.location| + 4 + 4 + 4 * |r.methodsOffsets|;
      }
    }

    method InitDexFiles(start: nat) returns (offset: nat)
      requires |oatDexFiles| == |dexFiles|
      modifies this`oatDexFiles, this`stats
      ensures offset == DexFilesEnd(dexFiles, start, |dexFiles|)
      ensures stats == old(stats).(dexFileAlignment := old(stats).dexFileAlignment + DexPadding(dexFiles, start, |dexFiles|))
      ensures |oatDexFiles| == |dexFiles|
      ensures forall d :: 0 <= d < |dexFiles| ==>
                oatDexFiles[d] == old(oatDexFiles[d]).(dexFileOffset := Wrap32(DexPlace(dexFiles, start, d)))
    {
      offset := start;
      for i := 0 to |dexFiles|
        invariant offset == DexFilesEnd(dexFiles, start, i)
        invariant stats == old(stats).(dexFileAlignment := old(stats).dexFileAlignment + DexPadding(dexFiles, start, i))
        invariant |oatDexFiles| == |dexFiles|
        invariant forall d :: 0 <= d < |dexFiles| ==>
                    oatDexFiles[d] == if d < i then old(oatDexFiles[d]).(dexFileOffset := Wrap32(DexPlace(dexFiles, start, d))) else old(oatDexFiles[d])
      {
        var originalOffset := offset;
        offset := RoundUp(offset, 4);
        stats := stats.(dexFileAlignment := stats.dexFileAlignment + (offset - originalOffset));
        oatDexFiles := oatDexFiles[i := oatDexFiles[i].(dexFileOffset := Wrap32(offset))];
        offset := offset + |dexFiles[i].data|;
      }
    }

    /** The constructor of an `OatClass`, given how many of the methods are compiled. */
    static method NewOatClass(offset: nat, methods: seq<Option<CompiledMethod>>, compiled: nat, status: int) returns (c: OatClass)
      requires compiled == |Compiled(methods)|
      ensures ClassMade(c, ClassDef(methods, status), offset)
      ensures c.records == seq(compiled, _ => BLANK)
    {
      var kind := if compiled == 0 then NoneCompiled else if compiled == |methods| then AllCompiled else SomeCompiled;
      var bitmapSize := if kind.SomeCompiled? then BitmapSize(|methods|) else 0;
      var prefix := 4 + (if kind.SomeCompiled? then 4 + bitmapSize else 0);
      if kind.SomeCompiled? {
        SomeCompiledHasBitmap(methods);
      }
      var slotOffsets, bitmap := AssignSlots(methods, prefix, kind.SomeCompiled?);
      c := OatClass(offset, methods, status, kind, bitmap, bitmapSize, slotOffsets, seq(compiled, _ => BLANK));
    }

    /** The loop over the methods of a class: offsets of their records, and their bits. */
    static method AssignSlots(methods: seq<Option<CompiledMethod>>, prefix: nat, wantBitmap: bool) returns (slotOffsets: seq<nat>, bitmap: seq<bool>)
      ensures slotOffsets == SlotOffsets(methods, prefix)
      ensures wantBitmap ==> |bitmap| == |methods| && forall i :: 0 <= i < |methods| ==> bitmap[i] == methods[i].Some?
    {
      var next := prefix;
      slotOffsets := [];
      bitmap := if wantBitmap then seq(|methods|, _ => false) else [];
      for i := 0 to |methods|
        invariant |slotOffsets| == i && next == prefix + METHOD_OFFSETS_SIZE * |Compiled(methods[..i])|
        invariant forall j :: 0 <= j < i ==> slotOffsets[j] == SlotOffsets(methods, prefix)[j]
        invariant wantBitmap ==> |bitmap| == |methods| && forall j :: 0 <= j < |methods| ==> bitmap[j] == (j < i && methods[j].Some?)
      {
        assert methods[..i + 1][..i] == methods[..i];
        if methods[i].None? {
          slotOffsets := slotOffsets + [0];
        } else {
          slotOffsets := slotOffsets + [next];
          next := next + METHOD_OFFSETS_SIZE;
          if wantBitmap {
            bitmap := bitmap[i := true];
          }
        }
      }
    }

    /** `SizeOf` of a class record. */
    static function SizeOf(c: OatClass): nat {
      4 + (if c.bitmapSize == 0 then 0 else 4) + c.bitmapSize + METHOD_OFFSETS_SIZE * |c.records|
    }

    method InitOatClasses(start: nat) returns (offset: nat)
      requires |oatDexFiles| == |dexFiles|
      requires forall d :: 0 <= d < |dexFiles| ==> |oatDexFiles[d].methodsOffsets| == |dexFiles[d].classes|
      modifies this`oatClasses, this`oatDexFiles
      ensures offset == ClassesEnd(AllClasses(dexFiles), start, |AllClasses(dexFiles)|)
      ensures ClassesMade(oatClasses, AllClasses(dexFiles), start)
      ensures AllBlank(oatClasses)
      ensures |oatDexFiles| == |dexFiles|
      ensures forall d :: 0 <= d < |dexFiles| ==> oatDexFiles[d] == old(oatDexFiles[d]).(methodsOffsets := ClassOffsets(dexFiles, start, d))
    {
      offset := InitClassRecords(start);
      var it := 0;
      ghost var made := oatClasses;
      for d := 0 to |dexFiles|
        invariant it == ClassBase(dexFiles, d) && oatClasses == made
        invariant |oatDexFiles| == |dexFiles|
        invariant forall e :: 0 <= e < |dexFiles| ==>
                    oatDexFiles[e] == if e < d then old(oatDexFiles[e]).(methodsOffsets := ClassOffsets(dexFiles, start, e)) else old(oatDexFiles[e])
      {
        var offsets := CollectOffsets(start, d, it, |oatDexFiles[d].methodsOffsets|);
        oatDexFiles := oatDexFiles[d := oatDexFiles[d].(methodsOffsets := offsets)];
        it := it + |offsets|;
        NextBase(dexFiles, d);
      }
    }

    /** The offsets of the class records of dex file `d`, the first of which is number `it`. */
    method CollectOffsets(ghost start: nat, ghost d: nat, it: nat, count: nat) returns (offsets: seq<uint32>)
      requires d < |dexFiles| && it == ClassBase(dexFiles, d) && count == |dexFiles[d].classes|
      requires ClassesMade(oatClasses, AllClasses(dexFiles), start)
      ensures offsets == ClassOffsets(dexFiles, start, d)
    {
      ClassesInRange(dexFiles, d);
      offsets := [];
      for j := 0 to count
        invariant |offsets| == j
        invariant forall i :: 0 <= i < j ==> offsets[i] == ClassOffsets(dexFiles, start, d)[i]
      {
        offsets := offsets + [Wrap32(oatClasses[it + j].offset)];
      }
    }

    /** Collects the methods of a class and counts the compiled ones. */
    static method CollectMethods(def: ClassDef) returns (compiledMethods: seq<Option<CompiledMethod>>, compiled: nat)
      ensures compiledMethods == def.methods && compiled == |Compiled(def.methods)|
    {
      compiledMethods, compiled := [], 0;
      for m := 0 to |def.methods|
        invariant compiledMethods == def.methods[..m] && compiled == |Compiled(def.methods[..m])|
      {
        assert def.methods[..m + 1][..m] == def.methods[..m];
        compiledMethods := compiledMethods + [def.methods[m]];
        if def.methods[m].Some? {
          compiled := compiled + 1;
        }
      }
      assert def.methods[..|def.methods|] == def.methods;
    }

    /** The record of a class whose methods have been visited. */
    static method EndClass(def: ClassDef, offset: nat) returns (c: OatClass)
      ensures ClassMade(c, def, offset) && SizeOf(c) == ClassSize(def.methods)
      ensures c.records == seq(|c.records|, _ => BLANK)
    {
      var compiledMethods, compiled := CollectMethods(def);
      c := NewOatClass(offset, compiledMethods, compiled, def.status);
    }

    /** `InitOatClassesMethodVisitor` over the classes of dex file `d`. */
    method InitDexClasses(ghost start: nat, d: nat, offset0: nat) returns (offset: nat)
      requires d < |dexFiles| && |oatClasses| == ClassBase(dexFiles, d) <= |AllClasses(dexFiles)|
      requires offset0 == ClassesEnd(AllClasses(dexFiles), start, |oatClasses|)
      requires FirstClassesMade(oatClasses, AllClasses(dexFiles), start)
      modifies this`oatClasses
      ensures |oatClasses| == ClassBase(dexFiles, d + 1) <= |AllClasses(dexFiles)|
      ensures offset == ClassesEnd(AllClasses(dexFiles), start, |oatClasses|)
      ensures FirstClassesMade(oatClasses, AllClasses(dexFiles), start)
    {
      ghost var defs := AllClasses(dexFiles);
      offset := offset0;
      hide AllClasses, ClassBase, FirstClassesMade, ClassMade;
      ClassesInRange(dexFiles, d);
      for c := 0 to |dexFiles[d].classes|
        invariant |oatClasses| == ClassBase(dexFiles, d) + c <= |defs| && offset == ClassesEnd(defs, start, |oatClasses|)
        invariant FirstClassesMade(oatClasses, defs, start)
      {
        ClassAt(dexFiles, d, c);
        var oatClass := EndClass(dexFiles[d].classes[c], offset);
        AppendMade(oatClasses, oatClass, defs, start);
        oatClasses := oatClasses + [oatClass];
        offset := offset + SizeOf(oatClass);
      }
      NextBase(dexFiles, d);
    }

    /** `InitOatClassesMethodVisitor`: appends the record of each class. */
    method InitClassRecords(start: nat) returns (offset: nat)
      modifies this`oatClasses
      ensures offset == ClassesEnd(AllClasses(dexFiles), start, |AllClasses(dexFiles)|)
      ensures ClassesMade(oatClasses, AllClasses(dexFiles), start) && AllBlank(oatClasses)
    {
      offset := start;
      oatClasses := [];
      for d := 0 to |dexFiles|
        invariant |oatClasses| == ClassBase(dexFiles, d) <= |AllClasses(dexFiles)|
        invariant offset == ClassesEnd(AllClasses(dexFiles), start, |oatClasses|)
        invariant FirstClassesMade(oatClasses, AllClasses(dexFiles), start)
      {
        offset := InitDexClasses(start, d, offset);
      }
      assert dexFiles[..|dexFiles|] == dexFiles;
    }

    /** `InitMapMethodVisitor::VisitMethod`, for the method of visit `i`. */
    static method InitMapVisit(tab: Table, m: CompiledMethod, record: Record, dedupe: map<nat, nat>, offset: nat,
                               ghost ms: seq<CompiledMethod>, ghost start: nat, ghost i: nat)
      returns (record': Record, dedupe': map<nat, nat>, offset': nat)
      requires i < |ms| && ms[i] == m && Tracks(TableItems(ms, tab), 1, start, 0, i, dedupe, offset)
      ensures record' == StoreAt(ms, tab, start, i, record)
      ensures Tracks(TableItems(ms, tab), 1, start, 0, i + 1, dedupe', offset')
    {
      ghost var items := TableItems(ms, tab);
      var table := TableOf(m, tab);
      record', dedupe', offset' := record, dedupe, offset;
      if |table.data| != 0 {
        if table.addr in dedupe {
          TrackHit(items, 1, start, 0, i, dedupe, offset);
          record' := SetOffset(record, tab, Wrap32(dedupe[table.addr]));
        } else {
          TrackMiss(items, 1, start, 0, i, dedupe, offset);
          record' := SetOffset(record, tab, Wrap32(offset));
          dedupe' := dedupe[table.addr := offset];
          offset' := offset + |table.data|;
        }
      } else {
        TrackSkip(items, 1, start, 0, i, dedupe, offset);
      }
    }

    /** The pass of `InitMapMethodVisitor` for one kind of table, given the visits. */
    static method MapPass(tab: Table, start: nat, classes: seq<OatClass>, visits: seq<Visit>) returns (classes': seq<OatClass>, offset: nat)
      requires Slotted(visits, classes)
      ensures SameButRecords(classes, classes') && Slotted(visits, classes')
      ensures offset == End(TableItems(MethodsOf(visits), tab), 1, start, |visits|)
      ensures TableStored(classes, classes', visits, tab, start)
    {
      ghost var ms := MethodsOf(visits);
      hide StoreAt;
      var dedupe: map<nat, nat> := map[];
      classes', offset := classes, start;
      for i := 0 to |visits|
        invariant Tracks(TableItems(ms, tab), 1, start, 0, i, dedupe, offset)
        invariant SameButRecords(classes, classes') && Slotted(visits, classes')
        invariant forall j {:trigger RecordAt(classes', visits[j])} :: 0 <= j < i ==>
                    RecordAt(classes', visits[j]) == StoreAt(ms, tab, start, j, RecordAt(classes, visits[j]))
        invariant forall j {:trigger RecordAt(classes', visits[j])} :: i <= j < |visits| ==> RecordAt(classes', visits[j]) == RecordAt(classes, visits[j])
      {
        var r;
        r, dedupe, offset := InitMapVisit(tab, visits[i].method_, RecordAt(classes', visits[i]), dedupe, offset, ms, start, i);
        RecordFilled(visits, classes', i, r);
        classes' := WithRecord(classes', visits[i], r);
      }
    }

    method InitMap(tab: Table, start: nat) returns (offset: nat)
      requires Shaped(oatClasses, AllClasses(dexFiles))
      modifies this`oatClasses
      ensures SameButRecords(old(oatClasses), oatClasses)
      ensures offset == End(TableItems(Methods(dexFiles), tab), 1, start, |Methods(dexFiles)|)
      ensures TableStored(old(oatClasses), oatClasses, AllVisits(dexFiles), tab, start)
    {
      var visits := VisitDexMethods();
      VisitsSlotted(oatClasses, AllClasses(dexFiles));
      oatClasses, offset := MapPass(tab, start, oatClasses, visits);
    }

    /** The three passes for GC maps, mapping tables and vmap tables. */
    method InitOatMaps(start: nat) returns (offset: nat)
      requires Shaped(oatClasses, AllClasses(dexFiles)) && AllBlank(oatClasses)
      modifies this`oatClasses
      ensures SameButRecords(old(oatClasses), oatClasses)
      ensures var ms := Methods(dexFiles);
              var mappings := End(TableItems(ms, GcMap), 1, start, |ms|);
              var vmaps := End(TableItems(ms, Mapping), 1, mappings, |ms|);
              && offset == End(TableItems(ms, Vmap), 1, vmaps, |ms|)
              && forall code, isa :: TablesRecorded(oatClasses, dexFiles, Layout(start, mappings, vmaps, code, isa))
    {
      ghost var visits := AllVisits(dexFiles);
      var mappings := InitMap(GcMap, start);
      ghost var a := oatClasses;
      var vmaps := InitMap(Mapping, mappings);
      ghost var b := oatClasses;
      offset := InitMap(Vmap, vmaps);
      forall code, isa ensures TablesRecorded(oatClasses, dexFiles, Layout(start, mappings, vmaps, code, isa)) {
        TablesAllStored(old(oatClasses), a, b, oatClasses, visits, Layout(start, mappings, vmaps, code, isa));
      }
    }

    /** The page-aligned start of executable code, and the trampolines of a boot image. */
    method InitOatCode(start: nat) returns (offset: nat)
      requires setup.Valid()
      modifies this`header, this`stats
      ensures var executable := RoundUp(start, PAGE_SIZE);
              && header == PlannedHeader(setup, executable)
              && offset == (if setup.isImage then TrampolinesEnd(setup, executable, |setup.trampolines|) else executable)
              && stats == old(stats).(executableAlignment := executable - start)
    {
      offset := RoundUp(start, PAGE_SIZE);
      ghost var executable := offset;
      var offsets: seq<uint32> := [];
      header := OatHeader(Wrap32(offset), []);
      stats := stats.(executableAlignment := offset - start);
      for i := 0 to |setup.trampolines|
        invariant |offsets| == i
        invariant offset == if setup.isImage then TrampolinesEnd(setup, executable, i) else executable
        invariant forall j :: 0 <= j < i ==> offsets[j] == PlannedHeader(setup, executable).trampolines[j]
      {
        if setup.isImage {
          offset := RoundUp(offset, Alignment(setup.isa));
          offsets := offsets + [Wrap32(offset)];
          offset := offset + |setup.trampolines[i]|;
        } else {
          offsets := offsets + [0];
        }
      }
      header := header.(trampolines := offsets);
    }

    /** Places the header and code of a Quick method, or finds where they are: the second half of
        `InitCodeMethodVisitor::VisitMethod`. */
    static method DedupeCode(isa: InstructionSet, m: CompiledMethod, dedupe: map<CodeKey, nat>, offset: nat,
                             ghost ms: seq<CompiledMethod>, ghost start: nat, ghost i: nat)
      returns (quickCodeOffset: nat, dedupe': map<CodeKey, nat>, offset': nat)
      requires i < |ms| && ms[i] == m && m.quick
      requires Tracks(CodeItems(ms), Alignment(isa), start, METHOD_HEADER_SIZE + CodeDelta(isa), i, dedupe, offset)
      ensures quickCodeOffset == Place(CodeItems(ms), Alignment(isa), start, i) + METHOD_HEADER_SIZE + CodeDelta(isa)
      ensures Tracks(CodeItems(ms), Alignment(isa), start, METHOD_HEADER_SIZE + CodeDelta(isa), i + 1, dedupe', offset')
    {
      ghost var items, shift := CodeItems(ms), METHOD_HEADER_SIZE + CodeDelta(isa);
      dedupe', offset' := dedupe, RoundUp(offset, Alignment(isa));
      quickCodeOffset := offset' + METHOD_HEADER_SIZE + CodeDelta(isa);
      if KeyOf(m) in dedupe {
        TrackHit(items, Alignment(isa), start, shift, i, dedupe, offset);
        quickCodeOffset := dedupe[KeyOf(m)];
      } else {
        TrackMiss(items, Alignment(isa), start, shift, i, dedupe, offset);
        dedupe' := dedupe[KeyOf(m) := quickCodeOffset];
        offset' := offset' + METHOD_HEADER_SIZE;
        offset' := offset' + |m.code.data|;
      }
    }

    /** `InitCodeMethodVisitor::VisitMethod`, for the method of visit `i`. */
    static method InitCodeVisit(isa: InstructionSet, m: CompiledMethod, record: Record, dedupe: map<CodeKey, nat>, offset: nat,
                                ghost ms: seq<CompiledMethod>, ghost start: nat, ghost i: nat)
      returns (record': Record, dedupe': map<CodeKey, nat>, offset': nat)
      requires i < |ms| && ms[i] == m
      requires Tracks(CodeItems(ms), Alignment(isa), start, METHOD_HEADER_SIZE + CodeDelta(isa), i, dedupe, offset)
      ensures record' == PlacedRecord(ms, isa, start, i, record)
      ensures Tracks(CodeItems(ms), Alignment(isa), start, METHOD_HEADER_SIZE + CodeDelta(isa), i + 1, dedupe', offset')
    {
      hide Tracks, FixupMethodHeader, Place;
      var quickCodeOffset: nat := 0;
      var header := record.header;
      dedupe', offset' := dedupe, offset;
      if m.quick {
        quickCodeOffset, dedupe', offset' := DedupeCode(isa, m, dedupe, offset, ms, start, i);
        header := FixupMethodHeader(header.(codeSize := Wrap32(|m.code.data|)), Wrap32(quickCodeOffset - CodeDelta(isa)));
      } else {
        TrackSkip(CodeItems(ms), Alignment(isa), start, METHOD_HEADER_SIZE + CodeDelta(isa), i, dedupe, offset);
      }
      record' := Record(MethodOffsets(Wrap32(quickCodeOffset), m.frameSize, m.coreSpill, m.fpSpill, record.offsets.gcMap), header);
    }

    /** The pass of `InitCodeMethodVisitor`, given the visits. */
    static method CodePass(isa: InstructionSet, start: nat, classes: seq<OatClass>, visits: seq<Visit>) returns (classes': seq<OatClass>, offset: nat)
      requires Slotted(visits, classes)
      ensures SameButRecords(classes, classes') && Slotted(visits, classes')
      ensures offset == End(CodeItems(MethodsOf(visits)), Alignment(isa), start, |visits|)
      ensures CodePlaced(classes, classes', visits, isa, start)
    {
      ghost var ms, shift := MethodsOf(visits), METHOD_HEADER_SIZE + CodeDelta(isa);
      var dedupe: map<CodeKey, nat> := map[];
      classes', offset := classes, start;
      assert Tracks(CodeItems(ms), Alignment(isa), start, shift, 0, dedupe, offset);
      hide PlacedRecord, Tracks;
      for i := 0 to |visits|
        invariant Tracks(CodeItems(ms), Alignment(isa), start, shift, i, dedupe, offset)
        invariant SameButRecords(classes, classes') && Slotted(visits, classes')
        invariant forall j {:trigger RecordAt(classes', visits[j])} :: 0 <= j < i ==>
                    RecordAt(classes', visits[j]) == PlacedRecord(ms, isa, start, j, RecordAt(classes, visits[j]))
        invariant forall j {:trigger RecordAt(classes', visits[j])} :: i <= j < |visits| ==> RecordAt(classes', visits[j]) == RecordAt(classes, visits[j])
      {
        var r;
        r, dedupe, offset := InitCodeVisit(isa, visits[i].method_, RecordAt(classes', visits[i]), dedupe, offset, ms, start, i);
        RecordFilled(visits, classes', i, r);
        classes' := WithRecord(classes', visits[i], r);
      }
      TracksOffset(CodeItems(ms), Alignment(isa), start, shift, |visits|, dedupe, offset);
    }

    method InitOatCodeDexFiles(start: nat) returns (offset: nat)
      requires Shaped(oatClasses, AllClasses(dexFiles))
      modifies this`oatClasses
      ensures SameButRecords(old(oatClasses), oatClasses)
      ensures offset == End(CodeItems(Methods(dexFiles)), Alignment(setup.isa), start, |Methods(dexFiles)|)
      ensures CodePlaced(old(oatClasses), oatClasses, AllVisits(dexFiles), setup.isa, start)
    {
      var visits := VisitDexMethods();
      VisitsSlotted(oatClasses, AllClasses(dexFiles));
      oatClasses, offset := CodePass(setup.isa, start, oatClasses, visits);
    }

    // ---------- Write passes ----------

    /** Emits the file at the stream's position.  It takes exactly the planned size, which is also the
        sum of all counters; every record stands at its offset, everything is found through the
        records, and it succeeds if there is room. */
    method Write(out: OutputStream) returns (ok: bool)
      requires Planned() && Deduplicated(Methods(dexFiles)) && StatusesOk(oatClasses)
      requires size < TWO32 && out.Valid()
      modifies out, this`stats
      ensures LaidOut()
      ensures ok ==> out.Valid() && out.pos == old(out.pos) + size && old(out.data) <= out.data && out.behind == Rest(old(out.Contents()), out.pos)
      ensures ok ==> stats.Total() == size && Slotted(AllVisits(dexFiles), oatClasses) && Counted(stats, setup, dexFiles, oatDexFiles, oatClasses)
      ensures ok ==> FrontStands(out.data, old(out.pos), setup, |dexFiles|, header)
      ensures ok ==> DexFilesStand(out.data, old(out.pos), oatDexFiles, dexFiles)
      ensures ok ==> ClassesStand(out.data, old(out.pos), oatClasses)
      ensures ok ==> MethodsFound(out.data, old(out.pos), oatClasses, AllVisits(dexFiles))
      ensures ok && setup.isImage ==> TrampolinesStand(out.data, old(out.pos), setup, header)
      ensures old(out.pos) + size <= out.capacity ==> ok
    {
      hide FrontStands, DexFilesStand, ClassesStand, MethodsFound, TrampolinesStand, StatusesOk, Deduplicated, Stats.Total, Counted, Slotted, Rest, DexRecordsPlanned, ClassesMade;
      var fileOffset := out.pos;
      out.origin := out.Contents();
      RestOfFile(out.data, out.behind, out.pos, out.pos);
      ok := WriteFile(out, fileOffset);
    }

    /** The passes of `Write`. */
    method WriteFile(out: OutputStream, fileOffset: nat) returns (ok: bool)
      requires Planned() && Deduplicated(Methods(dexFiles)) && StatusesOk(oatClasses) && size < TWO32 && StandsAt(out, fileOffset, 0)
      modifies out`data, out`behind, out`pos, this`stats
      ensures LaidOut()
      ensures ok ==> StandsAt(out, fileOffset, size) && old(out.data) <= out.data
      ensures ok ==> stats.Total() == size && Slotted(AllVisits(dexFiles), oatClasses) && Counted(stats, setup, dexFiles, oatDexFiles, oatClasses)
      ensures ok ==> FrontStands(out.data, fileOffset, setup, |dexFiles|, header)
      ensures ok ==> DexFilesStand(out.data, fileOffset, oatDexFiles, dexFiles)
      ensures ok ==> ClassesStand(out.data, fileOffset, oatClasses)
      ensures ok ==> MethodsFound(out.data, fileOffset, oatClasses, AllVisits(dexFiles))
      ensures ok && setup.isImage ==> TrampolinesStand(out.data, fileOffset, setup, header)
      ensures fileOffset + size <= out.capacity ==> ok
    {
      hide FrontStands, DexFilesStand, ClassesStand, MethodsFound, TrampolinesStand, StatusesOk, Deduplicated, Stats.Total, MethodsCounted, Counted, Uncounted,
           StandsAt, FrontCounted, RecordsCounted, Slotted, RecordsFinal, DexRecordsPlanned, ClassesMade, PlanOf, PlannedStats;
      PlanGrows(setup, dexFiles);
      PlanLayoutOk(setup, dexFiles);
      SlottedNow(oatClasses, AllVisits(dexFiles), PlanOf(setup, dexFiles).lay);
      ghost var front;
      ok, front := WriteRecords(out, fileOffset);
      if !ok { return; }
      ghost var tables, counted := out.data, stats;
      ok := WriteMethods(out, fileOffset);
      if !ok { return; }
      FrontKept(tables, out.data, fileOffset, setup, |dexFiles|, header);
      DexFilesKept(tables, out.data, fileOffset, oatDexFiles, dexFiles);
      ClassesKept(tables, out.data, fileOffset, oatClasses);
      AllCounted(front, counted, stats, setup, dexFiles, oatDexFiles, oatClasses);
    }

    /** Header, dex file records, dex files and class records. */
    method WriteRecords(out: OutputStream, fileOffset: nat) returns (ok: bool, ghost counted: Stats)
      requires Planned() && StatusesOk(oatClasses) && size < TWO32 && StandsAt(out, fileOffset, 0)
      modifies out`data, out`behind, out`pos, this`stats
      ensures LaidOut()
      ensures ok ==> StandsAt(out, fileOffset, PlanOf(setup, dexFiles).lay.gcMaps) && old(out.data) <= out.data
      ensures ok ==> FrontStands(out.data, fileOffset, setup, |dexFiles|, header)
      ensures ok ==> DexFilesStand(out.data, fileOffset, oatDexFiles, dexFiles) && ClassesStand(out.data, fileOffset, oatClasses)
      ensures ok ==> FrontCounted(counted, setup, dexFiles) && RecordsCounted(counted, stats, dexFiles, oatDexFiles, oatClasses)
      ensures ok ==> Uncounted(stats) && stats.executableAlignment == PlanOf(setup, dexFiles).executable - PlanOf(setup, dexFiles).tablesEnd
      ensures ok ==> stats.Total() - stats.executableAlignment == PlanOf(setup, dexFiles).lay.gcMaps
      ensures fileOffset + PlanOf(setup, dexFiles).lay.gcMaps <= out.capacity ==> ok
    {
      hide FrontStands, DexFilesStand, ClassesStand, StatusesOk, Stats.WithDexFiles, Stats.WithClasses, Stats.Total, Stats.WithFront, Uncounted, PlannedStats,
           StandsAt, RecordsCounted, RecordsFinal, FrontCounted, PlanOf, DexRecordsPlanned, ClassesMade;
      FrontNowCounted(stats, setup, dexFiles);
      counted := stats.WithFront(HEADER_SIZE, |setup.imageLocation|);
      PlanGrows(setup, dexFiles);
      ok := WriteFront(out, fileOffset, setup, |dexFiles|, header);
      if !ok { return; }
      stats := stats.WithFront(HEADER_SIZE, |setup.imageLocation|);
      ghost var front := out.data;
      ok := WriteTables(out, fileOffset);
      if !ok { return; }
      FrontKept(front, out.data, fileOffset, setup, |dexFiles|, header);
    }

    /** Dex file records, dex files and class records. */
    method WriteTables(out: OutputStream, fileOffset: nat) returns (ok: bool)
      requires LaidOut() && StatusesOk(oatClasses) && size < TWO32
      requires StandsAt(out, fileOffset, PlanOf(setup, dexFiles).dexRecords)
      modifies out`data, out`behind, out`pos, this`stats
      ensures ok ==> StandsAt(out, fileOffset, PlanOf(setup, dexFiles).lay.gcMaps) && old(out.data) <= out.data
      ensures ok ==> DexFilesStand(out.data, fileOffset, oatDexFiles, dexFiles) && ClassesStand(out.data, fileOffset, oatClasses)
      ensures ok ==> TablesCounted(old(stats), stats, PlanOf(setup, dexFiles), dexFiles)
      ensures ok ==> RecordsCounted(old(stats), stats, dexFiles, oatDexFiles, oatClasses)
      ensures fileOffset + PlanOf(setup, dexFiles).lay.gcMaps <= out.capacity ==> ok
    {
      ghost var plan, defs := PlanOf(setup, dexFiles), AllClasses(dexFiles);
      PlanGrows(setup, dexFiles);
      DexRecordsPlannedFit(oatDexFiles, setup, dexFiles);
      var dexBytes, written;
      ok, dexBytes, written := WriteDexFiles(out, fileOffset, oatDexFiles, dexFiles, plan.dexRecords, plan.dexFiles);
      if !ok { return; }
      stats := stats.WithDexFiles(dexBytes, written);
      ghost var before := out.data;
      var classBytes;
      ok, classBytes := WriteClasses(out, fileOffset, oatClasses, defs, plan.classes);
      if !ok { return; }
      stats := stats.WithClasses(classBytes);
      DexFilesKept(before, out.data, fileOffset, oatDexFiles, dexFiles);
    }

    /** Tables, trampolines and code. */
    method WriteMethods(out: OutputStream, fileOffset: nat) returns (ok: bool)
      requires LaidOut() && Deduplicated(Methods(dexFiles)) && LayoutOk(Methods(dexFiles), PlanOf(setup, dexFiles).lay) && size < TWO32
      requires stats.executableAlignment == PlanOf(setup, dexFiles).executable - PlanOf(setup, dexFiles).tablesEnd && Uncounted(stats)
      requires StandsAt(out, fileOffset, PlanOf(setup, dexFiles).lay.gcMaps)
      modifies out`data, out`behind, out`pos, this`stats
      ensures ok ==> StandsAt(out, fileOffset, size) && old(out.data) <= out.data
      ensures ok ==> MethodsFound(out.data, fileOffset, oatClasses, AllVisits(dexFiles))
      ensures ok && setup.isImage ==> TrampolinesStand(out.data, fileOffset, setup, header)
      ensures ok ==> stats.Total() == old(stats).Total() + size - PlanOf(setup, dexFiles).lay.gcMaps - old(stats).executableAlignment
      ensures ok ==> MethodsCounted(old(stats), stats, setup, dexFiles, oatClasses)
      ensures fileOffset + size <= out.capacity ==> ok
    {
      hide MethodsCounted, TailCounted, Stats.Total, Stats.WithTables, Uncounted, NoTrampolines, TablesFound, MethodsFound, TrampolinesStand, RecordsAgree,
           Deduplicated, LayoutOk, PlanOf, TablesAdjoin, OffsetsOf, DexRecordsPlanned, TableItems, CodeItems;
      ghost var plan := PlanOf(setup, dexFiles);
      PlanGrows(setup, dexFiles);
      PlanParts(setup, dexFiles);
      var visits := VisitDexMethods();
      ghost var o := OffsetsOf(MethodsOf(visits), plan.lay);
      FinalRecordsAgree(oatClasses, visits, plan.lay);
      hide RecordsFinal, Slotted, ClassesMade;
      var relativeOffset := out.pos - fileOffset;
      var gcMaps, mappings, vmaps;
      ok, relativeOffset, gcMaps, mappings, vmaps := WriteMaps(out, fileOffset, relativeOffset, oatClasses, visits, plan.lay, o);
      if !ok { return; }
      TablesNowCounted(stats, gcMaps, mappings, vmaps);
      ghost var uncounted := stats;
      stats := stats.WithTables(gcMaps, mappings, vmaps);
      ok := WriteTail(out, fileOffset, relativeOffset, visits, o);
      if ok {
        MethodsNowCounted(uncounted, gcMaps, mappings, vmaps, stats, setup, dexFiles, oatClasses);
      }
    }

    /** Trampolines and code. */
    method WriteTail(out: OutputStream, fileOffset: nat, start: nat, visits: seq<Visit>, ghost o: Offsets) returns (ok: bool)
      requires LaidOut() && Deduplicated(Methods(dexFiles)) && LayoutOk(Methods(dexFiles), PlanOf(setup, dexFiles).lay) && size < TWO32
      requires visits == AllVisits(dexFiles) && o == OffsetsOf(MethodsOf(visits), PlanOf(setup, dexFiles).lay) && RecordsAgree(oatClasses, visits, o, setup.isa)
      requires stats.executableAlignment == PlanOf(setup, dexFiles).executable - start && NoTrampolines(stats)
      requires start == PlanOf(setup, dexFiles).tablesEnd && StandsAt(out, fileOffset, start) && TablesFound(out.data, fileOffset, visits, o)
      modifies out`data, out`behind, out`pos, this`stats
      ensures ok ==> StandsAt(out, fileOffset, size) && old(out.data) <= out.data
      ensures ok ==> MethodsFound(out.data, fileOffset, oatClasses, visits)
      ensures ok && setup.isImage ==> TrampolinesStand(out.data, fileOffset, setup, header)
      ensures ok ==> stats.Total() == old(stats).Total() + (size - PlanOf(setup, dexFiles).executable)
      ensures ok ==> TailCounted(old(stats), stats, setup, dexFiles, oatClasses)
      ensures fileOffset + size <= out.capacity ==> ok
    {
      ghost var plan := PlanOf(setup, dexFiles);
      PlanGrows(setup, dexFiles);
      PlanParts(setup, dexFiles);
      hide TailCounted, TrampolinesCounted, Stats.Total, Stats.WithCode, NoTrampolines, TablesFound, MethodsFound, TrampolinesStand, RecordsAgree,
           CodeBytesUpTo, CodeData, Deduplicated, LayoutOk, Found, HeaderOffsets, CodeEnds, PlanOf, OffsetsOf, DexRecordsPlanned, ClassesMade, CodeItems;
      ghost var maps, before := out.data, stats;
      var relativeOffset;
      ok, relativeOffset := WriteCode(out, fileOffset, start);
      if !ok { return; }
      ghost var trampolines := out.data;
      var codeBytes;
      ok, relativeOffset, codeBytes := WriteMethodCode(out, fileOffset, setup.isa, relativeOffset, oatClasses, visits, plan.lay, o);
      if !ok { return; }
      TailNowCounted(before, stats, setup, dexFiles, oatClasses);
      stats := stats.WithCode(codeBytes);
      TablesKept(maps, trampolines, fileOffset, visits, o);
      TablesKept(trampolines, out.data, fileOffset, visits, o);
      AllMethodsFound(out.data, fileOffset, oatClasses, visits, o, setup.isa);
      if setup.isImage {
        TrampolinesKept(trampolines, out.data, fileOffset, setup, header);
      }
    }

    /** The page-aligned start of executable code, and the trampolines of a boot image. */
    method WriteCode(out: OutputStream, fileOffset: nat, start: nat) returns (ok: bool, offset: nat)
      requires LaidOut() && size < TWO32 && start == PlanOf(setup, dexFiles).tablesEnd && StandsAt(out, fileOffset, start)
      requires stats.executableAlignment == PlanOf(setup, dexFiles).executable - start && NoTrampolines(stats)
      modifies out`data, out`behind, out`pos, this`stats
      ensures ok ==> offset == PlanOf(setup, dexFiles).lay.code && StandsAt(out, fileOffset, offset) && old(out.data) <= out.data
      ensures ok && setup.isImage ==> TrampolinesStand(out.data, fileOffset, setup, header)
      ensures ok ==> stats.Total() == old(stats).Total() + (offset - PlanOf(setup, dexFiles).executable)
      ensures ok ==> TrampolinesCounted(old(stats), stats, setup, PlanOf(setup, dexFiles).executable, offset)
      ensures fileOffset + PlanOf(setup, dexFiles).lay.code <= out.capacity ==> ok
    {
      ghost var executable := PlanOf(setup, dexFiles).executable;
      PlanGrows(setup, dexFiles);
      hide Stats.WithTrampolines, Stats.Total, TrampolinesCounted, Sum, Spaced, Found, Rest;
      var newOffset := out.SeekBy(stats.executableAlignment);
      offset := start + stats.executableAlignment;
      if newOffset != fileOffset + offset {
        return false, offset;
      }
      ok := true;
      if setup.isImage {
        TrampolinesSpaced(setup, executable);
        ghost var offs := TrampolineOffsets(setup, executable);
        var padding, sizes;
        ok, offset, padding, sizes := WriteTrampolines(out, fileOffset, setup.isa, setup.trampolines, offset, offs, TrampolineEnds(setup, executable));
        if !ok { return; }
        TrampolinesNowCounted(stats, sizes, padding, setup, executable, offset);
        stats := stats.WithTrampolines(sizes, padding);
        TrampolinesRecorded(out.data, fileOffset, setup, header, executable);
      } else {
        NoTrampolinesCounted(stats, setup, executable);
      }
    }
  }

  lemma SlottedNow(classes: seq<OatClass>, visits: seq<Visit>, lay: Layout)
    requires RecordsFinal(classes, visits, lay)
    ensures Slotted(visits, classes)
  {
  }

  /** The plan of what belongs to methods. */
  lemma PlanParts(s: Setup, dexes: seq<DexFile>)
    requires |s.trampolines| == 10
    ensures var p, ms := PlanOf(s, dexes), MethodsOf(AllVisits(dexes));
            && p.lay.isa == s.isa && Methods(dexes) == ms && TablesAdjoin(ms, p.lay)
            && p.tablesEnd == End(TableItems(ms, Vmap), 1, p.lay.vmaps, |AllVisits(dexes)|)
            && p.size == End(CodeItems(ms), Alignment(s.isa), p.lay.code, |AllVisits(dexes)|)
  {
  }

  lemma NextBase(dexes: seq<DexFile>, d: nat)
    requires d < |dexes|
    ensures ClassBase(dexes, d + 1) == ClassBase(dexes, d) + |dexes[d].classes|
    ensures ClassBase(dexes, |dexes|) == |AllClasses(dexes)|
  {
    assert dexes[..d + 1][..d] == dexes[..d];
    assert dexes[..|dexes|] == dexes;
  }

  function BlankDexRecord(dexes: seq<DexFile>, start: nat, d: nat): OatDexFile
    requires d < |dexes|
  {
    OatDexFile(DexRecordsEnd(dexes, start, d), dexes[d].location, dexes[d].checksum, 0, seq(|dexes[d].classes|, _ => 0))
  }

  /** No method record has been filled in. */
  ghost predicate AllBlank(classes: seq<OatClass>) {
    forall c, k :: 0 <= c < |classes| && 0 <= k < |classes[c].records| ==> classes[c].records[k] == BLANK
  }

  /** The records of the first classes, still without method records. */
  ghost predicate FirstClassesMade(classes: seq<OatClass>, defs: seq<ClassDef>, start: nat) {
    && |classes| <= |defs| && AllBlank(classes)
    && forall c {:trigger classes[c]} :: 0 <= c < |classes| ==> ClassMade(classes[c], defs[c], ClassesEnd(defs, start, c))
  }

  lemma AppendMade(classes: seq<OatClass>, c: OatClass, defs: seq<ClassDef>, start: nat)
    requires FirstClassesMade(classes, defs, start) && |classes| < |defs|
    requires ClassMade(c, defs[|classes|], ClassesEnd(defs, start, |classes|)) && c.records == seq(|c.records|, _ => BLANK)
    ensures FirstClassesMade(classes + [c], defs, start)
  {
  }

  /** The pass for `tab` has treated every method's record. */
  ghost predicate TableStored(a: seq<OatClass>, b: seq<OatClass>, visits: seq<Visit>, tab: Table, start: nat) {
    && Slotted(visits, a) && Slotted(visits, b)
    && forall i {:trigger RecordAt(b, visits[i])} :: 0 <= i < |visits| ==>
         RecordAt(b, visits[i]) == StoreAt(MethodsOf(visits), tab, start, i, RecordAt(a, visits[i]))
  }

  /** What the code pass does to the record of method `i`. */
  function PlacedRecord(ms: seq<CompiledMethod>, isa: InstructionSet, start: nat, i: nat, r: Record): Record
    requires i < |ms|
  {
    PlaceCode(r, ms[i], isa, if ms[i].quick then Place(CodeItems(ms), Alignment(isa), start, i) + METHOD_HEADER_SIZE else 0)
  }

  ghost predicate CodePlaced(a: seq<OatClass>, b: seq<OatClass>, visits: seq<Visit>, isa: InstructionSet, start: nat) {
    && Slotted(visits, a) && Slotted(visits, b)
    && forall i {:trigger RecordAt(b, visits[i])} :: 0 <= i < |visits| ==>
         RecordAt(b, visits[i]) == PlacedRecord(MethodsOf(visits), isa, start, i, RecordAt(a, visits[i]))
  }

  /** Every method's record holds its tables' offsets. */
  ghost predicate TablesRecorded(classes: seq<OatClass>, dexes: seq<DexFile>, lay: Layout) {
    var visits := AllVisits(dexes);
    && Slotted(visits, classes)
    && forall i {:trigger RecordAt(classes, visits[i])} :: 0 <= i < |visits| ==>
         RecordAt(classes, visits[i]) == TablesRecord(MethodsOf(visits), lay, i)
  }

  lemma TablesAllStored(blank: seq<OatClass>, a: seq<OatClass>, b: seq<OatClass>, c: seq<OatClass>, visits: seq<Visit>, lay: Layout)
    requires AllBlank(blank)
    requires TableStored(blank, a, visits, GcMap, lay.gcMaps) && TableStored(a, b, visits, Mapping, lay.mappings) && TableStored(b, c, visits, Vmap, lay.vmaps)
    ensures forall i {:trigger RecordAt(c, visits[i])} :: 0 <= i < |visits| ==> RecordAt(c, visits[i]) == TablesRecord(MethodsOf(visits), lay, i)
  {
    forall i | 0 <= i < |visits| ensures RecordAt(c, visits[i]) == TablesRecord(MethodsOf(visits), lay, i) {
      assert RecordAt(blank, visits[i]) == BLANK;
      assert RecordAt(a, visits[i]) == StoreAt(MethodsOf(visits), GcMap, lay.gcMaps, i, BLANK);
      assert RecordAt(b, visits[i]) == StoreAt(MethodsOf(visits), Mapping, lay.mappings, i, RecordAt(a, visits[i]));
      assert RecordAt(c, visits[i]) == StoreAt(MethodsOf(visits), Vmap, lay.vmaps, i, RecordAt(b, visits[i]));
    }
  }

  function NoCounts(n: nat): (r: seq<nat>)
    ensures |r| == n && forall i :: 0 <= i < n ==> r[i] == 0
  {
    seq(n, _ => 0)
  }

  const NO_STATS := Stats(0, 0, 0, 0, 0, NoCounts(10), 0, 0, 0, 0, 0, 0, 0, 0, 0, 0, 0, 0, 0, 0, 0, 0)

  /** The padding that the Init passes already count. */
  function PlannedStats(s: Setup, dexes: seq<DexFile>): Stats
    requires |s.trampolines| == 10
  {
    var p := PlanOf(s, dexes);
    NO_STATS.(dexFileAlignment := DexPadding(dexes, p.dexFiles, |dexes|), executableAlignment := p.executable - p.tablesEnd)
  }

  ghost predicate DexRecordsPlanned(records: seq<OatDexFile>, s: Setup, dexes: seq<DexFile>) {
    && |s.trampolines| == 10 && |records| == |dexes|
    && forall d {:trigger records[d]} :: 0 <= d < |dexes| ==> records[d] == DexRecord(s, dexes, d)
  }

  lemma MethodsDone(tables: seq<OatClass>, classes: seq<OatClass>, dexes: seq<DexFile>, lay: Layout)
    requires TablesRecorded(tables, dexes, lay)
    requires CodePlaced(tables, classes, AllVisits(dexes), lay.isa, lay.code)
    ensures RecordsFinal(classes, AllVisits(dexes), lay)
  {
    var visits := AllVisits(dexes);
    forall i | 0 <= i < |visits| ensures RecordAt(classes, visits[i]) == FinalRecord(MethodsOf(visits), lay, i) {
      assert RecordAt(tables, visits[i]) == TablesRecord(MethodsOf(visits), lay, i);
    }
  }

  ghost predicate NoTrampolines(s: Stats) {
    s.trampolines == NoCounts(10) && s.trampolineAlignment == 0
  }

  /** The trampolines of a boot image are counted, between the start of executable code and `offset`. */
  ghost predicate TrampolinesCounted(a: Stats, b: Stats, s: Setup, executable: nat, offset: nat) {
    && b == a.(trampolines := b.trampolines, trampolineAlignment := b.trampolineAlignment)
    && b.trampolines == (if s.isImage then Sizes(s.trampolines) else NoCounts(10))
    && b.trampolineAlignment + Sum(b.trampolines) == offset - executable
  }

  lemma TrampolinesNowCounted(a: Stats, sizes: seq<nat>, padding: nat, s: Setup, executable: nat, offset: nat)
    requires NoTrampolines(a) && s.isImage && |s.trampolines| == 10 && sizes == Sizes(s.trampolines) && padding + Sum(sizes) == offset - executable
    ensures TrampolinesCounted(a, a.WithTrampolines(sizes, padding), s, executable, offset)
    ensures a.WithTrampolines(sizes, padding).Total() == a.Total() + (offset - executable)
  {
    ZeroSum(a.trampolines);
    assert a.WithTrampolines(sizes, padding).trampolines == sizes;
  }

  lemma NoTrampolinesCounted(a: Stats, s: Setup, executable: nat)
    requires NoTrampolines(a) && !s.isImage
    ensures TrampolinesCounted(a, a, s, executable, executable)
  {
    ZeroSum(a.trampolines);
  }

  /** What the visits add to the counters of code. */
  ghost function CodeCounts(s: Setup, dexes: seq<DexFile>, classes: seq<OatClass>): CodeBytes
    requires |s.trampolines| == 10 && Slotted(AllVisits(dexes), classes)
  {
    var visits, lay := AllVisits(dexes), PlanOf(s, dexes).lay;
    CodeBytesUpTo(CodeData(visits, classes), HeaderOffsets(MethodsOf(visits), lay), CodeEnds(MethodsOf(visits), lay), s.isa, |visits|)
  }

  /** Trampolines and code are counted. */
  ghost predicate TailCounted(a: Stats, b: Stats, s: Setup, dexes: seq<DexFile>, classes: seq<OatClass>)
    requires |s.trampolines| == 10 && Slotted(AllVisits(dexes), classes)
  {
    var p := PlanOf(s, dexes);
    exists m {:trigger m.WithCode(CodeCounts(s, dexes, classes))} ::
      TrampolinesCounted(a, m, s, p.executable, p.lay.code) && b == m.WithCode(CodeCounts(s, dexes, classes))
  }

  lemma TailNowCounted(a: Stats, m: Stats, s: Setup, dexes: seq<DexFile>, classes: seq<OatClass>)
    requires |s.trampolines| == 10 && Slotted(AllVisits(dexes), classes)
    requires TrampolinesCounted(a, m, s, PlanOf(s, dexes).executable, PlanOf(s, dexes).lay.code)
    ensures TailCounted(a, m.WithCode(CodeCounts(s, dexes, classes)), s, dexes, classes)
  {
    hide PlanOf, CodeCounts, TrampolinesCounted, Slotted, AllVisits, Stats.WithCode;
  }

  /** Tables, trampolines and code are counted. */
  ghost predicate MethodsCounted(a: Stats, b: Stats, s: Setup, dexes: seq<DexFile>, classes: seq<OatClass>)
    requires |s.trampolines| == 10 && Slotted(AllVisits(dexes), classes)
  {
    var p := PlanOf(s, dexes);
    TailCounted(a.WithTables(p.lay.mappings - p.lay.gcMaps, p.lay.vmaps - p.lay.mappings, p.tablesEnd - p.lay.vmaps), b, s, dexes, classes)
  }

  lemma TablesNowCounted(a: Stats, gc: nat, mapping: nat, vmap: nat)
    requires Uncounted(a)
    ensures var b := a.WithTables(gc, mapping, vmap);
            b.Total() == a.Total() + gc + mapping + vmap && NoTrampolines(b) && b.executableAlignment == a.executableAlignment
  {
  }

  lemma MethodsNowCounted(a: Stats, gc: nat, mapping: nat, vmap: nat, b: Stats, s: Setup, dexes: seq<DexFile>, classes: seq<OatClass>)
    requires |s.trampolines| == 10 && Slotted(AllVisits(dexes), classes)
    requires var p := PlanOf(s, dexes); gc == p.lay.mappings - p.lay.gcMaps && mapping == p.lay.vmaps - p.lay.mappings && vmap == p.tablesEnd - p.lay.vmaps
    requires TailCounted(a.WithTables(gc, mapping, vmap), b, s, dexes, classes)
    ensures MethodsCounted(a, b, s, dexes, classes)
  {
    hide PlanOf, TailCounted, Slotted, AllVisits, Stats.WithTables;
  }

  /** Every counter of a file that has been written. */
  ghost predicate Counted(st: Stats, s: Setup, dexes: seq<DexFile>, records: seq<OatDexFile>, classes: seq<OatClass>)
    requires |s.trampolines| == 10 && Slotted(AllVisits(dexes), classes)
  {
    var p := PlanOf(s, dexes);
    && st.oatHeader == HEADER_SIZE && st.imageLocation == |s.imageLocation|
    && st.dexFile == TotalSize(DexFileData(dexes), |dexes|) && st.dexFileAlignment == DexPadding(dexes, p.dexFiles, |dexes|)
    && DexBytes(st.locationSize, st.locationData, st.locationChecksum, st.dexFileOffset, st.methodsOffsets) == DexBytesUpTo(records, |records|)
    && ClassBytes(st.classStatus, st.classType, st.classBitmaps, st.classMethodOffsets) == ClassBytesUpTo(classes, |classes|)
    && st.gcMap == p.lay.mappings - p.lay.gcMaps && st.mappingTable == p.lay.vmaps - p.lay.mappings && st.vmapTable == p.tablesEnd - p.lay.vmaps
    && st.executableAlignment == p.executable - p.tablesEnd
    && st.trampolines == (if s.isImage then Sizes(s.trampolines) else NoCounts(10))
    && st.trampolineAlignment + Sum(st.trampolines) == p.lay.code - p.executable
    && CodeBytes(st.codeAlignment, st.methodHeader, st.code) == CodeCounts(s, dexes, classes)
  }

  /** The counters of the passes together. */
  lemma AllCounted(a: Stats, b: Stats, st: Stats, s: Setup, dexes: seq<DexFile>, records: seq<OatDexFile>, classes: seq<OatClass>)
    requires |s.trampolines| == 10 && Slotted(AllVisits(dexes), classes)
    requires FrontCounted(a, s, dexes) && RecordsCounted(a, b, dexes, records, classes) && MethodsCounted(b, st, s, dexes, classes)
    ensures Counted(st, s, dexes, records, classes)
  {
    hide DexBytesUpTo, ClassBytesUpTo, CodeCounts, PlanOf, DexPadding, TotalSize, DexFileData, Sizes, Sum, Slotted, AllVisits;
  }

  /** The counters after the header. */
  ghost predicate FrontCounted(a: Stats, s: Setup, dexes: seq<DexFile>)
    requires |s.trampolines| == 10
  {
    a == PlannedStats(s, dexes).WithFront(HEADER_SIZE, |s.imageLocation|)
  }

  /** The counters after the dex files and class records. */
  ghost predicate RecordsCounted(a: Stats, b: Stats, dexes: seq<DexFile>, records: seq<OatDexFile>, classes: seq<OatClass>) {
    b == a.WithDexFiles(DexBytesUpTo(records, |records|), TotalSize(DexFileData(dexes), |dexes|)).WithClasses(ClassBytesUpTo(classes, |classes|))
  }

  /** The counters that the tables and trampolines set are still zero. */
  ghost predicate Uncounted(s: Stats) {
    s.gcMap == s.mappingTable == s.vmapTable == 0 && NoTrampolines(s)
  }

  /** The counters after the dex files and class records: all they occupy except the padding, which
      the Init passes counted. */
  ghost predicate TablesCounted(a: Stats, b: Stats, p: Plan, dexes: seq<DexFile>) {
    && b.Total() + DexPadding(dexes, p.dexFiles, |dexes|) == a.Total() + (p.lay.gcMaps - p.dexRecords)
    && b.executableAlignment == a.executableAlignment && (Uncounted(a) ==> Uncounted(b))
  }

  lemma DexRecordsPlannedFit(records: seq<OatDexFile>, s: Setup, dexes: seq<DexFile>)
    requires DexRecordsPlanned(records, s, dexes) && PlanOf(s, dexes).size < TWO32
    ensures DexRecordsFit(records, dexes, PlanOf(s, dexes).dexRecords, PlanOf(s, dexes).dexFiles)
  {
    var p := PlanOf(s, dexes);
    PlanGrows(s, dexes);
    DexFilesSpaced(dexes, p.dexFiles);
    forall d | 0 <= d < |dexes| ensures DexPlace(dexes, p.dexFiles, d) < TWO32 {
      SpacedGrows(DexFileData(dexes), DexFileOffsets(dexes, p.dexFiles), DexFileEnds(dexes, p.dexFiles), d + 1, |dexes|);
      assert DexFileOffsets(dexes, p.dexFiles)[d] == DexPlace(dexes, p.dexFiles, d);
    }
  }

  /** The header of a boot image records where the trampolines are. */
  lemma TrampolinesRecorded(data: seq<byte>, base: nat, s: Setup, h: OatHeader, executable: nat)
    requires s.Valid() && s.isImage && h == PlannedHeader(s, executable) && TrampolinesEnd(s, executable, |s.trampolines|) < TWO32
    requires Found(data, base, s.trampolines, TrampolineOffsets(s, executable), |s.trampolines|)
    ensures TrampolinesStand(data, base, s, h)
  {
    forall i | 0 <= i < |s.trampolines| ensures At(data, base + h.trampolines[i], s.trampolines[i]) {
      TrampolineRecorded(s, h, executable, i);
      assert TrampolineOffsets(s, executable)[i] >= 0;
    }
  }

  lemma TrampolineRecorded(s: Setup, h: OatHeader, executable: nat, i: nat)
    requires s.Valid() && s.isImage && h == PlannedHeader(s, executable) && TrampolinesEnd(s, executable, |s.trampolines|) < TWO32 && i < |s.trampolines|
    ensures h.trampolines[i] == TrampolineOffsets(s, executable)[i]
  {
    TrampolinesSpaced(s, executable);
    SpacedGrows(s.trampolines, TrampolineOffsets(s, executable), TrampolineEnds(s, executable), i + 1, |s.trampolines|);
  }

  lemma FrontNowCounted(st: Stats, s: Setup, dexes: seq<DexFile>)
    requires |s.trampolines| == 10 && st == PlannedStats(s, dexes)
    ensures var p, st' := PlanOf(s, dexes), st.WithFront(HEADER_SIZE, |s.imageLocation|);
            && FrontCounted(st', s, dexes) && Uncounted(st') && st'.executableAlignment == p.executable - p.tablesEnd
            && st'.Total() == DexPadding(dexes, p.dexFiles, |dexes|) + (p.executable - p.tablesEnd) + p.dexRecords
            && p.dexRecords == HEADER_SIZE + |s.imageLocation|
  {
    hide PlannedStats, Stats.WithFront, Stats.Total, Uncounted;
    PlannedTotal(s, dexes);
  }

  lemma PlannedTotal(s: Setup, dexes: seq<DexFile>)
    requires |s.trampolines| == 10
    ensures var p, st := PlanOf(s, dexes), PlannedStats(s, dexes).WithFront(HEADER_SIZE, |s.imageLocation|);
            && Uncounted(st) && st.executableAlignment == p.executable - p.tablesEnd
            && st.Total() == DexPadding(dexes, p.dexFiles, |dexes|) + (p.executable - p.tablesEnd) + p.dexRecords
  {
    ZeroSum(PlannedStats(s, dexes).trampolines);
  }
}
