/** The plan of an oat file: its classes and methods in visiting order, the size of every record,
    and where each section starts (compiler/oat_writer.h, compiler/oat_writer.cc). */
module OatFile {
  import opened Options
  import opened Bytes
  import opened OatDedupe
  import opened OatModel

  // ---------- Input ----------

  /** One class definition: its methods, compiled or not, and the status recorded for it. */
  datatype ClassDef = ClassDef(methods: seq<Option<CompiledMethod>>, status: int) {
    ghost predicate Valid() { -1 <= status <= 9 }
  }

  datatype DexFile = DexFile(location: seq<byte>, checksum: uint32, data: seq<byte>, classes: seq<ClassDef>)

  /** What the compiler driver provides besides methods.  `trampolines` are the ten bridges and
      trampolines of a boot image, in the order they are placed. */
  datatype Setup = Setup(
    isa: InstructionSet, isImage: bool, trampolines: seq<seq<byte>>,
    magicAndVersion: seq<byte>, checksum: uint32, isaCode: uint32, features: uint32,
    imageChecksum: uint32, imageBegin: uint32, imageLocation: seq<byte>)
  {
    ghost predicate Valid() { |magicAndVersion| == 8 && |trampolines| == 10 }
  }

  const HEADER_SIZE := 80
  const PAGE_SIZE := 4096

  // ---------- Classes and methods in visiting order ----------

  function Compiled(ms: seq<Option<CompiledMethod>>): seq<CompiledMethod> {
    if ms == [] then []
    else Compiled(ms[..|ms| - 1]) + (if ms[|ms| - 1].Some? then [ms[|ms| - 1].value] else [])
  }

  function AllClasses(dexes: seq<DexFile>): seq<ClassDef> {
    if dexes == [] then [] else AllClasses(dexes[..|dexes| - 1]) + dexes[|dexes| - 1].classes
  }

  /** The visit of a compiled method: the index of its class and its slot among the compiled methods
      of the class. */
  datatype Visit = Visit(cls: nat, slot: nat, method_: CompiledMethod)

  function ClassVisits(cls: nat, ms: seq<CompiledMethod>): (r: seq<Visit>)
    ensures |r| == |ms|
  {
    seq(|ms|, i requires 0 <= i < |ms| => Visit(cls, i, ms[i]))
  }

  function Visits(defs: seq<ClassDef>, n: nat): seq<Visit>
    requires n <= |defs|
  {
    if n == 0 then [] else Visits(defs, n - 1) + ClassVisits(n - 1, Compiled(defs[n - 1].methods))
  }

  function MethodsOf(visits: seq<Visit>): (r: seq<CompiledMethod>)
    ensures |r| == |visits|
  {
    seq(|visits|, i requires 0 <= i < |visits| => visits[i].method_)
  }

  /** The visits of all compiled methods, in the order of every pass. */
  function AllVisits(dexes: seq<DexFile>): seq<Visit> {
    var defs := AllClasses(dexes);
    Visits(defs, |defs|)
  }

  function Methods(dexes: seq<DexFile>): seq<CompiledMethod> {
    MethodsOf(AllVisits(dexes))
  }

  /** Every visit has a slot of its own. */
  lemma {:induction false} VisitsDistinct(defs: seq<ClassDef>, n: nat)
    requires n <= |defs|
    ensures forall i :: 0 <= i < |Visits(defs, n)| ==>
              var v := Visits(defs, n)[i];
              v.cls < n && v.slot < |Compiled(defs[v.cls].methods)| && v.method_ == Compiled(defs[v.cls].methods)[v.slot]
    ensures forall i, j :: 0 <= i < j < |Visits(defs, n)| ==>
              Visits(defs, n)[i].cls != Visits(defs, n)[j].cls || Visits(defs, n)[i].slot != Visits(defs, n)[j].slot
  {
    if n > 0 {
      VisitsDistinct(defs, n - 1);
    }
  }

  // ---------- Records ----------

  datatype OatDexFile = OatDexFile(offset: nat, location: seq<byte>, checksum: uint32, dexFileOffset: uint32, methodsOffsets: seq<uint32>)

  function DexRecordSize(dex: DexFile): nat {
    4 + |dex.location| + 4 + 4 + 4 * |dex.classes|
  }

  function EncodeDexFile(d: OatDexFile): (r: seq<byte>)
    ensures |r| == 12 + |d.location| + 4 * |d.methodsOffsets|
  {
    U32(Wrap32(|d.location|)) + d.location + U32(d.checksum) + U32(d.dexFileOffset) + U32s(d.methodsOffsets)
  }

  datatype ClassKind = AllCompiled | SomeCompiled | NoneCompiled

  function KindCode(k: ClassKind): nat {
    match k case AllCompiled => 0 case SomeCompiled => 1 case NoneCompiled => 2
  }

  function KindOf(ms: seq<Option<CompiledMethod>>): ClassKind {
    var n := |Compiled(ms)|;
    if n == 0 then NoneCompiled else if n == |ms| then AllCompiled else SomeCompiled
  }

  /** The bytes of a bitmap of `n` methods: one 32-bit word for every 32 methods or part thereof. */
  function BitmapSize(n: nat): nat {
    if n == 0 then 0 else if n <= 32 then 4 else 4 + BitmapSize(n - 32)
  }

  function Bit(bits: seq<bool>, i: nat): nat {
    if i < |bits| && bits[i] then 1 else 0
  }

  function BitmapByte(bits: seq<bool>, i: nat): byte {
    Bit(bits, i) + 2 * Bit(bits, i + 1) + 4 * Bit(bits, i + 2) + 8 * Bit(bits, i + 3) +
    16 * Bit(bits, i + 4) + 32 * Bit(bits, i + 5) + 64 * Bit(bits, i + 6) + 128 * Bit(bits, i + 7)
  }

  /** The first `n` bytes of a bitmap's storage. */
  function EncodeBitmap(bits: seq<bool>, n: nat): (r: seq<byte>)
    ensures |r| == n
  {
    if n == 0 then [] else EncodeBitmap(bits, n - 1) + [BitmapByte(bits, 8 * (n - 1))]
  }

  datatype OatClass = OatClass(
    offset: nat, methods: seq<Option<CompiledMethod>>, status: int, kind: ClassKind, bitmap: seq<bool>, bitmapSize: nat,
    slotOffsets: seq<nat>, records: seq<Record>)

  /** The size of a class record in front of its method offsets. */
  function ClassPrefixSize(bitmapSize: nat): nat {
    4 + (if bitmapSize == 0 then 0 else 4 + bitmapSize)
  }

  function ClassBitmapSize(ms: seq<Option<CompiledMethod>>): nat {
    if KindOf(ms).SomeCompiled? then BitmapSize(|ms|) else 0
  }

  function ClassSize(ms: seq<Option<CompiledMethod>>): nat {
    ClassPrefixSize(ClassBitmapSize(ms)) + METHOD_OFFSETS_SIZE * |Compiled(ms)|
  }

  function EncodeRecords(rs: seq<Record>): (r: seq<byte>)
    ensures |r| == METHOD_OFFSETS_SIZE * |rs|
  {
    if rs == [] then [] else EncodeRecords(rs[..|rs| - 1]) + EncodeOffsets(rs[|rs| - 1].offsets)
  }

  function EncodeStatus(status: int): (r: seq<byte>)
    requires -1 <= status <= 9
    ensures |r| == 2
  {
    U16(if status < 0 then 0x1_0000 + status else status)
  }

  function EncodeClass(c: OatClass): (r: seq<byte>)
    requires -1 <= c.status <= 9
    ensures |r| == ClassPrefixSize(c.bitmapSize) + METHOD_OFFSETS_SIZE * |c.records|
  {
    EncodeStatus(c.status) + U16(KindCode(c.kind)) +
    (if c.bitmapSize == 0 then [] else U32(Wrap32(c.bitmapSize)) + EncodeBitmap(c.bitmap, c.bitmapSize)) +
    EncodeRecords(c.records)
  }

  datatype OatHeader = OatHeader(executable: uint32, trampolines: seq<uint32>)

  function EncodeOatHeader(s: Setup, dexCount: nat, h: OatHeader): (r: seq<byte>)
    requires s.Valid() && |h.trampolines| == 10
    ensures |r| == HEADER_SIZE
  {
    s.magicAndVersion + U32(s.checksum) + U32(s.isaCode) + U32(s.features) + U32(Wrap32(dexCount)) + U32(h.executable) +
    U32s(h.trampolines) + U32(s.imageChecksum) + U32(s.imageBegin) + U32(Wrap32(|s.imageLocation|))
  }

  // ---------- The plan ----------

  function DexRecordsEnd(dexes: seq<DexFile>, start: nat, n: nat): (r: nat)
    requires n <= |dexes|
    ensures r >= start
  {
    if n == 0 then start else DexRecordsEnd(dexes, start, n - 1) + DexRecordSize(dexes[n - 1])
  }

  function DexFilesEnd(dexes: seq<DexFile>, start: nat, n: nat): (r: nat)
    requires n <= |dexes|
    ensures r >= start
  {
    if n == 0 then start else RoundUp(DexFilesEnd(dexes, start, n - 1), 4) + |dexes[n - 1].data|
  }

  function ClassesEnd(defs: seq<ClassDef>, start: nat, n: nat): (r: nat)
    requires n <= |defs|
    ensures r >= start
  {
    if n == 0 then start else ClassesEnd(defs, start, n - 1) + ClassSize(defs[n - 1].methods)
  }

  function TrampolinesEnd(s: Setup, start: nat, n: nat): (r: nat)
    requires n <= |s.trampolines|
    ensures r >= start
  {
    if n == 0 then start else RoundUp(TrampolinesEnd(s, start, n - 1), Alignment(s.isa)) + |s.trampolines[n - 1]|
  }

  /** Where every section starts. */
  datatype Plan = Plan(dexRecords: nat, dexFiles: nat, classes: nat, tablesEnd: nat, executable: nat, lay: Layout, size: nat)

  function PlanOf(s: Setup, dexes: seq<DexFile>): (p: Plan)
    requires |s.trampolines| == 10
    ensures 0 < p.lay.gcMaps
  {
    var defs, ms := AllClasses(dexes), Methods(dexes);
    var dexRecords := HEADER_SIZE + |s.imageLocation|;
    var dexFiles := DexRecordsEnd(dexes, dexRecords, |dexes|);
    var classes := DexFilesEnd(dexes, dexFiles, |dexes|);
    var gcMaps := ClassesEnd(defs, classes, |defs|);
    var mappings := End(TableItems(ms, GcMap), 1, gcMaps, |ms|);
    var vmaps := End(TableItems(ms, Mapping), 1, mappings, |ms|);
    var tablesEnd := End(TableItems(ms, Vmap), 1, vmaps, |ms|);
    var executable := RoundUp(tablesEnd, PAGE_SIZE);
    var code := if s.isImage then TrampolinesEnd(s, executable, |s.trampolines|) else executable;
    Plan(dexRecords, dexFiles, classes, tablesEnd, executable, Layout(gcMaps, mappings, vmaps, code, s.isa),
         End(CodeItems(ms), Alignment(s.isa), code, |ms|))
  }

  /** A file that fits 32-bit offsets has a layout in which every offset reads back. */
  lemma PlanLayoutOk(s: Setup, dexes: seq<DexFile>)
    requires |s.trampolines| == 10 && PlanOf(s, dexes).size < TWO32
    ensures LayoutOk(Methods(dexes), PlanOf(s, dexes).lay)
  {
  }

  // ---------- Records as the Init passes leave them ----------

  /** Where the method offsets of each method of a class lie within the class record; 0 for a method
      that is not compiled. */
  function SlotOffsets(ms: seq<Option<CompiledMethod>>, prefix: nat): (r: seq<nat>)
    ensures |r| == |ms|
  {
    seq(|ms|, i requires 0 <= i < |ms| => if ms[i].None? then 0 else prefix + METHOD_OFFSETS_SIZE * |Compiled(ms[..i])|)
  }

  /** Class record `c`, apart from its method records, is what its definition calls for. */
  predicate ClassMade(c: OatClass, def: ClassDef, offset: nat) {
    && c.offset == offset && c.methods == def.methods && c.status == def.status && c.kind == KindOf(def.methods)
    && |c.records| == |Compiled(def.methods)|
    && c.bitmapSize == ClassBitmapSize(def.methods)
    && (c.bitmapSize != 0 ==> |c.bitmap| == |def.methods| && forall i :: 0 <= i < |def.methods| ==> c.bitmap[i] == def.methods[i].Some?)
    && c.slotOffsets == SlotOffsets(def.methods, ClassPrefixSize(c.bitmapSize))
  }

  /** The index of the first class of dex file `d` among all classes. */
  function ClassBase(dexes: seq<DexFile>, d: nat): nat
    requires d <= |dexes|
  {
    |AllClasses(dexes[..d])|
  }

  lemma {:induction false} ClassPrefix(dexes: seq<DexFile>, d: nat)
    requires d <= |dexes|
    ensures AllClasses(dexes[..d]) <= AllClasses(dexes)
    decreases |dexes| - d
  {
    if d == |dexes| {
      assert dexes[..d] == dexes;
    } else {
      ClassPrefix(dexes, d + 1);
      assert dexes[..d + 1][..d] == dexes[..d];
    }
  }

  /** Class `j` of dex file `d` among all classes. */
  lemma ClassAt(dexes: seq<DexFile>, d: nat, j: nat)
    requires d < |dexes| && j < |dexes[d].classes|
    ensures ClassBase(dexes, d) + j < |AllClasses(dexes)| && AllClasses(dexes)[ClassBase(dexes, d) + j] == dexes[d].classes[j]
    ensures ClassBase(dexes, d + 1) == ClassBase(dexes, d) + |dexes[d].classes|
  {
    ClassPrefix(dexes, d + 1);
    assert dexes[..d + 1][..d] == dexes[..d];
    assert AllClasses(dexes)[ClassBase(dexes, d) + j] == AllClasses(dexes[..d + 1])[ClassBase(dexes, d) + j];
  }

  /** The class offsets recorded for dex file `d`, whose classes start in section `start`. */
  function ClassOffsets(dexes: seq<DexFile>, start: nat, d: nat): (r: seq<uint32>)
    requires d < |dexes|
    ensures |r| == |dexes[d].classes|
  {
    ClassesInRange(dexes, d);
    seq<uint32>(|dexes[d].classes|, j requires 0 <= j < |dexes[d].classes| =>
      Wrap32(ClassesEnd(AllClasses(dexes), start, ClassBase(dexes, d) + j)))
  }

  lemma ClassesInRange(dexes: seq<DexFile>, d: nat)
    requires d < |dexes|
    ensures ClassBase(dexes, d) + |dexes[d].classes| <= |AllClasses(dexes)|
  {
    ClassPrefix(dexes, d + 1);
    assert dexes[..d + 1][..d] == dexes[..d];
  }

  function DexPlace(dexes: seq<DexFile>, start: nat, d: nat): nat
    requires d < |dexes|
  {
    RoundUp(DexFilesEnd(dexes, start, d), 4)
  }

  function DexRecord(s: Setup, dexes: seq<DexFile>, d: nat): OatDexFile
    requires |s.trampolines| == 10 && d < |dexes|
  {
    var p := PlanOf(s, dexes);
    OatDexFile(DexRecordsEnd(dexes, p.dexRecords, d), dexes[d].location, dexes[d].checksum,
               Wrap32(DexPlace(dexes, p.dexFiles, d)), ClassOffsets(dexes, p.classes, d))
  }

  /** Class records by slot. */
  function RecordAt(classes: seq<OatClass>, v: Visit): Record
    requires v.cls < |classes| && v.slot < |classes[v.cls].records|
  {
    classes[v.cls].records[v.slot]
  }

  function WithRecord(classes: seq<OatClass>, v: Visit, r: Record): seq<OatClass>
    requires v.cls < |classes| && v.slot < |classes[v.cls].records|
  {
    classes[v.cls := classes[v.cls].(records := classes[v.cls].records[v.slot := r])]
  }

  /** Everything but the method records is what `InitOatClasses` made of the definitions. */
  ghost predicate ClassesMade(classes: seq<OatClass>, defs: seq<ClassDef>, start: nat) {
    && |classes| == |defs|
    && forall c {:trigger classes[c]} :: 0 <= c < |classes| ==> ClassMade(classes[c], defs[c], ClassesEnd(defs, start, c))
  }

  /** A class with compiled and uncompiled methods has at least one word of bitmap. */
  lemma SomeCompiledHasBitmap(ms: seq<Option<CompiledMethod>>)
    requires KindOf(ms).SomeCompiled?
    ensures BitmapSize(|ms|) >= 4
  {
  }

  // ---------- Passes over the method records ----------

  /** There is a record for every compiled method. */
  ghost predicate Shaped(classes: seq<OatClass>, defs: seq<ClassDef>) {
    && |classes| == |defs|
    && forall c {:trigger classes[c]} :: 0 <= c < |classes| ==>
         classes[c].methods == defs[c].methods && |classes[c].records| == |Compiled(defs[c].methods)|
  }

  /** Only method records differ. */
  ghost predicate SameButRecords(a: seq<OatClass>, b: seq<OatClass>) {
    && |a| == |b|
    && forall c {:trigger b[c]} :: 0 <= c < |b| ==> b[c] == a[c].(records := b[c].records) && |b[c].records| == |a[c].records|
  }

  /** Every visit has a record. */
  ghost predicate Slotted(visits: seq<Visit>, classes: seq<OatClass>) {
    && (forall i {:trigger visits[i]} :: 0 <= i < |visits| ==> visits[i].cls < |classes| && visits[i].slot < |classes[visits[i].cls].records|)
    && (forall i, j {:trigger visits[i], visits[j]} :: 0 <= i < j < |visits| ==> visits[i].cls != visits[j].cls || visits[i].slot != visits[j].slot)
  }

  lemma VisitsSlotted(classes: seq<OatClass>, defs: seq<ClassDef>)
    requires Shaped(classes, defs)
    ensures Slotted(Visits(defs, |defs|), classes)
  {
    VisitsDistinct(defs, |defs|);
    var visits := Visits(defs, |defs|);
    forall i | 0 <= i < |visits| ensures visits[i].cls < |classes| && visits[i].slot < |classes[visits[i].cls].records| {
      assert classes[visits[i].cls].methods == defs[visits[i].cls].methods;
    }
  }

  /** Filling in the record of visit `i` leaves the records of other visits alone. */
  lemma RecordFilled(visits: seq<Visit>, classes: seq<OatClass>, i: nat, r: Record)
    requires Slotted(visits, classes) && i < |visits|
    ensures var classes' := WithRecord(classes, visits[i], r);
            && SameButRecords(classes, classes') && Slotted(visits, classes')
            && (forall j {:trigger RecordAt(classes', visits[j])} :: 0 <= j < |visits| ==>
                  RecordAt(classes', visits[j]) == if j == i then r else RecordAt(classes, visits[j]))
  {
  }

  lemma MadeShaped(classes: seq<OatClass>, defs: seq<ClassDef>, start: nat)
    requires ClassesMade(classes, defs, start)
    ensures Shaped(classes, defs)
  {
  }

  lemma MadeKept(a: seq<OatClass>, b: seq<OatClass>, defs: seq<ClassDef>, start: nat)
    requires ClassesMade(a, defs, start) && SameButRecords(a, b)
    ensures ClassesMade(b, defs, start)
  {
    forall c | 0 <= c < |b| ensures ClassMade(b[c], defs[c], ClassesEnd(defs, start, c)) {
      assert ClassMade(a[c], defs[c], ClassesEnd(defs, start, c));
    }
  }

  /** Where trampoline `i` is placed. */
  function TrampolinePlace(s: Setup, start: nat, i: nat): nat
    requires i < |s.trampolines|
  {
    RoundUp(TrampolinesEnd(s, start, i), Alignment(s.isa))
  }

  /** The header fields: trampoline offsets are recorded for a boot image only. */
  function PlannedHeader(s: Setup, executable: nat): OatHeader
    requires |s.trampolines| == 10
  {
    OatHeader(Wrap32(executable), seq<uint32>(10, i requires 0 <= i < 10 => if s.isImage then Wrap32(TrampolinePlace(s, executable, i)) else 0))
  }
}
