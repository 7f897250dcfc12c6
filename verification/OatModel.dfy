/** The data an oat file is made of: compiled methods, their records and their encoding
    (compiler/oat_writer.h, compiler/compiled_method.h, runtime/oat.h). */
module OatModel {
  import opened Options
  import opened Bytes
  import opened OatDedupe

  // ---------- Compiled methods ----------

  /** A byte vector owned by the compiler driver.  The driver deduplicates vectors, so the writer
      compares their addresses only. */
  datatype Blob = Blob(addr: nat, data: seq<byte>)

  /** A method compiled by the Quick compiler (`quick`) has code to be placed in the oat file; the
      code of a Portable method lives in a separate ELF object. */
  datatype CompiledMethod = CompiledMethod(
    quick: bool, code: Blob, mapping: Blob, vmap: Blob, gcMap: Blob,
    frameSize: uint32, coreSpill: uint32, fpSpill: uint32)

  datatype InstructionSet = Arm | Arm64 | Thumb2 | X86 | X86_64 | Mips

  function Alignment(isa: InstructionSet): (r: nat)
    ensures r > 0 && r % 2 == 0
  {
    match isa
    case Arm => 8
    case Thumb2 => 8
    case Mips => 8
    case Arm64 => 16
    case X86 => 16
    case X86_64 => 16
  }

  /** What is added to a code address to get a usable program counter. */
  function CodeDelta(isa: InstructionSet): nat {
    if isa.Thumb2? then 1 else 0
  }

  /** The vectors come from the driver: an address determines its contents, and code is not empty. */
  ghost predicate Deduplicated(ms: seq<CompiledMethod>) {
    && (forall i :: 0 <= i < |ms| && ms[i].quick ==> ms[i].code.data != [])
    && (forall i, j :: 0 <= i < |ms| && 0 <= j < |ms| ==>
          && (ms[i].code.addr == ms[j].code.addr ==> ms[i].code == ms[j].code)
          && (ms[i].mapping.addr == ms[j].mapping.addr ==> ms[i].mapping == ms[j].mapping)
          && (ms[i].vmap.addr == ms[j].vmap.addr ==> ms[i].vmap == ms[j].vmap)
          && (ms[i].gcMap.addr == ms[j].gcMap.addr ==> ms[i].gcMap == ms[j].gcMap))
  }

  // ---------- Records ----------

  datatype MethodOffsets = MethodOffsets(code: uint32, frameSize: uint32, coreSpill: uint32, fpSpill: uint32, gcMap: uint32)

  /** Mapping and vmap tables are recorded as displacements back from the code. */
  datatype MethodHeader = MethodHeader(mapping: uint32, vmap: uint32, codeSize: uint32)

  datatype Record = Record(offsets: MethodOffsets, header: MethodHeader)

  const BLANK := Record(MethodOffsets(0, 0, 0, 0, 0), MethodHeader(0, 0, 0))

  const METHOD_HEADER_SIZE := 12
  const METHOD_OFFSETS_SIZE := 20

  function EncodeOffsets(o: MethodOffsets): (r: seq<byte>)
    ensures |r| == METHOD_OFFSETS_SIZE
  {
    U32(o.code) + U32(o.frameSize) + U32(o.coreSpill) + U32(o.fpSpill) + U32(o.gcMap)
  }

  function EncodeHeader(h: MethodHeader): (r: seq<byte>)
    ensures |r| == METHOD_HEADER_SIZE
  {
    U32(h.mapping) + U32(h.vmap) + U32(h.codeSize)
  }

  // ---------- Data access ----------

  /** The three kinds of deduplicated tables. */
  datatype Table = GcMap | Mapping | Vmap

  function TableOf(m: CompiledMethod, tab: Table): Blob {
    match tab
    case GcMap => m.gcMap
    case Mapping => m.mapping
    case Vmap => m.vmap
  }

  /** The code offset without the bit that selects Thumb mode. */
  function CodeBase(code: uint32): uint32 {
    code - code % 2
  }

  /** Reads back a table's offset; arithmetic is modulo 2^32. */
  function GetOffset(r: Record, tab: Table): uint32 {
    match tab
    case GcMap => r.offsets.gcMap
    case Mapping => if r.header.mapping == 0 then 0 else Wrap32(CodeBase(r.offsets.code) - r.header.mapping)
    case Vmap => if r.header.vmap == 0 then 0 else Wrap32(CodeBase(r.offsets.code) - r.header.vmap)
  }

  function SetOffset(r: Record, tab: Table, offset: uint32): Record {
    match tab
    case GcMap => r.(offsets := r.offsets.(gcMap := offset))
    case Mapping => r.(header := r.header.(mapping := Wrap32(CodeBase(r.offsets.code) - offset)))
    case Vmap => r.(header := r.header.(vmap := Wrap32(CodeBase(r.offsets.code) - offset)))
  }

  /** Displacements were stored with the code offset still 0; this makes them relative to the code. */
  function FixupMethodHeader(h: MethodHeader, code: uint32): MethodHeader {
    h.(mapping := if h.mapping != 0 then Wrap32(h.mapping + code) else 0,
       vmap := if h.vmap != 0 then Wrap32(h.vmap + code) else 0)
  }

  /** The record of a method once its code has been placed (at `code`, without the Thumb bit). */
  function PlaceCode(r: Record, m: CompiledMethod, isa: InstructionSet, code: nat): Record {
    if m.quick then
      Record(MethodOffsets(Wrap32(code + CodeDelta(isa)), m.frameSize, m.coreSpill, m.fpSpill, r.offsets.gcMap),
             FixupMethodHeader(r.header.(codeSize := Wrap32(|m.code.data|)), Wrap32(code)))
    else r.(offsets := MethodOffsets(0, m.frameSize, m.coreSpill, m.fpSpill, r.offsets.gcMap))
  }

  // ---------- The deduplication keys ----------

  type CodeKey = (nat, nat, nat)

  function KeyOf(m: CompiledMethod): CodeKey {
    (m.code.addr, m.mapping.addr, m.vmap.addr)
  }

  /** `CodeOffsetsKeyComparator`. */
  predicate KeyLess(a: CompiledMethod, b: CompiledMethod) {
    if a.code.addr != b.code.addr then a.code.addr < b.code.addr
    else if a.mapping.addr != b.mapping.addr then a.mapping.addr < b.mapping.addr
    else if a.vmap.addr != b.vmap.addr then a.vmap.addr < b.vmap.addr
    else false
  }

  /** A map ordered by `KeyLess` is a map keyed by the three addresses: the comparator is a strict
      weak order whose equivalence is equality of the keys. */
  lemma KeyLessOrders(a: CompiledMethod, b: CompiledMethod, c: CompiledMethod)
    ensures !KeyLess(a, b) && !KeyLess(b, a) <==> KeyOf(a) == KeyOf(b)
    ensures KeyLess(a, b) && KeyLess(b, c) ==> KeyLess(a, c)
  {
  }

  // ---------- What each pass lays out ----------

  function TableItem(m: CompiledMethod, tab: Table): Item<nat> {
    var b := TableOf(m, tab);
    if b.data == [] then Skip else Item(b.addr, |b.data|)
  }

  function TableItems(ms: seq<CompiledMethod>, tab: Table): (r: seq<Item<nat>>)
    ensures |r| == |ms|
  {
    seq(|ms|, i requires 0 <= i < |ms| => TableItem(ms[i], tab))
  }

  function CodeItem(m: CompiledMethod): Item<CodeKey> {
    if m.quick then Item(KeyOf(m), METHOD_HEADER_SIZE + |m.code.data|) else Skip
  }

  function CodeItems(ms: seq<CompiledMethod>): (r: seq<Item<CodeKey>>)
    ensures |r| == |ms|
  {
    seq(|ms|, i requires 0 <= i < |ms| => CodeItem(ms[i]))
  }

  lemma ItemsConsistent(ms: seq<CompiledMethod>)
    requires Deduplicated(ms)
    ensures Consistent(CodeItems(ms))
    ensures forall tab :: Consistent(TableItems(ms, tab))
  {
    forall tab ensures Consistent(TableItems(ms, tab)) {
    }
  }

  // ---------- The layout of the deduplicated sections ----------

  /** Where the three table sections and the code section start. */
  datatype Layout = Layout(gcMaps: nat, mappings: nat, vmaps: nat, code: nat, isa: InstructionSet) {
    function TableStart(tab: Table): nat {
      match tab
      case GcMap => gcMaps
      case Mapping => mappings
      case Vmap => vmaps
    }
  }

  /** The offset of method `i`'s table, or 0 if it has none. */
  function TableOffset(ms: seq<CompiledMethod>, lay: Layout, tab: Table, i: nat): nat
    requires i < |ms|
  {
    var items := TableItems(ms, tab);
    if items[i].Skip? then 0 else Place(items, 1, lay.TableStart(tab), i)
  }

  /** The offset of method `i`'s code, behind its header and without the Thumb bit. */
  function CodeOffset(ms: seq<CompiledMethod>, lay: Layout, i: nat): (r: nat)
    requires i < |ms| && ms[i].quick
    ensures r % 2 == 0
  {
    EvenPlace(CodeItems(ms), lay.isa, lay.code, i);
    Place(CodeItems(ms), Alignment(lay.isa), lay.code, i) + METHOD_HEADER_SIZE
  }

  lemma EvenPlace(items: seq<Item<CodeKey>>, isa: InstructionSet, start: nat, i: nat)
    requires i < |items| && items[i].Item?
    ensures Place(items, Alignment(isa), start, i) % 2 == 0
  {
    EvenRoundUp(End(items, Alignment(isa), start, First(items, i)), isa);
  }

  lemma EvenRoundUp(x: nat, isa: InstructionSet)
    ensures RoundUp(x, Alignment(isa)) % 2 == 0
  {
    var r := RoundUp(x, Alignment(isa));
    RoundUpAligned(x, Alignment(isa));
    hide RoundUp;
    if Alignment(isa) == 8 {
      EvenMultiple(r, 4);
    } else {
      EvenMultiple(r, 8);
    }
  }

  lemma EvenMultiple(r: nat, half: nat)
    requires half > 0 && r % (2 * half) == 0
    ensures r % 2 == 0
  {
    var q := r / (2 * half);
    assert r == 2 * (half * q);
  }

  /** The record after the table passes. */
  function TablesRecord(ms: seq<CompiledMethod>, lay: Layout, i: nat): Record
    requires i < |ms|
  {
    StoreTable(ms, lay, Vmap, i, StoreTable(ms, lay, Mapping, i, StoreTable(ms, lay, GcMap, i, BLANK)))
  }

  function StoreTable(ms: seq<CompiledMethod>, lay: Layout, tab: Table, i: nat, r: Record): Record
    requires i < |ms|
  {
    StoreAt(ms, tab, lay.TableStart(tab), i, r)
  }

  /** What the pass for `tab`, starting at `start`, does to the record of method `i`. */
  function StoreAt(ms: seq<CompiledMethod>, tab: Table, start: nat, i: nat, r: Record): Record
    requires i < |ms|
  {
    var items := TableItems(ms, tab);
    if items[i].Skip? then r else SetOffset(r, tab, Wrap32(Place(items, 1, start, i)))
  }

  /** The record after the code pass. */
  function FinalRecord(ms: seq<CompiledMethod>, lay: Layout, i: nat): Record
    requires i < |ms|
  {
    PlaceCode(TablesRecord(ms, lay, i), ms[i], lay.isa, if ms[i].quick then CodeOffset(ms, lay, i) else 0)
  }

  /** Sections in file order, behind a non-empty header, within 32 bits. */
  ghost predicate LayoutOk(ms: seq<CompiledMethod>, lay: Layout) {
    && 0 < lay.gcMaps
    && lay.mappings == End(TableItems(ms, GcMap), 1, lay.gcMaps, |ms|)
    && lay.vmaps == End(TableItems(ms, Mapping), 1, lay.mappings, |ms|)
    && lay.code >= End(TableItems(ms, Vmap), 1, lay.vmaps, |ms|)
    && End(CodeItems(ms), Alignment(lay.isa), lay.code, |ms|) < TWO32
  }

  /** Every table lies behind the header and before the code section. */
  lemma TableRange(ms: seq<CompiledMethod>, lay: Layout, tab: Table, i: nat)
    requires Deduplicated(ms) && LayoutOk(ms, lay) && i < |ms| && TableItem(ms[i], tab).Item?
    ensures 0 < lay.TableStart(tab) <= TableOffset(ms, lay, tab, i)
    ensures TableOffset(ms, lay, tab, i) + |TableOf(ms[i], tab).data| <= lay.code < TWO32
  {
    ItemsConsistent(ms);
    PlacedBefore(TableItems(ms, tab), 1, lay.TableStart(tab), i, |ms|);
    EndGrows(CodeItems(ms), Alignment(lay.isa), lay.code, 0, |ms|);
  }

  lemma CodeRange(ms: seq<CompiledMethod>, lay: Layout, i: nat)
    requires Deduplicated(ms) && LayoutOk(ms, lay) && i < |ms| && ms[i].quick
    ensures lay.code + METHOD_HEADER_SIZE <= CodeOffset(ms, lay, i)
    ensures CodeOffset(ms, lay, i) + |ms[i].code.data| < TWO32
  {
    ItemsConsistent(ms);
    PlacedBefore(CodeItems(ms), Alignment(lay.isa), lay.code, i, |ms|);
  }

  // ---------- Displacements ----------

  /** How a table at `offset` (0 for none) is recorded relative to code at `code`, starting from the
      value stored before the code was placed. */
  function Displacement(offset: nat, code: nat): uint32 {
    if offset == 0 then 0 else Wrap32(Wrap32(0 - Wrap32(offset)) + Wrap32(code))
  }

  /** A displacement reads back as the table's offset before (`code == 0`) and after placement. */
  lemma DisplacementReadsBack(offset: nat, code: nat)
    requires offset == 0 || (code == 0 && offset < TWO32) || offset < code < TWO32
    ensures Displacement(offset, code) == 0 <==> offset == 0
    ensures offset != 0 ==> Wrap32(code - Displacement(offset, code)) == offset
    ensures offset != 0 && code != 0 ==> Displacement(offset, code) == code - offset
  {
  }

  /** `StoreTable` in terms of the offset, 0 for none. */
  function Store(r: Record, tab: Table, offset: nat): Record {
    if offset == 0 then r else SetOffset(r, tab, Wrap32(offset))
  }

  lemma StoredMapping(r: Record, mapping: nat)
    requires r.offsets.code == 0 && r.header.mapping == 0 && mapping < TWO32
    ensures Store(r, Mapping, mapping) == r.(header := r.header.(mapping := Displacement(mapping, 0)))
  {
  }

  lemma StoredVmap(r: Record, vmap: nat)
    requires r.offsets.code == 0 && r.header.vmap == 0 && vmap < TWO32
    ensures Store(r, Vmap, vmap) == r.(header := r.header.(vmap := Displacement(vmap, 0)))
  {
  }

  lemma StoredFields(gcMap: nat, mapping: nat, vmap: nat)
    requires gcMap < TWO32 && mapping < TWO32 && vmap < TWO32
    ensures Store(Store(Store(BLANK, GcMap, gcMap), Mapping, mapping), Vmap, vmap) ==
            Record(MethodOffsets(0, 0, 0, 0, gcMap), MethodHeader(Displacement(mapping, 0), Displacement(vmap, 0), 0))
  {
    var r := Store(BLANK, GcMap, gcMap);
    StoredMapping(r, mapping);
    StoredVmap(Store(r, Mapping, mapping), vmap);
  }

  /** The fields of a record in terms of the layout. */
  lemma RecordFields(ms: seq<CompiledMethod>, lay: Layout, i: nat)
    requires i < |ms|
    requires forall tab :: 0 <= TableOffset(ms, lay, tab, i) < TWO32 && (TableItem(ms[i], tab).Item? ==> TableOffset(ms, lay, tab, i) > 0)
    ensures var r := TablesRecord(ms, lay, i);
            && r.offsets == MethodOffsets(0, 0, 0, 0, TableOffset(ms, lay, GcMap, i))
            && r.header.mapping == Displacement(TableOffset(ms, lay, Mapping, i), 0)
            && r.header.vmap == Displacement(TableOffset(ms, lay, Vmap, i), 0)
  {
    assert forall tab, r :: StoreTable(ms, lay, tab, i, r) == Store(r, tab, TableOffset(ms, lay, tab, i));
    StoredFields(TableOffset(ms, lay, GcMap, i), TableOffset(ms, lay, Mapping, i), TableOffset(ms, lay, Vmap, i));
  }

  lemma PlacedFields(r: Record, m: CompiledMethod, isa: InstructionSet, code: nat, mapping: nat, vmap: nat)
    requires m.quick && code < TWO32 && mapping < TWO32 && vmap < TWO32
    requires (mapping == 0 || mapping < code) && (vmap == 0 || vmap < code)
    requires r.header.mapping == Displacement(mapping, 0) && r.header.vmap == Displacement(vmap, 0)
    ensures PlaceCode(r, m, isa, code).header == MethodHeader(Displacement(mapping, code), Displacement(vmap, code), Wrap32(|m.code.data|))
  {
    DisplacementReadsBack(mapping, 0);
    DisplacementReadsBack(vmap, 0);
  }

  lemma OffsetsInRange(ms: seq<CompiledMethod>, lay: Layout, i: nat)
    requires Deduplicated(ms) && LayoutOk(ms, lay) && i < |ms|
    ensures forall tab :: 0 <= TableOffset(ms, lay, tab, i) < lay.code && (TableItem(ms[i], tab).Item? <==> TableOffset(ms, lay, tab, i) > 0)
    ensures lay.code < TWO32
  {
    EndGrows(CodeItems(ms), Alignment(lay.isa), lay.code, 0, |ms|);
    forall tab ensures 0 <= TableOffset(ms, lay, tab, i) < lay.code && (TableItem(ms[i], tab).Item? <==> TableOffset(ms, lay, tab, i) > 0) {
      if TableItem(ms[i], tab).Item? {
        TableRange(ms, lay, tab, i);
      }
    }
  }

  /** What the final record of a method says. */
  lemma FinalFields(ms: seq<CompiledMethod>, lay: Layout, i: nat)
    requires Deduplicated(ms) && LayoutOk(ms, lay) && i < |ms|
    ensures FinalRecord(ms, lay, i).offsets.gcMap == TableOffset(ms, lay, GcMap, i)
    ensures var h, code := FinalRecord(ms, lay, i).header, if ms[i].quick then CodeOffset(ms, lay, i) else 0;
            && h.mapping == Displacement(TableOffset(ms, lay, Mapping, i), code)
            && h.vmap == Displacement(TableOffset(ms, lay, Vmap, i), code)
            && (ms[i].quick ==> h.codeSize == |ms[i].code.data|)
            && FinalRecord(ms, lay, i).offsets.code == (if ms[i].quick then code + CodeDelta(lay.isa) else 0)
  {
    OffsetsInRange(ms, lay, i);
    RecordFields(ms, lay, i);
    if ms[i].quick {
      CodeRange(ms, lay, i);
      var code, mapping, vmap := CodeOffset(ms, lay, i), TableOffset(ms, lay, Mapping, i), TableOffset(ms, lay, Vmap, i);
      PlacedFields(TablesRecord(ms, lay, i), ms[i], lay.isa, code, mapping, vmap);
    }
  }

  /** A record whose displacements are relative to its code reads back its tables' offsets. */
  lemma ReadsBack(r: Record, isa: InstructionSet, code: nat, gcMap: nat, mapping: nat, vmap: nat)
    requires code % 2 == 0 && code + 1 < TWO32 && (mapping == 0 || code == 0 || mapping < code) && (vmap == 0 || code == 0 || vmap < code)
    requires gcMap < TWO32 && mapping < TWO32 && vmap < TWO32
    requires r.offsets.gcMap == gcMap && (r.offsets.code == code || r.offsets.code == code + CodeDelta(isa))
    requires r.header.mapping == Displacement(mapping, code) && r.header.vmap == Displacement(vmap, code)
    ensures GetOffset(r, GcMap) == gcMap && GetOffset(r, Mapping) == mapping && GetOffset(r, Vmap) == vmap
  {
    assert CodeBase(r.offsets.code) == code;
    DisplacementReadsBack(mapping, code);
    DisplacementReadsBack(vmap, code);
  }

  /** A table's offset reads back as it was assigned, before and after the code is placed. */
  lemma OffsetsReadBack(ms: seq<CompiledMethod>, lay: Layout, tab: Table, i: nat)
    requires Deduplicated(ms) && LayoutOk(ms, lay) && i < |ms|
    ensures GetOffset(TablesRecord(ms, lay, i), tab) == TableOffset(ms, lay, tab, i)
    ensures GetOffset(FinalRecord(ms, lay, i), tab) == TableOffset(ms, lay, tab, i)
  {
    var gcMap, mapping, vmap := TableOffset(ms, lay, GcMap, i), TableOffset(ms, lay, Mapping, i), TableOffset(ms, lay, Vmap, i);
    OffsetsInRange(ms, lay, i);
    RecordFields(ms, lay, i);
    FinalFields(ms, lay, i);
    ReadsBack(TablesRecord(ms, lay, i), lay.isa, 0, gcMap, mapping, vmap);
    if ms[i].quick {
      CodeRange(ms, lay, i);
      ReadsBack(FinalRecord(ms, lay, i), lay.isa, CodeOffset(ms, lay, i), gcMap, mapping, vmap);
    } else {
      ReadsBack(FinalRecord(ms, lay, i), lay.isa, 0, gcMap, mapping, vmap);
    }
  }

  /** All methods that share code, mapping table and vmap table have the same header: the header
      written for the first of them is everyone's own. */
  lemma SharedHeaders(ms: seq<CompiledMethod>, lay: Layout, i: nat, j: nat)
    requires Deduplicated(ms) && LayoutOk(ms, lay) && i < |ms| && j < |ms|
    requires ms[i].quick && ms[j].quick && KeyOf(ms[i]) == KeyOf(ms[j])
    ensures CodeOffset(ms, lay, i) == CodeOffset(ms, lay, j)
    ensures FinalRecord(ms, lay, i).header == FinalRecord(ms, lay, j).header
  {
    SharedTable(ms, lay, Mapping, i, j);
    SharedTable(ms, lay, Vmap, i, j);
    FinalFields(ms, lay, i);
    FinalFields(ms, lay, j);
  }

  lemma SharedTable(ms: seq<CompiledMethod>, lay: Layout, tab: Table, i: nat, j: nat)
    requires Deduplicated(ms) && i < |ms| && j < |ms| && TableOf(ms[i], tab).addr == TableOf(ms[j], tab).addr
    ensures TableOffset(ms, lay, tab, i) == TableOffset(ms, lay, tab, j)
  {
  }
}
