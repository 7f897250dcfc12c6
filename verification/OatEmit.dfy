/** The Write passes of the oat writer over methods (compiler/oat_writer.cc): they keep no
    deduplication map and decide from the recorded offsets alone what to write. */
module OatEmit {
  import opened Options
  import opened Bytes
  import opened OatDedupe
  import opened OatModel
  import opened OatFile
  import opened OatStream

  /** The stream stands at file-relative `offset`, and from there on the file is as it was. */
  ghost predicate StandsAt(out: OutputStream, base: nat, offset: nat)
    reads out
  {
    out.pos == base + offset && out.Valid() && out.Untouched()
  }

  /** The records of all visited methods are final. */
  ghost predicate RecordsFinal(classes: seq<OatClass>, visits: seq<Visit>, lay: Layout) {
    && Slotted(visits, classes)
    && forall i {:trigger RecordAt(classes, visits[i])} :: 0 <= i < |visits| ==>
         RecordAt(classes, visits[i]) == FinalRecord(MethodsOf(visits), lay, i)
  }

  // ---------- Tables ----------

  /** What a write pass over tables is to find: the contents, recorded offset and current offset of
      each visit, and for a repeated table the visit that wrote it. */
  ghost predicate Script(datas: seq<seq<byte>>, offs: seq<nat>, ends: seq<nat>, firsts: seq<nat>) {
    && |offs| == |firsts| == |datas| && |ends| == |datas| + 1
    && forall i {:trigger ScriptEntry(datas, offs, ends, firsts, i)} :: 0 <= i < |datas| ==> ScriptEntry(datas, offs, ends, firsts, i)
  }

  ghost predicate ScriptEntry(datas: seq<seq<byte>>, offs: seq<nat>, ends: seq<nat>, firsts: seq<nat>, i: nat)
    requires |offs| == |firsts| == |datas| && |ends| == |datas| + 1 && i < |datas|
  {
    if datas[i] == [] then ends[i + 1] == ends[i]
    else if offs[i] == ends[i] then ends[i + 1] == ends[i] + |datas[i]|
    else ends[i + 1] == ends[i] && firsts[i] < i && offs[firsts[i]] == offs[i] && datas[firsts[i]] == datas[i]
  }

  ghost predicate Found(data: seq<byte>, base: nat, datas: seq<seq<byte>>, offs: seq<nat>, n: nat)
    requires n <= |datas| == |offs|
  {
    forall j {:trigger offs[j]} :: 0 <= j < n ==> At(data, base + offs[j], datas[j])
  }

  lemma FoundKept(data: seq<byte>, data': seq<byte>, base: nat, datas: seq<seq<byte>>, offs: seq<nat>, n: nat)
    requires n <= |datas| == |offs| && Found(data, base, datas, offs, n) && data <= data'
    ensures Found(data', base, datas, offs, n)
  {
    forall j | 0 <= j < n ensures At(data', base + offs[j], datas[j]) {
      AtKept(data, data', base + offs[j], datas[j]);
    }
  }

  lemma NoneFound(data: seq<byte>, base: nat, datas: seq<seq<byte>>, offs: seq<nat>)
    requires |datas| == |offs|
    ensures Found(data, base, datas, offs, 0)
  {
  }

  lemma FoundMore(data: seq<byte>, base: nat, datas: seq<seq<byte>>, offs: seq<nat>, n: nat)
    requires n < |datas| == |offs| && Found(data, base, datas, offs, n) && At(data, base + offs[n], datas[n])
    ensures Found(data, base, datas, offs, n + 1)
  {
  }

  lemma {:induction false} ScriptGrows(datas: seq<seq<byte>>, offs: seq<nat>, ends: seq<nat>, firsts: seq<nat>, i: nat, j: nat)
    requires Script(datas, offs, ends, firsts) && i <= j <= |datas|
    ensures ends[i] <= ends[j]
    decreases j - i
  {
    if i < j {
      ScriptGrows(datas, offs, ends, firsts, i, j - 1);
      assert ScriptEntry(datas, offs, ends, firsts, j - 1);
    }
  }

  /** `WriteMapMethodVisitor::VisitMethod`. */
  method WriteMapVisit(out: OutputStream, ghost base: nat, tab: Table, m: CompiledMethod, record: Record, offset: nat)
    returns (ok: bool, offset': nat)
    requires StandsAt(out, base, offset)
    modifies out`data, out`behind, out`pos
    ensures var here := TableOf(m, tab).data != [] && GetOffset(record, tab) == offset;
            && offset' == offset + (if here && ok then |TableOf(m, tab).data| else 0)
            && (here && ok ==> At(out.data, base + offset, TableOf(m, tab).data))
            && (ok <==> (here ==> base + offset + |TableOf(m, tab).data| <= out.capacity))
    ensures ok ==> StandsAt(out, base, offset') && old(out.data) <= out.data
  {
    ok, offset' := true, offset;
    var mapOffset := GetOffset(record, tab);
    var table := TableOf(m, tab);
    if |table.data| != 0 && mapOffset == offset {
      ok := out.WriteFully(table.data);
      if ok {
        offset' := offset' + |table.data|;
      }
    }
  }

  /** The pass of `WriteMapMethodVisitor` for one kind of table. */
  method WriteMapPass(out: OutputStream, ghost base: nat, tab: Table, start: nat, classes: seq<OatClass>, visits: seq<Visit>,
                      ghost offs: seq<nat>, ghost ends: seq<nat>, ghost firsts: seq<nat>)
    returns (ok: bool, offset: nat)
    requires Slotted(visits, classes) && Script(TableData(visits, tab), offs, ends, firsts) && start == ends[0] && StandsAt(out, base, start)
    requires forall i :: 0 <= i < |visits| ==> GetOffset(RecordAt(classes, visits[i]), tab) == offs[i]
    modifies out`data, out`behind, out`pos
    ensures ok ==> offset == ends[|visits|] && StandsAt(out, base, offset) && old(out.data) <= out.data
    ensures ok ==> Found(out.data, base, TableData(visits, tab), offs, |visits|)
    ensures base + ends[|visits|] <= out.capacity ==> ok
  {
    hide StandsAt;
    ghost var datas := TableData(visits, tab);
    ok, offset := true, start;
    for i := 0 to |visits|
      invariant ok && offset == ends[i] && StandsAt(out, base, offset) && old(out.data) <= out.data
      invariant Found(out.data, base, datas, offs, i)
    {
      ghost var before := out.data;
      assert datas[i] == TableOf(visits[i].method_, tab).data;
      assert ScriptEntry(datas, offs, ends, firsts, i);
      ScriptGrows(datas, offs, ends, firsts, i + 1, |visits|);
      ok, offset := WriteMapVisit(out, base, tab, visits[i].method_, RecordAt(classes, visits[i]), offset);
      if !ok {
        return;
      }
      FoundKept(before, out.data, base, datas, offs, i);
    }
  }

  function TableData(visits: seq<Visit>, tab: Table): (r: seq<seq<byte>>)
    ensures |r| == |visits|
  {
    seq(|visits|, i requires 0 <= i < |visits| => TableOf(visits[i].method_, tab).data)
  }

  // ---------- The script follows from the layout ----------

  function TableOffsets(ms: seq<CompiledMethod>, lay: Layout, tab: Table): (r: seq<nat>)
    ensures |r| == |ms|
  {
    seq(|ms|, i requires 0 <= i < |ms| => TableOffset(ms, lay, tab, i))
  }

  function TableEnds(ms: seq<CompiledMethod>, lay: Layout, tab: Table): (r: seq<nat>)
    ensures |r| == |ms| + 1
  {
    seq(|ms| + 1, i requires 0 <= i <= |ms| => End(TableItems(ms, tab), 1, lay.TableStart(tab), i))
  }

  function TableFirsts(ms: seq<CompiledMethod>, tab: Table): (r: seq<nat>)
    ensures |r| == |ms|
  {
    var items := TableItems(ms, tab);
    seq(|ms|, i requires 0 <= i < |ms| => if items[i].Skip? then 0 else First(items, i))
  }

  /** A table is due at the current offset exactly when it is a first occurrence; otherwise its
      first occurrence, with the same contents, has the same offset. */
  lemma TableDecision(ms: seq<CompiledMethod>, lay: Layout, tab: Table, i: nat)
    requires Deduplicated(ms) && LayoutOk(ms, lay) && i < |ms| && TableOf(ms[i], tab).data != []
    ensures var items := TableItems(ms, tab); var end := End(items, 1, lay.TableStart(tab), i);
            && (TableOffset(ms, lay, tab, i) == end <==> Fresh(items, i))
            && End(items, 1, lay.TableStart(tab), i + 1) == end + (if Fresh(items, i) then |TableOf(ms[i], tab).data| else 0)
            && (!Fresh(items, i) ==> First(items, i) < i)
  {
    ItemsConsistent(ms);
    FreshExactlyHere(TableItems(ms, tab), 1, lay.TableStart(tab), i);
  }

  lemma TableRepeat(ms: seq<CompiledMethod>, lay: Layout, tab: Table, i: nat)
    requires Deduplicated(ms) && i < |ms| && TableOf(ms[i], tab).data != []
    ensures var f := First(TableItems(ms, tab), i);
            TableOf(ms[f], tab) == TableOf(ms[i], tab) && TableOffset(ms, lay, tab, f) == TableOffset(ms, lay, tab, i)
  {
    var f := First(TableItems(ms, tab), i);
    assert TableItems(ms, tab)[f] == TableItem(ms[f], tab);
    SharedTable(ms, lay, tab, f, i);
  }

  lemma TableScriptEntry(visits: seq<Visit>, lay: Layout, tab: Table, i: nat)
    requires Deduplicated(MethodsOf(visits)) && LayoutOk(MethodsOf(visits), lay) && i < |visits|
    ensures var ms := MethodsOf(visits);
            ScriptEntry(TableData(visits, tab), TableOffsets(ms, lay, tab), TableEnds(ms, lay, tab), TableFirsts(ms, tab), i)
  {
    hide Deduplicated, LayoutOk;
    var ms := MethodsOf(visits);
    if TableData(visits, tab)[i] != [] {
      TableDecision(ms, lay, tab, i);
      TableRepeat(ms, lay, tab, i);
    }
  }

  /** The Write pass finds what the Init pass laid out. */
  lemma TableScript(visits: seq<Visit>, lay: Layout, tab: Table)
    requires Deduplicated(MethodsOf(visits)) && LayoutOk(MethodsOf(visits), lay)
    ensures var ms := MethodsOf(visits);
            Script(TableData(visits, tab), TableOffsets(ms, lay, tab), TableEnds(ms, lay, tab), TableFirsts(ms, tab))
  {
    var ms := MethodsOf(visits);
    forall i | 0 <= i < |visits|
      ensures ScriptEntry(TableData(visits, tab), TableOffsets(ms, lay, tab), TableEnds(ms, lay, tab), TableFirsts(ms, tab), i)
    {
      TableScriptEntry(visits, lay, tab, i);
    }
  }

  // ---------- Code ----------

  /** The same for code: `datas` are headers with their code, [] for a method without Quick code, and
      `offs` are where the headers stand.  Every Quick method aligns the current offset. */
  ghost predicate CodeScript(datas: seq<seq<byte>>, offs: seq<nat>, ends: seq<nat>, firsts: seq<nat>, isa: InstructionSet) {
    && |offs| == |firsts| == |datas| && |ends| == |datas| + 1
    && forall i {:trigger CodeEntry(datas, offs, ends, firsts, isa, i)} :: 0 <= i < |datas| ==> CodeEntry(datas, offs, ends, firsts, isa, i)
  }

  ghost predicate CodeEntry(datas: seq<seq<byte>>, offs: seq<nat>, ends: seq<nat>, firsts: seq<nat>, isa: InstructionSet, i: nat)
    requires |offs| == |firsts| == |datas| && |ends| == |datas| + 1 && i < |datas|
  {
    var aligned := RoundUp(ends[i], Alignment(isa));
    if datas[i] == [] then ends[i + 1] == ends[i]
    else if offs[i] == aligned then ends[i + 1] == aligned + |datas[i]|
    else
      && ends[i + 1] == aligned && firsts[i] < i && offs[firsts[i]] == offs[i] && datas[firsts[i]] == datas[i]
      && offs[i] + METHOD_HEADER_SIZE + CodeDelta(isa) < aligned
  }

  lemma {:induction false} CodeScriptGrows(datas: seq<seq<byte>>, offs: seq<nat>, ends: seq<nat>, firsts: seq<nat>, isa: InstructionSet, i: nat, j: nat)
    requires CodeScript(datas, offs, ends, firsts, isa) && i <= j <= |datas|
    ensures ends[i] <= ends[j]
    decreases j - i
  {
    if i < j {
      CodeScriptGrows(datas, offs, ends, firsts, isa, i, j - 1);
      assert CodeEntry(datas, offs, ends, firsts, isa, j - 1);
    }
  }

  /** What a Quick method occupies in the file. */
  function HeaderAndCode(m: CompiledMethod, record: Record): (r: seq<byte>)
    ensures m.quick ==> r != []
  {
    if m.quick then EncodeHeader(record.header) + m.code.data else []
  }

  /** Bytes of padding, of headers and of code. */
  datatype CodeBytes = CodeBytes(padding: nat, headers: nat, code: nat) {
    function Total(): nat { padding + headers + code }

    function Plus(b: CodeBytes): CodeBytes { CodeBytes(padding + b.padding, headers + b.headers, code + b.code) }
  }

  /** What visit `i` of a script adds: the padding in front of every method, and header and code of a first occurrence. */
  function CodeBytesAt(datas: seq<seq<byte>>, offs: seq<nat>, ends: seq<nat>, isa: InstructionSet, i: nat): CodeBytes
    requires i < |datas| == |offs| && |ends| == |datas| + 1
  {
    var aligned := RoundUp(ends[i], Alignment(isa));
    if |datas[i]| < METHOD_HEADER_SIZE then CodeBytes(0, 0, 0)
    else if offs[i] == aligned then CodeBytes(aligned - ends[i], METHOD_HEADER_SIZE, |datas[i]| - METHOD_HEADER_SIZE)
    else CodeBytes(aligned - ends[i], 0, 0)
  }

  function CodeBytesUpTo(datas: seq<seq<byte>>, offs: seq<nat>, ends: seq<nat>, isa: InstructionSet, n: nat): CodeBytes
    requires n <= |datas| == |offs| && |ends| == |datas| + 1
  {
    if n == 0 then CodeBytes(0, 0, 0)
    else CodeBytesUpTo(datas, offs, ends, isa, n - 1).Plus(CodeBytesAt(datas, offs, ends, isa, n - 1))
  }

  /** Writes a method header and its code behind each other. */
  method WritePair(out: OutputStream, ghost base: nat, offset: nat, header: seq<byte>, code: seq<byte>) returns (ok: bool)
    requires StandsAt(out, base, offset)
    modifies out`data, out`behind, out`pos
    ensures ok ==> StandsAt(out, base, offset + |header| + |code|) && old(out.data) <= out.data && At(out.data, base + offset, header + code)
    ensures base + offset + |header| + |code| <= out.capacity ==> ok
  {
    ok := out.WriteFully(header);
    if ok {
      ghost var withHeader := out.data;
      ok := out.WriteFully(code);
      if ok {
        AtKept(withHeader, out.data, base + offset, header);
        AtJoin(out.data, base + offset, header, code);
      }
    }
  }

  /** `WriteCodeMethodVisitor::VisitMethod`. */
  method WriteCodeVisit(out: OutputStream, ghost base: nat, isa: InstructionSet, m: CompiledMethod, record: Record, offset: nat, bytes: CodeBytes)
    returns (ok: bool, offset': nat, bytes': CodeBytes)
    requires StandsAt(out, base, offset)
    modifies out`data, out`behind, out`pos
    ensures var aligned := RoundUp(offset, Alignment(isa));
            var end := if !m.quick then offset else if record.offsets.code >= aligned then aligned + |HeaderAndCode(m, record)| else aligned;
            && (ok ==> offset' == end && bytes'.Total() == bytes.Total() + (end - offset))
            && (ok ==> bytes' == if !m.quick then bytes
                                 else if record.offsets.code >= aligned then bytes.Plus(CodeBytes(aligned - offset, METHOD_HEADER_SIZE, |m.code.data|))
                                 else bytes.Plus(CodeBytes(aligned - offset, 0, 0)))
            && (ok && m.quick && record.offsets.code >= aligned ==> At(out.data, base + aligned, HeaderAndCode(m, record)))
            && (base + end <= out.capacity ==> ok)
    ensures ok ==> StandsAt(out, base, offset') && old(out.data) <= out.data
  {
    hide RoundUp, EncodeHeader, At, Zeros, Alignment;
    ok, offset', bytes' := true, offset, bytes;
    if m.quick {
      var alignedOffset := RoundUp(offset', Alignment(isa));
      var alignedCodeDelta := alignedOffset - offset';
      if alignedCodeDelta != 0 {
        ok := out.WriteFully(Zeros(alignedCodeDelta));
        if !ok {
          return;
        }
        bytes' := bytes'.(padding := bytes'.padding + alignedCodeDelta);
        offset' := offset' + alignedCodeDelta;
      }
      if record.offsets.code >= offset' {
        var header := EncodeHeader(record.header);
        ok := WritePair(out, base, offset', header, m.code.data);
        if !ok {
          return;
        }
        bytes' := bytes'.(headers := bytes'.headers + |header|, code := bytes'.code + |m.code.data|);
        offset' := offset' + |header| + |m.code.data|;
      }
    }
  }

  function CodeData(visits: seq<Visit>, classes: seq<OatClass>): (r: seq<seq<byte>>)
    requires Slotted(visits, classes)
    ensures |r| == |visits|
  {
    seq(|visits|, i requires 0 <= i < |visits| => HeaderAndCode(visits[i].method_, RecordAt(classes, visits[i])))
  }

  /** A visit of the write pass: afterwards method `i`, too, finds its header and code. */
  method WriteCodeAt(out: OutputStream, ghost base: nat, isa: InstructionSet, m: CompiledMethod, record: Record, offset: nat, bytes: CodeBytes,
                     ghost datas: seq<seq<byte>>, ghost offs: seq<nat>, ghost ends: seq<nat>, ghost firsts: seq<nat>, ghost i: nat)
    returns (ok: bool, offset': nat, bytes': CodeBytes)
    requires CodeScript(datas, offs, ends, firsts, isa) && i < |datas| && datas[i] == HeaderAndCode(m, record)
    requires m.quick ==> record.offsets.code == offs[i] + METHOD_HEADER_SIZE + CodeDelta(isa)
    requires offset == ends[i] && StandsAt(out, base, offset) && Found(out.data, base, datas, offs, i)
    modifies out`data, out`behind, out`pos
    ensures ok ==> offset' == ends[i + 1] && StandsAt(out, base, offset') && old(out.data) <= out.data && offset <= offset'
    ensures ok ==> Found(out.data, base, datas, offs, i + 1)
    ensures ok ==> bytes'.Total() == bytes.Total() + (offset' - offset) && bytes' == bytes.Plus(CodeBytesAt(datas, offs, ends, isa, i))
    ensures base + ends[i + 1] <= out.capacity ==> ok
  {
    ghost var before := out.data;
    assert CodeEntry(datas, offs, ends, firsts, isa, i);
    ok, offset', bytes' := WriteCodeVisit(out, base, isa, m, record, offset, bytes);
    if ok {
      FoundKept(before, out.data, base, datas, offs, i);
    }
  }

  /** The pass of `WriteCodeMethodVisitor`. */
  method WriteCodePass(out: OutputStream, ghost base: nat, isa: InstructionSet, start: nat, classes: seq<OatClass>, visits: seq<Visit>,
                       ghost offs: seq<nat>, ghost ends: seq<nat>, ghost firsts: seq<nat>)
    returns (ok: bool, offset: nat, bytes: CodeBytes)
    requires Slotted(visits, classes) && CodeScript(CodeData(visits, classes), offs, ends, firsts, isa) && start == ends[0] && StandsAt(out, base, start)
    requires forall i :: 0 <= i < |visits| && visits[i].method_.quick ==>
               RecordAt(classes, visits[i]).offsets.code == offs[i] + METHOD_HEADER_SIZE + CodeDelta(isa)
    modifies out`data, out`behind, out`pos
    ensures ok ==> offset == ends[|visits|] && StandsAt(out, base, offset) && old(out.data) <= out.data
    ensures ok ==> Found(out.data, base, CodeData(visits, classes), offs, |visits|)
    ensures ok ==> bytes.Total() == offset - start && bytes == CodeBytesUpTo(CodeData(visits, classes), offs, ends, isa, |visits|)
    ensures base + ends[|visits|] <= out.capacity ==> ok
  {
    hide StandsAt;
    ghost var datas := CodeData(visits, classes);
    ok, offset, bytes := true, start, CodeBytes(0, 0, 0);
    for i := 0 to |visits|
      invariant ok && offset == ends[i] && StandsAt(out, base, offset) && old(out.data) <= out.data
      invariant Found(out.data, base, datas, offs, i) && bytes.Total() + start == offset && bytes == CodeBytesUpTo(datas, offs, ends, isa, i)
    {
      CodeScriptGrows(datas, offs, ends, firsts, isa, i + 1, |visits|);
      ok, offset, bytes := WriteCodeAt(out, base, isa, visits[i].method_, RecordAt(classes, visits[i]), offset, bytes, datas, offs, ends, firsts, i);
      if !ok {
        return;
      }
    }
  }

  /** Where the header of each Quick method stands. */
  function HeaderOffsets(ms: seq<CompiledMethod>, lay: Layout): (r: seq<nat>)
    ensures |r| == |ms|
  {
    seq(|ms|, i requires 0 <= i < |ms| => if ms[i].quick then CodeOffset(ms, lay, i) - METHOD_HEADER_SIZE else 0)
  }

  function CodeEnds(ms: seq<CompiledMethod>, lay: Layout): (r: seq<nat>)
    ensures |r| == |ms| + 1
  {
    seq(|ms| + 1, i requires 0 <= i <= |ms| => End(CodeItems(ms), Alignment(lay.isa), lay.code, i))
  }

  function CodeFirsts(ms: seq<CompiledMethod>): (r: seq<nat>)
    ensures |r| == |ms|
  {
    var items := CodeItems(ms);
    seq(|ms|, i requires 0 <= i < |ms| => if items[i].Skip? then 0 else First(items, i))
  }

  ghost predicate DecidedByOffset(ms: seq<CompiledMethod>, lay: Layout, i: nat)
    requires i < |ms| && ms[i].quick
  {
    var items, a := CodeItems(ms), Alignment(lay.isa);
    var aligned := RoundUp(End(items, a, lay.code, i), a);
    && (CodeOffset(ms, lay, i) - METHOD_HEADER_SIZE == aligned <==> Fresh(items, i))
    && End(items, a, lay.code, i + 1) == aligned + (if Fresh(items, i) then METHOD_HEADER_SIZE + |ms[i].code.data| else 0)
    && (!Fresh(items, i) ==> First(items, i) < i && CodeOffset(ms, lay, i) + CodeDelta(lay.isa) < aligned)
  }

  /** A header is due at the current aligned offset exactly when it is a first occurrence.  Otherwise
      the recorded code offset, even with the Thumb bit, is below the current offset: code of a single
      byte leaves an odd end, which alignment moves past it. */
  lemma CodeDecision(ms: seq<CompiledMethod>, lay: Layout, i: nat)
    requires Deduplicated(ms) && i < |ms| && ms[i].quick
    ensures DecidedByOffset(ms, lay, i)
  {
    hide Deduplicated, Consistent, RoundUp;
    CodePresent(ms, i);
    var items, a := CodeItems(ms), Alignment(lay.isa);
    ItemsConsistent(ms);
    FreshExactlyHere(items, a, lay.code, i);
    EvenRoundUp(End(items, a, lay.code, i), lay.isa);
  }

  lemma CodePresent(ms: seq<CompiledMethod>, i: nat)
    requires Deduplicated(ms) && i < |ms| && ms[i].quick
    ensures ms[i].code.data != []
  {
  }

  lemma CodeRepeat(ms: seq<CompiledMethod>, lay: Layout, i: nat)
    requires Deduplicated(ms) && LayoutOk(ms, lay) && i < |ms| && ms[i].quick
    ensures var f := First(CodeItems(ms), i);
            && ms[f].quick && ms[f].code == ms[i].code && CodeOffset(ms, lay, f) == CodeOffset(ms, lay, i)
            && FinalRecord(ms, lay, f).header == FinalRecord(ms, lay, i).header
  {
    var f := First(CodeItems(ms), i);
    assert CodeItems(ms)[f] == CodeItem(ms[f]);
    SharedHeaders(ms, lay, f, i);
  }

  /** The first method with the key of method `i` has the same header, code and offset. */
  ghost predicate SharesWithFirst(visits: seq<Visit>, classes: seq<OatClass>, lay: Layout, i: nat)
    requires Slotted(visits, classes) && i < |visits| && visits[i].method_.quick
  {
    var ms := MethodsOf(visits);
    var f := First(CodeItems(ms), i);
    && visits[f].method_.quick && visits[f].method_.code == visits[i].method_.code && CodeOffset(ms, lay, f) == CodeOffset(ms, lay, i)
    && RecordAt(classes, visits[f]).header == RecordAt(classes, visits[i]).header
  }

  lemma FirstShares(visits: seq<Visit>, classes: seq<OatClass>, lay: Layout, i: nat)
    requires RecordsFinal(classes, visits, lay) && Deduplicated(MethodsOf(visits)) && LayoutOk(MethodsOf(visits), lay)
    requires i < |visits| && visits[i].method_.quick
    ensures SharesWithFirst(visits, classes, lay, i)
  {
    CodeRepeat(MethodsOf(visits), lay, i);
  }

  /** The numbers of a script entry for a Quick method. */
  lemma EntryNumbers(ms: seq<CompiledMethod>, lay: Layout, i: nat)
    requires i < |ms| && ms[i].quick && DecidedByOffset(ms, lay, i)
    ensures var offs, ends := HeaderOffsets(ms, lay), CodeEnds(ms, lay);
            var aligned := RoundUp(ends[i], Alignment(lay.isa));
            && (offs[i] == aligned ==> ends[i + 1] == aligned + METHOD_HEADER_SIZE + |ms[i].code.data|)
            && (offs[i] != aligned ==> ends[i + 1] == aligned && CodeFirsts(ms)[i] < i && offs[i] + METHOD_HEADER_SIZE + CodeDelta(lay.isa) < aligned)
  {
  }

  /** The contents of a script entry for a Quick method. */
  lemma EntryContents(visits: seq<Visit>, classes: seq<OatClass>, lay: Layout, i: nat)
    requires Slotted(visits, classes) && i < |visits| && visits[i].method_.quick && SharesWithFirst(visits, classes, lay, i)
    ensures var ms, datas := MethodsOf(visits), CodeData(visits, classes);
            var f := CodeFirsts(ms)[i];
            && |datas[i]| == METHOD_HEADER_SIZE + |ms[i].code.data|
            && f < |visits| && datas[f] == datas[i] && HeaderOffsets(ms, lay)[f] == HeaderOffsets(ms, lay)[i]
  {
    var f := First(CodeItems(MethodsOf(visits)), i);
    SameHeaderAndCode(visits[f].method_, RecordAt(classes, visits[f]), visits[i].method_, RecordAt(classes, visits[i]));
  }

  lemma CodeScriptEntry(visits: seq<Visit>, classes: seq<OatClass>, lay: Layout, i: nat)
    requires Slotted(visits, classes) && i < |visits|
    requires visits[i].method_.quick ==> SharesWithFirst(visits, classes, lay, i) && DecidedByOffset(MethodsOf(visits), lay, i)
    ensures var ms := MethodsOf(visits);
            CodeEntry(CodeData(visits, classes), HeaderOffsets(ms, lay), CodeEnds(ms, lay), CodeFirsts(ms), lay.isa, i)
  {
    if visits[i].method_.quick {
      EntryNumbers(MethodsOf(visits), lay, i);
      EntryContents(visits, classes, lay, i);
    } else {
      assert CodeData(visits, classes)[i] == [];
    }
  }

  lemma SameHeaderAndCode(m: CompiledMethod, r: Record, m': CompiledMethod, r': Record)
    requires m.quick && m'.quick && m.code == m'.code && r.header == r'.header
    ensures HeaderAndCode(m, r) == HeaderAndCode(m', r')
    ensures |HeaderAndCode(m, r)| == METHOD_HEADER_SIZE + |m.code.data|
  {
  }

  /** The Write pass finds what the Init pass laid out. */
  lemma CodeScriptHolds(visits: seq<Visit>, classes: seq<OatClass>, lay: Layout)
    requires RecordsFinal(classes, visits, lay) && Deduplicated(MethodsOf(visits)) && LayoutOk(MethodsOf(visits), lay)
    ensures var ms := MethodsOf(visits);
            CodeScript(CodeData(visits, classes), HeaderOffsets(ms, lay), CodeEnds(ms, lay), CodeFirsts(ms), lay.isa)
  {
    var ms := MethodsOf(visits);
    forall i | 0 <= i < |visits|
      ensures CodeEntry(CodeData(visits, classes), HeaderOffsets(ms, lay), CodeEnds(ms, lay), CodeFirsts(ms), lay.isa, i)
    {
      if visits[i].method_.quick {
        FirstShares(visits, classes, lay, i);
        CodeDecision(ms, lay, i);
      }
      CodeScriptEntry(visits, classes, lay, i);
    }
  }
}
