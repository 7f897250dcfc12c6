/** Stripping an ELF file in place (compiler/elf_stripper.cc): sections that are not needed are dropped and
    the others are moved up, over a file whose section headers are read while sections move. */
module ElfStripper {
  import opened Bytes
  import opened Buffers

  // ---------- ELF headers ----------

  const SHOFF := 32
  const SHENTSIZE := 46
  const SHNUM := 48
  const SHSTRNDX := 50
  const EHDR_SIZE := 52

  function Half(data: seq<byte>, pos: nat): nat
    requires pos + 2 <= |data|
  {
    data[pos] as int + 256 * data[pos + 1] as int
  }

  datatype Shdr = Shdr(
    name: uint32, kind: uint32, flags: uint32, addr: uint32, offset: uint32, size: uint32, link: uint32, info: uint32, align: uint32, entsize: uint32)

  function EncodeHeader(h: Shdr): (r: seq<byte>)
    ensures |r| == 40
  {
    U32(h.name) + U32(h.kind) + U32(h.flags) + U32(h.addr) + U32(h.offset) + U32(h.size) + U32(h.link) + U32(h.info) + U32(h.align) + U32(h.entsize)
  }

  /** The section header at `pos`. */
  function DecodeHeader(data: seq<byte>, pos: nat): Shdr
    requires pos + 40 <= |data|
  {
    Shdr(Word(data, pos), Word(data, pos + 4), Word(data, pos + 8), Word(data, pos + 12), Word(data, pos + 16),
         Word(data, pos + 20), Word(data, pos + 24), Word(data, pos + 28), Word(data, pos + 32), Word(data, pos + 36))
  }

  /** Section header `i` of a table at `shoff`. */
  function HeaderAt(data: seq<byte>, shoff: nat, i: nat): Shdr
    requires shoff + 40 * (i + 1) <= |data|
  {
    DecodeHeader(data, shoff + 40 * i)
  }

  function RoundUpTo(offset: nat, align: nat): (r: nat)
    ensures offset <= r
  {
    if align > 1 then RoundUp(offset, align) else offset
  }

  /** An aligned place that is not below the current offset is not below the rounded one either. */
  lemma {:induction false} RoundUpLeast(x: nat, y: nat, n: nat)
    requires n > 0 && x <= y && y % n == 0
    ensures RoundUp(x, n) <= y
    decreases x
  {
    if x > n {
      AddMultiple(y - n, n);
      RoundUpLeast(x - n, y - n, n);
    } else if 0 < x && y < n {
      SmallMod(y, n);
    }
  }

  lemma SmallMod(y: nat, n: nat)
    requires y < n
    ensures y % n == y
  {
  }

  lemma RoundedStaysBelow(x: nat, y: nat, align: nat)
    requires x <= y && (align > 1 ==> y % align == 0)
    ensures RoundUpTo(x, align) <= y
    ensures align > 1 ==> RoundUpTo(x, align) % align == 0
  {
    if align > 1 {
      RoundUpLeast(x, y, align);
      RoundUpAligned(x, align);
    }
  }

  // ---------- Moving bytes ----------

  /** `memmove` to an earlier place, byte by byte. */
  method MoveDown(a: array<byte>, dst: nat, src: nat, n: nat)
    requires dst <= src && src + n <= a.Length
    modifies a
    ensures a[..] == Stored(old(a[..]), dst, old(a[..])[src..src + n])
  {
    ghost var before := a[..];
    ghost var after := Stored(before, dst, before[src..src + n]);
    for i := 0 to n
      invariant forall k {:trigger a[k]} :: 0 <= k < dst + i ==> a[k] == after[k]
      invariant forall k {:trigger a[k]} :: dst + i <= k < a.Length ==> a[k] == before[k]
    {
      assert after[dst + i] == before[src + i];
      a[dst + i] := a[src + i];
    }
    assert forall k :: dst + n <= k < a.Length ==> after[k] == before[k];
  }

  // ---------- Where sections go ----------

  /** The sections to keep, behind the null section `ks[0]`: in file order, apart from each other, aligned,
      not in front of `first` and in front of the section headers at `shoff`. */
  ghost predicate SectionsOk(first: nat, ks: seq<Shdr>, shoff: nat) {
    && |ks| > 0 && EHDR_SIZE <= first <= shoff
    && (forall i {:trigger ks[i]} :: 1 <= i < |ks| ==> first <= ks[i].offset && ks[i].offset + ks[i].size <= shoff && IsAligned(ks[i].offset, ks[i].align))
    && (forall i, j {:trigger ks[i], ks[j]} :: 1 <= i < j < |ks| ==> ks[i].offset + ks[i].size <= ks[j].offset)
  }

  ghost predicate IsAligned(offset: nat, align: nat) {
    align > 1 ==> offset % align == 0
  }

  /** The end of the first `m` kept sections. */
  function End(first: nat, ks: seq<Shdr>, m: nat): (r: nat)
    requires 0 < m <= |ks|
    ensures first <= r
    decreases m, 0
  {
    if m == 1 then first else Place(first, ks, m - 1) + ks[m - 1].size
  }

  /** The new offset of kept section `m`. */
  function Place(first: nat, ks: seq<Shdr>, m: nat): (r: nat)
    requires 0 < m < |ks|
    ensures first <= End(first, ks, m) <= r
    decreases m, 1
  {
    RoundUpTo(End(first, ks, m), ks[m].align)
  }

  /** No section moves to a later place, and the new place is aligned. */
  lemma {:induction false} PlacedEarlier(first: nat, ks: seq<Shdr>, shoff: nat, m: nat)
    requires SectionsOk(first, ks, shoff) && 0 < m < |ks|
    ensures Place(first, ks, m) <= ks[m].offset && IsAligned(Place(first, ks, m), ks[m].align)
    decreases m
  {
    if m > 1 {
      PlacedEarlier(first, ks, shoff, m - 1);
      assert ks[m - 1].offset + ks[m - 1].size <= ks[m].offset;
    }
    RoundedStaysBelow(End(first, ks, m), ks[m].offset, ks[m].align);
  }

  lemma EndInFront(first: nat, ks: seq<Shdr>, shoff: nat, m: nat)
    requires SectionsOk(first, ks, shoff) && 0 < m <= |ks|
    ensures End(first, ks, m) <= shoff
  {
    if m > 1 {
      PlacedEarlier(first, ks, shoff, m - 1);
    }
  }

  /** The sections placed so far end where the next one may begin. */
  lemma {:induction false} PlacesEnd(first: nat, ks: seq<Shdr>, j: nat, m: nat)
    requires 0 < j < m <= |ks|
    ensures Place(first, ks, j) + ks[j].size <= End(first, ks, m)
    decreases m
  {
    if j < m - 1 {
      PlacesEnd(first, ks, j, m - 1);
    }
  }

  // ---------- Compaction ----------

  /** The bytes of section `h` stand at `place`. */
  ghost predicate Moved(orig: seq<byte>, data: seq<byte>, h: Shdr, place: nat) {
    && h.offset + h.size <= |orig| && place + h.size <= |data|
    && data[place..place + h.size] == orig[h.offset..h.offset + h.size]
  }

  /** After the first `m` kept sections: they have their old bytes at their new places, and nothing behind
      them, nor in front of the first section, has changed. */
  ghost predicate Compacted(orig: seq<byte>, data: seq<byte>, first: nat, ks: seq<Shdr>, m: nat) {
    && 0 < m <= |ks| && |data| == |orig|
    && (forall k {:trigger data[k]} :: 0 <= k < |data| && (k < first || End(first, ks, m) <= k) ==> data[k] == orig[k])
    && (forall j {:trigger ks[j]} :: 0 < j < m ==> Moved(orig, data, ks[j], Place(first, ks, j)))
  }

  lemma MovedKept(orig: seq<byte>, data: seq<byte>, data': seq<byte>, h: Shdr, place: nat, at: nat, n: nat)
    requires Moved(orig, data, h, place) && Outside(data, data', at, n) && (place + h.size <= at || at + n <= place)
    ensures Moved(orig, data', h, place)
  {
    SliceSame(data', data, place, place + h.size);
  }

  /** A section that has not been placed yet still has its bytes. */
  lemma SectionUntouched(orig: seq<byte>, data: seq<byte>, first: nat, ks: seq<Shdr>, shoff: nat, m: nat)
    requires SectionsOk(first, ks, shoff) && shoff <= |orig| && Compacted(orig, data, first, ks, m) && m < |ks|
    ensures var h := ks[m];
            h.offset + h.size <= |data| == |orig| && data[h.offset..h.offset + h.size] == orig[h.offset..h.offset + h.size]
  {
    var h := ks[m];
    PlacedEarlier(first, ks, shoff, m);
    SliceSame(data, orig, h.offset, h.offset + h.size);
  }

  /** Moving one more section. */
  lemma CompactStep(orig: seq<byte>, data: seq<byte>, first: nat, ks: seq<Shdr>, shoff: nat, m: nat)
    requires SectionsOk(first, ks, shoff) && shoff <= |orig| && Compacted(orig, data, first, ks, m) && m < |ks|
    ensures var h, place := ks[m], Place(first, ks, m);
            && place <= h.offset && h.offset + h.size <= |data|
            && Compacted(orig, Stored(data, place, data[h.offset..h.offset + h.size]), first, ks, m + 1)
  {
    SectionUntouched(orig, data, first, ks, shoff, m);
    PlacedEarlier(first, ks, shoff, m);
    hide Place, SectionsOk;
    var h, place := ks[m], Place(first, ks, m);
    var bytes := data[h.offset..h.offset + h.size];
    StoredStands(data, place, bytes);
    StepParts(orig, data, Stored(data, place, bytes), first, ks, m);
  }

  lemma StepParts(orig: seq<byte>, data: seq<byte>, data': seq<byte>, first: nat, ks: seq<Shdr>, m: nat)
    requires Compacted(orig, data, first, ks, m) && m < |ks|
    requires Outside(data, data', Place(first, ks, m), ks[m].size) && Moved(orig, data', ks[m], Place(first, ks, m))
    ensures Compacted(orig, data', first, ks, m + 1)
  {
    hide Place, Moved;
    var place, size := Place(first, ks, m), ks[m].size;
    assert End(first, ks, m + 1) == place + size;
    forall j | 0 < j < m ensures Moved(orig, data', ks[j], Place(first, ks, j)) {
      PlacesEnd(first, ks, j, m);
      MovedKept(orig, data, data', ks[j], Place(first, ks, j), place, size);
    }
  }

  /** Section headers are read unchanged while sections move. */
  lemma HeaderUntouched(orig: seq<byte>, data: seq<byte>, first: nat, ks: seq<Shdr>, shoff: nat, m: nat, i: nat)
    requires SectionsOk(first, ks, shoff) && Compacted(orig, data, first, ks, m) && shoff + 40 * (i + 1) <= |orig|
    ensures HeaderAt(data, shoff, i) == HeaderAt(orig, shoff, i)
  {
    EndInFront(first, ks, shoff, m);
    SameWords(data, orig, shoff + 40 * i);
  }

  lemma SameWords(a: seq<byte>, b: seq<byte>, pos: nat)
    requires pos + 40 <= |a| == |b| && forall k {:trigger a[k]} :: pos <= k < pos + 40 ==> a[k] == b[k]
    ensures DecodeHeader(a, pos) == DecodeHeader(b, pos)
  {
    hide Word;
    SameWord(a, b, pos);
    SameWord(a, b, pos + 4);
    SameWord(a, b, pos + 8);
    SameWord(a, b, pos + 12);
    SameWord(a, b, pos + 16);
    SameWord(a, b, pos + 20);
    SameWord(a, b, pos + 24);
    SameWord(a, b, pos + 28);
    SameWord(a, b, pos + 32);
    SameWord(a, b, pos + 36);
  }

  lemma SameWord(a: seq<byte>, b: seq<byte>, pos: nat)
    requires pos + 4 <= |a| == |b| && forall k {:trigger a[k]} :: pos <= k < pos + 4 ==> a[k] == b[k]
    ensures Word(a, pos) == Word(b, pos)
  {
    assert a[pos..pos + 4] == b[pos..pos + 4];
  }

  /** The new section headers: the kept ones, the first `m` of them with their new offsets. */
  ghost predicate NewHeaders(first: nat, ks: seq<Shdr>, headers: seq<Shdr>, m: nat) {
    && |headers| == |ks| && 0 < m <= |ks|
    && (forall k {:trigger headers[k]} :: 0 <= k < |ks| ==> headers[k] == if 0 < k < m then Relocated(first, ks, k) else ks[k])
  }

  function Relocated(first: nat, ks: seq<Shdr>, k: nat): Shdr
    requires 0 < k < |ks|
  {
    ks[k].(offset := Wrap32(Place(first, ks, k)))
  }

  /** Kept section `i`, whose header is read again from the file: it is moved up unless it is in place. */
  method CompactNext(file: array<byte>, shoff: nat, header: Shdr, originalIndex: nat, offset: nat, ghost orig: seq<byte>, ghost first: nat, ghost ks: seq<Shdr>, ghost i: nat)
    returns (header': Shdr, offset': nat)
    requires SectionsOk(first, ks, shoff) && Compacted(orig, file[..], first, ks, i) && 0 < i < |ks| && offset == End(first, ks, i)
    requires shoff + 40 * (originalIndex + 1) <= file.Length == |orig| < TWO32 && header == ks[i] == HeaderAt(orig, shoff, originalIndex)
    modifies file
    ensures Compacted(orig, file[..], first, ks, i + 1) && offset' == End(first, ks, i + 1)
    ensures header' == Relocated(first, ks, i)
  {
    hide SectionsOk, RoundUp, Compacted, HeaderAt, Stored;
    HeaderUntouched(orig, file[..], first, ks, shoff, i, originalIndex);
    CompactStep(orig, file[..], first, ks, shoff, i);
    var oldHeader := HeaderAt(file[..], shoff, originalIndex);
    header', offset' := header, RoundUpTo(offset, oldHeader.align);
    if oldHeader.offset == offset' {
      SameBytes(file[..], offset', oldHeader.size);
    } else {
      MoveDown(file, offset', oldHeader.offset, oldHeader.size);
      header' := header.(offset := Wrap32(offset'));
    }
    offset' := offset' + oldHeader.size;
  }

  lemma SameBytes(data: seq<byte>, pos: nat, n: nat)
    requires pos + n <= |data|
    ensures Stored(data, pos, data[pos..pos + n]) == data
  {
  }

  /** The compaction loop. */
  method Compact(file: array<byte>, shoff: nat, first: nat, ks: seq<Shdr>, idx: seq<nat>) returns (headers: seq<Shdr>, offset: nat)
    requires SectionsOk(first, ks, shoff) && |idx| == |ks| > 0 && file.Length < TWO32
    requires forall i {:trigger idx[i]} :: 0 <= i < |idx| ==> shoff + 40 * (idx[i] + 1) <= file.Length && ks[i] == HeaderAt(file[..], shoff, idx[i])
    modifies file
    ensures Compacted(old(file[..]), file[..], first, ks, |ks|) && offset == End(first, ks, |ks|)
    ensures NewHeaders(first, ks, headers, |ks|)
  {
    hide SectionsOk, RoundUp, Place, HeaderAt, Moved;
    ghost var orig := file[..];
    headers, offset := ks, first;
    var i := 1;
    while i < |ks|
      invariant 1 <= i <= |ks| && offset == End(first, ks, i) && NewHeaders(first, ks, headers, i) && Compacted(orig, file[..], first, ks, i)
    {
      hide Compacted, End, Relocated;
      var header;
      header, offset := CompactNext(file, shoff, headers[i], idx[i], offset, orig, first, ks, i);
      headers := headers[i := header];
      i := i + 1;
    }
  }

  // ---------- Selection ----------

  /** The bytes of the string at `pos`. */
  function CString(data: seq<byte>, pos: nat): seq<byte>
    decreases |data| - pos
  {
    if pos >= |data| || data[pos] == 0 then [] else [data[pos]] + CString(data, pos + 1)
  }

  const DEBUG: seq<byte> := [46, 100, 101, 98, 117, 103]
  const STRTAB: seq<byte> := [46, 115, 116, 114, 116, 97, 98]
  const SYMTAB: seq<byte> := [46, 115, 121, 109, 116, 97, 98]

  /** Sections that are not needed: ".debug..." , ".strtab" and ".symtab". */
  predicate Unneeded(name: seq<byte>) {
    DEBUG <= name || name == STRTAB || name == SYMTAB
  }

  /** What the ELF header says. */
  function SectionCount(data: seq<byte>): nat
    requires |data| >= EHDR_SIZE
  {
    Half(data, SHNUM)
  }

  function TableAt(data: seq<byte>, n: nat): nat
    requires |data| >= EHDR_SIZE
  {
    Word(data, SHOFF) + 40 * n
  }

  /** The section header table lies in the file. */
  ghost predicate TableOk(data: seq<byte>) {
    && EHDR_SIZE <= |data| < TWO32 && Half(data, SHENTSIZE) == 40 && 2 <= SectionCount(data)
    && TableAt(data, SectionCount(data)) <= |data| && Half(data, SHSTRNDX) < SectionCount(data)
  }

  function Header(data: seq<byte>, i: nat): Shdr
    requires |data| >= EHDR_SIZE && TableAt(data, i + 1) <= |data|
  {
    HeaderAt(data, Word(data, SHOFF), i)
  }

  /** Whether section `i` is kept: the null section has no name. */
  predicate Keeps(data: seq<byte>, i: nat)
    requires |data| >= EHDR_SIZE && TableAt(data, i + 1) <= |data| && TableAt(data, Half(data, SHSTRNDX) + 1) <= |data|
  {
    var h := Header(data, i);
    h.name == 0 || !Unneeded(CString(data, Header(data, Half(data, SHSTRNDX)).offset + h.name))
  }

  /** The numbers of the true elements. */
  function Indexes(keep: seq<bool>): seq<nat> {
    if keep == [] then [] else Indexes(keep[..|keep| - 1]) + (if keep[|keep| - 1] then [|keep| - 1] else [])
  }

  /** Exactly those, in order. */
  lemma {:induction false} IndexesExactly(keep: seq<bool>)
    ensures forall i {:trigger i in Indexes(keep)} :: i in Indexes(keep) <==> 0 <= i < |keep| && keep[i]
    ensures forall j, k {:trigger Indexes(keep)[j], Indexes(keep)[k]} :: 0 <= j < k < |Indexes(keep)| ==> Indexes(keep)[j] < Indexes(keep)[k]
    ensures |Indexes(keep)| <= |keep|
  {
    if keep != [] {
      var rest := keep[..|keep| - 1];
      IndexesExactly(rest);
      forall j | 0 <= j < |Indexes(rest)| ensures Indexes(rest)[j] < |keep| - 1 {
        assert Indexes(rest)[j] in Indexes(rest);
      }
    }
  }

  lemma IndexesSnoc(keep: seq<bool>, b: bool)
    ensures Indexes(keep + [b]) == Indexes(keep) + (if b then [|keep|] else [])
  {
    assert (keep + [b])[..|keep|] == keep;
  }

  /** Which sections are kept. */
  ghost function KeepFlags(data: seq<byte>): (r: seq<bool>)
    requires TableOk(data)
    ensures |r| == SectionCount(data)
  {
    seq(SectionCount(data), i requires 0 <= i < SectionCount(data) => Keeps(data, i))
  }

  /** The selection loop. */
  method Select(data: seq<byte>) returns (ks: seq<Shdr>, idx: seq<nat>)
    requires TableOk(data)
    ensures idx == Indexes(KeepFlags(data)) && |ks| == |idx|
    ensures forall k {:trigger idx[k]} :: 0 <= k < |idx| ==> idx[k] < SectionCount(data) && ks[k] == Header(data, idx[k])
  {
    ghost var flags := KeepFlags(data);
    ks, idx := [], [];
    assert flags[..0] == [];
    assert Indexes(flags[..0]) == [];
    hide Keeps, Indexes;
    for i := 0 to SectionCount(data)
      invariant idx == Indexes(flags[..i]) && |ks| == |idx|
      invariant forall k {:trigger idx[k]} :: 0 <= k < |idx| ==> idx[k] < SectionCount(data) && ks[k] == Header(data, idx[k])
    {
      assert flags[..i + 1] == flags[..i] + [flags[i]];
      IndexesSnoc(flags[..i], flags[i]);
      if Keeps(data, i) {
        ks, idx := ks + [Header(data, i)], idx + [i];
      }
    }
    assert flags[..SectionCount(data)] == flags;
  }

  // ---------- Stripping ----------

  /** The sections of a file, behind the null section: named, in file order, apart from each other, aligned,
      behind the ELF header and in front of the section headers. */
  ghost predicate OrderedOk(hs: seq<Shdr>, shoff: nat) {
    && |hs| >= 2 && EHDR_SIZE <= hs[1].offset <= shoff && hs[0].name == 0
    && (forall i {:trigger hs[i]} :: 1 <= i < |hs| ==> hs[i].name != 0 && hs[i].offset + hs[i].size <= shoff && IsAligned(hs[i].offset, hs[i].align))
    && (forall i, j {:trigger hs[i], hs[j]} :: 1 <= i < j < |hs| ==> hs[i].offset + hs[i].size <= hs[j].offset)
  }

  /** The section headers of a file. */
  ghost function Headers(data: seq<byte>): (hs: seq<Shdr>)
    requires TableOk(data)
    ensures |hs| == SectionCount(data) && forall i {:trigger hs[i]} :: 0 <= i < |hs| ==> hs[i] == Header(data, i)
  {
    seq(SectionCount(data), i requires 0 <= i < SectionCount(data) => Header(data, i))
  }

  /** Names are in the string section. */
  ghost predicate NamesOk(hs: seq<Shdr>, strings: nat, size: nat) {
    && strings < |hs| && hs[strings].kind == 3
    && forall i {:trigger hs[i]} :: 0 <= i < |hs| ==> hs[i].name < hs[strings].size && hs[strings].offset + hs[i].name < size
  }

  ghost predicate FileOk(data: seq<byte>) {
    TableOk(data) && OrderedOk(Headers(data), Word(data, SHOFF)) && NamesOk(Headers(data), Half(data, SHSTRNDX), |data|)
  }

  /** Sections chosen in order satisfy what compaction needs. */
  lemma ChosenOk(hs: seq<Shdr>, shoff: nat, ks: seq<Shdr>, idx: seq<nat>)
    requires OrderedOk(hs, shoff) && |ks| == |idx| > 0 && idx[0] == 0
    requires forall k {:trigger idx[k]} :: 0 <= k < |idx| ==> idx[k] < |hs| && ks[k] == hs[idx[k]]
    requires forall j, k {:trigger idx[j], idx[k]} :: 0 <= j < k < |idx| ==> idx[j] < idx[k]
    ensures SectionsOk(hs[1].offset, ks, shoff)
  {
    forall i | 1 <= i < |ks| ensures hs[1].offset <= ks[i].offset && ks[i].offset + ks[i].size <= shoff && IsAligned(ks[i].offset, ks[i].align) {
      assert idx[0] < idx[i] && ks[i] == hs[idx[i]];
      assert idx[i] > 1 ==> hs[1].offset + hs[1].size <= hs[idx[i]].offset;
    }
    forall i, j | 1 <= i < j < |ks| ensures ks[i].offset + ks[i].size <= ks[j].offset {
      assert idx[0] < idx[i] < idx[j] && ks[i] == hs[idx[i]] && ks[j] == hs[idx[j]];
    }
  }

  /** The null section is the first that is kept. */
  lemma NullKept(data: seq<byte>, idx: seq<nat>)
    requires TableOk(data) && Header(data, 0).name == 0 && idx == Indexes(KeepFlags(data))
    ensures 0 < |idx| <= SectionCount(data) && idx[0] == 0
    ensures forall j, k {:trigger idx[j], idx[k]} :: 0 <= j < k < |idx| ==> idx[j] < idx[k]
  {
    var flags := KeepFlags(data);
    IndexesExactly(flags);
    hide Indexes, Header, CString;
    assert flags[0] == Keeps(data, 0);
    assert 0 in idx;
    var z :| 0 <= z < |idx| && idx[z] == 0;
    var first := idx[0];
    if z > 0 {
      assert false;
    }
  }

  lemma KeptSectionsOk(data: seq<byte>, ks: seq<Shdr>, idx: seq<nat>)
    requires FileOk(data) && idx == Indexes(KeepFlags(data)) && |ks| == |idx|
    requires forall k {:trigger idx[k]} :: 0 <= k < |idx| ==> idx[k] < SectionCount(data) && ks[k] == Header(data, idx[k])
    ensures 0 < |idx| <= SectionCount(data) && SectionsOk(Header(data, 1).offset, ks, Word(data, SHOFF))
  {
    var hs := Headers(data);
    assert hs[0] == Header(data, 0) && hs[1] == Header(data, 1);
    NullKept(data, idx);
    forall k | 0 <= k < |idx| ensures ks[k] == hs[idx[k]] {
      assert hs[idx[k]] == Header(data, idx[k]);
    }
    ChosenOk(hs, Word(data, SHOFF), ks, idx);
  }

  /** Section headers one behind the other. */
  ghost predicate HeadersStand(data: seq<byte>, pos: nat, headers: seq<Shdr>, n: nat) {
    n <= |headers| && forall k {:trigger headers[k]} :: 0 <= k < n ==> At(data, pos + 40 * k, EncodeHeader(headers[k]))
  }

  lemma HeadersKept(data: seq<byte>, data': seq<byte>, pos: nat, headers: seq<Shdr>, n: nat, at: nat, size: nat)
    requires HeadersStand(data, pos, headers, n) && Outside(data, data', at, size) && (at + size <= pos || pos + 40 * n <= at)
    ensures HeadersStand(data', pos, headers, n)
  {
    hide EncodeHeader, At;
    forall k | 0 <= k < n ensures At(data', pos + 40 * k, EncodeHeader(headers[k])) {
      AtOutside(data, data', at, size, pos + 40 * k, EncodeHeader(headers[k]));
    }
  }

  method WriteHeaders(file: array<byte>, pos: nat, headers: seq<Shdr>)
    requires pos + 40 * |headers| <= file.Length
    modifies file
    ensures HeadersStand(file[..], pos, headers, |headers|) && Outside(old(file[..]), file[..], pos, 40 * |headers|)
  {
    hide EncodeHeader, At, Stored;
    for k := 0 to |headers|
      invariant HeadersStand(file[..], pos, headers, k) && Outside(old(file[..]), file[..], pos, 40 * |headers|)
    {
      ghost var before := file[..];
      var bytes := EncodeHeader(headers[k]);
      StoredStands(before, pos + 40 * k, bytes);
      Store(file, pos + 40 * k, bytes);
      OutsideGrows(old(file[..]), before, file[..], pos, 40 * |headers|, pos + 40 * k, 40);
      HeadersKept(before, file[..], pos, headers, k, pos + 40 * k, 40);
    }
  }

  /** What stripping makes of a file with kept sections `ks`, the null section first. */
  ghost predicate Stripped(orig: seq<byte>, data: seq<byte>, first: nat, ks: seq<Shdr>, length: nat) {
    && 0 < |ks| && EHDR_SIZE <= first && |data| == |orig| && length == End(first, ks, |ks|) + 40 * |ks| <= |data|
    && SectionsMoved(orig, data, first, ks) && NotLater(first, ks)
    && HeadersRecord(data, first, ks)
    && Word(data, SHOFF) == End(first, ks, |ks|) && Half(data, SHNUM) == |ks|
    && FrontKept(orig, data, first)
  }

  /** Every kept section is at its new place, in front of the section headers. */
  ghost predicate SectionsMoved(orig: seq<byte>, data: seq<byte>, first: nat, ks: seq<Shdr>)
    requires 0 < |ks|
  {
    forall k {:trigger ks[k]} :: 0 < k < |ks| ==> Moved(orig, data, ks[k], Place(first, ks, k)) && Place(first, ks, k) + ks[k].size <= End(first, ks, |ks|)
  }

  /** No kept section moves to a later place, and each new place is aligned. */
  ghost predicate NotLater(first: nat, ks: seq<Shdr>) {
    forall k {:trigger ks[k]} :: 0 < k < |ks| ==> Place(first, ks, k) <= ks[k].offset && IsAligned(Place(first, ks, k), ks[k].align)
  }

  lemma NoneLater(first: nat, ks: seq<Shdr>, shoff: nat)
    requires SectionsOk(first, ks, shoff)
    ensures NotLater(first, ks)
  {
    forall k | 0 < k < |ks| ensures Place(first, ks, k) <= ks[k].offset && IsAligned(Place(first, ks, k), ks[k].align) {
      PlacedEarlier(first, ks, shoff, k);
    }
  }

  /** The section headers record the places. */
  ghost predicate HeadersRecord(data: seq<byte>, first: nat, ks: seq<Shdr>)
    requires 0 < |ks| && End(first, ks, |ks|) + 40 * |ks| <= |data|
  {
    forall k {:trigger ks[k]} :: 0 <= k < |ks| ==> HeaderAt(data, End(first, ks, |ks|), k) == if k == 0 then ks[0] else Relocated(first, ks, k)
  }

  /** In front of the first section only the two fields that describe the section headers differ. */
  ghost predicate FrontKept(orig: seq<byte>, data: seq<byte>, first: nat)
    requires |data| == |orig|
  {
    forall k {:trigger data[k]} :: 0 <= k < first && k < |data| && !(SHOFF <= k < SHOFF + 4) && !(SHNUM <= k < SHNUM + 2) ==> data[k] == orig[k]
  }

  /** `Strip`: the new length of the file, and the sections kept. */
  method Strip(file: array<byte>) returns (length: nat, ghost ks: seq<Shdr>, ghost idx: seq<nat>)
    requires FileOk(file[..])
    modifies file
    ensures idx == Indexes(KeepFlags(old(file[..]))) && |ks| == |idx|
    ensures forall k {:trigger idx[k]} :: 0 <= k < |idx| ==> idx[k] < SectionCount(old(file[..])) && ks[k] == Header(old(file[..]), idx[k])
    ensures Stripped(old(file[..]), file[..], Header(old(file[..]), 1).offset, ks, length)
  {
    ghost var orig := file[..];
    var shoff, first := Word(file[..], SHOFF), Header(file[..], 1).offset;
    var kept, indexes := Select(file[..]);
    ks, idx := kept, indexes;
    KeptSectionsOk(orig, ks, idx);
    length := StripTo(file, shoff, first, kept, indexes);
  }

  method StripTo(file: array<byte>, shoff: nat, first: nat, ks: seq<Shdr>, idx: seq<nat>) returns (length: nat)
    requires SectionsOk(first, ks, shoff) && |idx| == |ks| > 0 && shoff + 40 * |ks| <= file.Length < TWO32 && |ks| < 0x1_0000
    requires forall i {:trigger idx[i]} :: 0 <= i < |idx| ==> shoff + 40 * (idx[i] + 1) <= file.Length && ks[i] == HeaderAt(file[..], shoff, idx[i])
    modifies file
    ensures Stripped(old(file[..]), file[..], first, ks, length)
  {
    hide SectionsOk, Compacted, HeadersStand, NewHeaders, Stripped, HeaderAt, Stored, Outside, NotLater;
    ghost var orig := file[..];
    SectionsStart(first, ks, shoff);
    NoneLater(first, ks, shoff);
    var headers, offset := Compact(file, shoff, first, ks, idx);
    NewHeadersSize(first, ks, headers);
    ghost var compacted := file[..];
    EndInFront(first, ks, shoff, |ks|);
    WriteHeaders(file, offset, headers);
    ghost var written := file[..];
    SetElfHeader(file, |headers|, offset);
    length := offset + 40 * |headers|;
    StrippedOk(orig, compacted, written, file[..], first, ks, headers);
  }

  /** The fields of the ELF header that describe the section headers. */
  ghost predicate ElfHeaderSet(data: seq<byte>, data': seq<byte>, count: nat, shoff: nat) {
    && EHDR_SIZE <= |data| == |data'| && Half(data', SHNUM) == count && Word(data', SHOFF) == shoff
    && forall k {:trigger data'[k]} :: 0 <= k < |data| && !(SHOFF <= k < SHOFF + 4) && !(SHNUM <= k < SHNUM + 2) ==> data'[k] == data[k]
  }

  method SetElfHeader(file: array<byte>, count: nat, shoff: uint32)
    requires EHDR_SIZE <= file.Length && count < 0x1_0000
    modifies file
    ensures ElfHeaderSet(old(file[..]), file[..], count, shoff)
  {
    ghost var before := file[..];
    StoredStands(before, SHNUM, U16(count));
    Store(file, SHNUM, U16(count));
    ghost var counted := file[..];
    StoredStands(counted, SHOFF, U32(shoff));
    Store(file, SHOFF, U32(shoff));
    AtOutside(counted, file[..], SHOFF, 4, SHNUM, U16(count));
    FieldsRead(file[..], count, shoff);
  }

  lemma FieldsRead(data: seq<byte>, count: nat, shoff: uint32)
    requires EHDR_SIZE <= |data| && count < 0x1_0000 && At(data, SHNUM, U16(count)) && At(data, SHOFF, U32(shoff))
    ensures Half(data, SHNUM) == count && Word(data, SHOFF) == shoff
  {
    U32ReadsBack(shoff);
    assert data[SHNUM] == data[SHNUM..SHNUM + 2][0] && data[SHNUM + 1] == data[SHNUM..SHNUM + 2][1];
  }

  lemma SectionsStart(first: nat, ks: seq<Shdr>, shoff: nat)
    requires SectionsOk(first, ks, shoff)
    ensures EHDR_SIZE <= first <= shoff
  {
  }

  lemma NewHeadersSize(first: nat, ks: seq<Shdr>, headers: seq<Shdr>)
    requires |ks| > 0 && NewHeaders(first, ks, headers, |ks|)
    ensures |headers| == |ks|
  {
  }

  /** An encoded header reads back. */
  lemma HeaderReadsBack(data: seq<byte>, pos: nat, h: Shdr)
    requires At(data, pos, EncodeHeader(h))
    ensures pos + 40 <= |data| && DecodeHeader(data, pos) == h
  {
    hide U32, Word;
    var e := EncodeHeader(h);
    assert data[pos..pos + 40] == e;
    WordOf(data, pos, e, h.name, 0);
    WordOf(data, pos, e, h.kind, 4);
    WordOf(data, pos, e, h.flags, 8);
    WordOf(data, pos, e, h.addr, 12);
    WordOf(data, pos, e, h.offset, 16);
    WordOf(data, pos, e, h.size, 20);
    WordOf(data, pos, e, h.link, 24);
    WordOf(data, pos, e, h.info, 28);
    WordOf(data, pos, e, h.align, 32);
    WordOf(data, pos, e, h.entsize, 36);
  }

  lemma WordOf(data: seq<byte>, pos: nat, e: seq<byte>, x: uint32, f: nat)
    requires f + 4 <= |e| && pos + |e| <= |data| && data[pos..pos + |e|] == e && e[f..f + 4] == U32(x)
    ensures Word(data, pos + f) == x
  {
    U32ReadsBack(x);
    SubSlice(data, pos, pos + |e|, f, f + 4);
  }

  lemma SubSlice(data: seq<byte>, from: nat, to: nat, i: nat, j: nat)
    requires from <= to <= |data| && i <= j <= to - from
    ensures data[from..to][i..j] == data[from + i..from + j]
  {
    var s, t := data[from..to][i..j], data[from + i..from + j];
    forall k {:trigger s[k]} | 0 <= k < j - i ensures s[k] == t[k] {
      assert s[k] == data[from..to][i + k] == data[from + i + k];
    }
  }

  lemma HeadersRead(data: seq<byte>, first: nat, ks: seq<Shdr>, headers: seq<Shdr>)
    requires |ks| > 0 && End(first, ks, |ks|) + 40 * |ks| <= |data| && NewHeaders(first, ks, headers, |ks|)
    requires HeadersStand(data, End(first, ks, |ks|), headers, |ks|)
    ensures HeadersRecord(data, first, ks)
  {
    var end := End(first, ks, |ks|);
    hide End, Place, DecodeHeader, EncodeHeader, At, Relocated;
    forall k | 0 <= k < |ks| ensures HeaderAt(data, end, k) == if k == 0 then ks[0] else Relocated(first, ks, k) {
      assert At(data, end + 40 * k, EncodeHeader(headers[k]));
      HeaderReadsBack(data, end + 40 * k, headers[k]);
    }
  }

  lemma SectionsStay(orig: seq<byte>, compacted: seq<byte>, written: seq<byte>, data: seq<byte>, first: nat, ks: seq<Shdr>)
    requires |ks| > 0 && EHDR_SIZE <= first && Compacted(orig, compacted, first, ks, |ks|)
    requires Outside(compacted, written, End(first, ks, |ks|), 40 * |ks|) && Outside(written, data, SHOFF, SHNUM + 2 - SHOFF)
    ensures SectionsMoved(orig, data, first, ks)
  {
    hide Place, Moved;
    forall k | 0 < k < |ks| ensures Moved(orig, data, ks[k], Place(first, ks, k)) && Place(first, ks, k) + ks[k].size <= End(first, ks, |ks|) {
      PlacesEnd(first, ks, k, |ks|);
      MovedKept(orig, compacted, written, ks[k], Place(first, ks, k), End(first, ks, |ks|), 40 * |ks|);
      MovedKept(orig, written, data, ks[k], Place(first, ks, k), SHOFF, SHNUM + 2 - SHOFF);
    }
  }

  lemma FrontStays(orig: seq<byte>, compacted: seq<byte>, written: seq<byte>, data: seq<byte>, first: nat, ks: seq<Shdr>)
    requires |ks| > 0 && Compacted(orig, compacted, first, ks, |ks|) && Outside(compacted, written, End(first, ks, |ks|), 40 * |ks|)
    requires ElfHeaderSet(written, data, |ks|, End(first, ks, |ks|))
    ensures |data| == |orig| && FrontKept(orig, data, first) && Outside(written, data, SHOFF, SHNUM + 2 - SHOFF)
  {
    hide Place, Word, Half, Moved;
    forall k {:trigger data[k]} | 0 <= k < first && k < |data| && !(SHOFF <= k < SHOFF + 4) && !(SHNUM <= k < SHNUM + 2) ensures data[k] == orig[k] {
      assert data[k] == written[k] == compacted[k] == orig[k];
    }
  }

  /** The pieces together. */
  lemma StrippedOk(orig: seq<byte>, compacted: seq<byte>, written: seq<byte>, data: seq<byte>, first: nat, ks: seq<Shdr>, headers: seq<Shdr>)
    requires |ks| > 0 && EHDR_SIZE <= first && Compacted(orig, compacted, first, ks, |ks|) && NewHeaders(first, ks, headers, |ks|)
    requires var end := End(first, ks, |ks|);
             && end + 40 * |ks| <= |orig| && HeadersStand(written, end, headers, |ks|) && Outside(compacted, written, end, 40 * |ks|)
             && ElfHeaderSet(written, data, |ks|, end)
    requires NotLater(first, ks)
    ensures Stripped(orig, data, first, ks, End(first, ks, |ks|) + 40 * |ks|)
  {
    hide Word, Half, Compacted, NewHeaders, HeadersStand, Outside, HeadersRecord, SectionsMoved, FrontKept, Place, NotLater;
    FrontStays(orig, compacted, written, data, first, ks);
    HeadersKept(written, data, End(first, ks, |ks|), headers, |ks|, SHOFF, SHNUM + 2 - SHOFF);
    HeadersRead(data, first, ks, headers);
    SectionsStay(orig, compacted, written, data, first, ks);
  }
}
