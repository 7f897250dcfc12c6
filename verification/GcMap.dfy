/** GC maps: an open-addressing table from native offsets to reference bitmaps, packed into bytes.  The
    compiler builds it (compiler/gc_map_builder.h) and the runtime reads it (runtime/gc_map.h). */
module GcMap {
  import opened Options
  import opened Bytes
  import opened Buffers

  // ---------- Widths ----------

  function Pow2(n: nat): (r: nat)
    ensures r > 0
  {
    if n == 0 then 1 else 2 * Pow2(n - 1)
  }

  /** The leading zeros of a 32-bit word, given that the first `n` bits are zero. */
  function LeadingZeros(x: uint32, n: nat): (r: nat)
    requires n <= 31 && 0 < x < Pow2(32 - n)
    ensures n <= r <= 31 && Pow2(31 - r) <= x < Pow2(32 - r)
    decreases 31 - n
  {
    if n == 31 || x >= Pow2(31 - n) then n else LeadingZeros(x, n + 1)
  }

  lemma Pow2Of32()
    ensures Pow2(32) == TWO32
  {
    assert Pow2(8) == 0x100;
    assert Pow2(16) == 0x1_0000;
    assert Pow2(24) == 0x100_0000;
  }

  lemma {:induction false} Pow2Grows(a: nat, b: nat)
    requires a <= b
    ensures Pow2(a) <= Pow2(b)
    decreases b
  {
    if a < b {
      Pow2Grows(a, b - 1);
    }
  }

  lemma {:induction false} Power256IsPow2(n: nat)
    ensures Power256(n) == Pow2(8 * n)
  {
    if n > 0 {
      Power256IsPow2(n - 1);
      var m := 8 * n - 8;
      assert Pow2(m + 4) == 16 * Pow2(m) by {
        assert Pow2(m + 2) == 4 * Pow2(m);
      }
      assert Pow2(m + 8) == 16 * Pow2(m + 4) by {
        assert Pow2(m + 6) == 4 * Pow2(m + 4);
      }
    }
  }

  /** The bytes for a native offset, given the greatest. */
  function OffsetWidth(entries: nat, maxOffset: uint32): (w: nat)
    ensures w <= 4
  {
    Pow2Of32();
    if entries != 0 && maxOffset != 0 then 4 - LeadingZeros(maxOffset, 0) / 8 else 0
  }

  /** The width holds the greatest offset, and one byte less does not. */
  lemma WidthFits(entries: nat, maxOffset: uint32)
    requires entries > 0
    ensures var w := OffsetWidth(entries, maxOffset);
            w <= 4 && maxOffset < Power256(w) && (w > 0 ==> Power256(w - 1) <= maxOffset)
  {
    Pow2Of32();
    hide Pow2, Power256, LeadingZeros;
    if maxOffset != 0 {
      var z := LeadingZeros(maxOffset, 0);
      var w := 4 - z / 8;
      Power256IsPow2(w);
      Pow2Grows(32 - z, 8 * w);
      if w > 0 {
        Power256IsPow2(w - 1);
        Pow2Grows(8 * (w - 1), 31 - z);
      }
    }
  }

  // ---------- The header ----------

  function Header(width: nat, refs: nat, entries: nat): (r: seq<byte>)
    requires width < 8 && refs < 0x2000 && entries < 0x1_0000
    ensures |r| == 4
  {
    [width % 8 + 8 * refs % 256, refs / 32 % 256, entries % 256, entries / 256 % 256]
  }

  function NumEntries(data: seq<byte>): nat
    requires |data| >= 4
  {
    data[2] as int + 256 * data[3] as int
  }

  function RegWidth(data: seq<byte>): nat
    requires |data| >= 4
  {
    (data[0] as int + 256 * data[1] as int) / 8
  }

  function NativeOffsetWidth(data: seq<byte>): nat
    requires |data| >= 4
  {
    data[0] % 8
  }

  /** The packed header reads back. */
  lemma HeaderReadsBack(width: nat, refs: nat, entries: nat)
    requires width < 8 && refs < 0x2000 && entries < 0x1_0000
    ensures var h := Header(width, refs, entries); NativeOffsetWidth(h) == width && RegWidth(h) == refs && NumEntries(h) == entries
  {
    var high, low := refs / 32, refs % 32;
    assert refs == 32 * high + low && high < 256;
    LowBits(high, low);
    WidthAndRefs(width, low + 32 * high);
    WidthAndRefs(width, low);
  }

  lemma LowBits(high: nat, low: nat)
    requires low < 32
    ensures 8 * (32 * high + low) % 256 == 8 * low
  {
  }

  lemma WidthAndRefs(width: nat, refs: nat)
    requires width < 8
    ensures (width + 8 * refs) % 8 == width && (width + 8 * refs) / 8 == refs
  {
  }

  // ---------- Probing ----------

  /** The slot after `m` steps of linear probing from `home`. */
  function Probe(home: nat, m: nat, n: nat): (r: nat)
    requires home < n && m < n
    ensures r < n && (m == 0 ==> r == home)
  {
    if home + m < n then home + m else home + m - n
  }

  /** Probing reaches every slot. */
  function Distance(home: nat, slot: nat, n: nat): (m: nat)
    requires home < n && slot < n
    ensures m < n && Probe(home, m, n) == slot
  {
    if slot >= home then slot - home else slot - home + n
  }

  /** The slot probed behind `index`. */
  function NextIndex(index: nat, n: nat): (r: nat)
    requires n > 0
    ensures r < n
  {
    (index + 1) % n
  }

  lemma NextProbe(home: nat, m: nat, n: nat)
    requires home < n && m + 1 < n
    ensures NextIndex(Probe(home, m, n), n) == Probe(home, m + 1, n)
  {
    var i := Probe(home, m, n) + 1;
    if i == n {
      assert n % n == 0;
    }
  }

  datatype Entry = Entry(offset: uint32, references: seq<byte>)

  /** Where entries are: entry `k` is in slot `where[k]`, and probing for it passes only slots of entries
      added before it. */
  ghost predicate ProbedOk(hash: uint32 -> uint32, n: nat, added: seq<Entry>, where: seq<nat>) {
    && n > 0 && |where| == |added|
    && (forall k {:trigger where[k]} :: 0 <= k < |added| ==> where[k] < n && PathTaken(hash, n, added, where, k))
    && (forall j, k {:trigger where[j], where[k]} :: 0 <= j < k < |added| ==> where[j] != where[k])
  }

  function Home(hash: uint32 -> uint32, n: nat, offset: uint32): (r: nat)
    requires n > 0
    ensures r < n
  {
    hash(offset) % n
  }

  ghost predicate PathTaken(hash: uint32 -> uint32, n: nat, added: seq<Entry>, where: seq<nat>, k: nat)
    requires n > 0 && |where| == |added| && k < |added| && where[k] < n
  {
    var home := Home(hash, n, added[k].offset);
    forall m {:trigger Probe(home, m, n)} :: 0 <= m < Distance(home, where[k], n) ==> Probe(home, m, n) in where[..k]
  }

  /** The first entry added for an offset. */
  function FirstFor(added: seq<Entry>, offset: uint32): (k: nat)
    requires exists e {:trigger e in added} :: e in added && e.offset == offset
    ensures k < |added| && added[k].offset == offset
    ensures forall j {:trigger added[j]} :: 0 <= j < k ==> added[j].offset != offset
  {
    if added[0].offset == offset then 0
    else
      assert forall e :: e in added ==> e == added[0] || e in added[1..];
      1 + FirstFor(added[1..], offset)
  }

  /** Adding an entry in the first free slot on its path. */
  lemma ProbedStep(hash: uint32 -> uint32, n: nat, added: seq<Entry>, where: seq<nat>, e: Entry, m: nat)
    requires ProbedOk(hash, n, added, where) && m < n
    requires var home := Home(hash, n, e.offset);
             Probe(home, m, n) !in where && forall j {:trigger Probe(home, j, n)} :: 0 <= j < m ==> Probe(home, j, n) in where
    ensures ProbedOk(hash, n, added + [e], where + [Probe(Home(hash, n, e.offset), m, n)])
  {
    var slot := Probe(Home(hash, n, e.offset), m, n);
    var added', where' := added + [e], where + [slot];
    forall k | 0 <= k < |added'| ensures where'[k] < n && PathTaken(hash, n, added', where', k) {
      if k < |added| {
        assert where'[k] == where[k] && PathTaken(hash, n, added, where, k);
        assert where'[..k] == where[..k];
      } else {
        assert where'[..k] == where;
        assert Distance(Home(hash, n, e.offset), slot, n) == m;
      }
    }
  }

  // ---------- The bytes of entries ----------

  /** Where entry `i` begins. */
  function EntryAt(i: nat, width: nat): nat {
    if i == 0 then 4 else EntryAt(i - 1, width) + width
  }

  lemma {:induction false} EntryAtIs(i: nat, width: nat)
    ensures EntryAt(i, width) == 4 + i * width
  {
    if i > 0 {
      EntryAtIs(i - 1, width);
      assert i * width == (i - 1) * width + width;
    }
  }

  method TableOffset(i: nat, width: nat) returns (r: nat)
    ensures r == EntryAt(i, width)
  {
    EntryAtIs(i, width);
    NonNegative(i, width);
    r := i * width + 4;
  }

  lemma {:induction false} EntriesApart(i: nat, j: nat, width: nat)
    requires i < j
    ensures EntryAt(i, width) + width <= EntryAt(j, width)
    decreases j
  {
    if i < j - 1 {
      EntriesApart(i, j - 1, width);
    }
  }

  function Encode(e: Entry, width: nat): (r: seq<byte>)
    ensures |r| == width + |e.references|
  {
    LittleEndian(e.offset, width) + e.references
  }

  /** Every entry stands in its slot, whole. */
  ghost predicate EntriesStand(data: seq<byte>, n: nat, width: nat, refs: nat, added: seq<Entry>, where: seq<nat>) {
    && |where| == |added| && |data| == EntryAt(n, width + refs)
    && forall k {:trigger where[k]} :: 0 <= k < |added| ==> where[k] < n && EntryStands(data, width, refs, added[k], where[k])
  }

  ghost predicate EntryStands(data: seq<byte>, width: nat, refs: nat, e: Entry, slot: nat) {
    |e.references| == refs && e.offset < Power256(width) && At(data, EntryAt(slot, width + refs), Encode(e, width))
  }

  /** Writing one slot leaves the entries in others alone. */
  lemma EntriesStep(data: seq<byte>, data': seq<byte>, n: nat, width: nat, refs: nat, added: seq<Entry>, where: seq<nat>, e: Entry, slot: nat)
    requires EntriesStand(data, n, width, refs, added, where) && slot < n && slot !in where && EntryStands(data', width, refs, e, slot)
    requires Outside(data, data', EntryAt(slot, width + refs), width + refs)
    ensures EntriesStand(data', n, width, refs, added + [e], where + [slot])
  {
    hide Power256, LittleEndian, EntryAt, At;
    forall k | 0 <= k < |added| ensures EntryStands(data', width, refs, added[k], where[k]) {
      assert EntryStands(data, width, refs, added[k], where[k]);
      assert where[k] in where;
      if where[k] < slot {
        EntriesApart(where[k], slot, width + refs);
      } else {
        EntriesApart(slot, where[k], width + refs);
      }
      AtOutside(data, data', EntryAt(slot, width + refs), width + refs, EntryAt(where[k], width + refs), Encode(added[k], width));
    }
  }

  lemma {:induction false} EntriesFrom(i: nat, width: nat)
    ensures EntryAt(i, width) >= 4
  {
    if i > 0 {
      EntriesFrom(i - 1, width);
    }
  }

  /** The bytes of an offset, least significant first. */
  method StoreOffset(table: array<byte>, pos: nat, offset: uint32, width: nat)
    requires pos + width <= table.Length
    modifies table
    ensures table[..] == Stored(old(table[..]), pos, LittleEndian(offset, width))
  {
    var rest: nat := offset;
    ghost var bytes := LittleEndian(offset, width);
    for i := 0 to width
      invariant bytes[i..] == LittleEndian(rest, width - i)
      invariant forall k :: 0 <= k < table.Length ==> table[k] == if pos <= k < pos + i then bytes[k - pos] else old(table[k])
    {
      assert bytes[i] == bytes[i..][0] == rest % 256;
      assert bytes[i + 1..] == bytes[i..][1..];
      table[pos + i] := rest % 256;
      rest := rest / 256;
    }
  }

  lemma {:induction false} MoreSignificant(low: seq<byte>, b: byte)
    ensures FromLittleEndian(low + [b]) == FromLittleEndian(low) + Power256(|low|) * b as int
  {
    if low == [] {
      assert [] + [b] == [b];
    } else {
      assert (low + [b])[1..] == low[1..] + [b];
      MoreSignificant(low[1..], b);
      assert 256 * (Power256(|low| - 1) * b as int) == Power256(|low|) * b as int;
    }
  }

  const TWO31 := 0x8000_0000
  const TWO64 := 0x1_0000_0000_0000_0000

  /** What a shifted byte contributes: it is an `int`, so that in a 64-bit word the sign of the fourth byte
      fills the upper half. */
  function Shifted(b: byte, i: nat, wide: bool): nat {
    NonNegative(Power256(i), b as int);
    Power256(i) * b as int + if wide && i == 3 && b >= 0x80 then TWO64 - TWO32 else 0
  }

  /** The word read from bytes that hold `x`. */
  function ReadBack(x: nat, wide: bool): nat {
    if wide && x >= TWO31 then x + TWO64 - TWO32 else x
  }

  /** The offsets that a word can be equal to. */
  predicate Seen(offset: uint32, wide: bool) {
    !wide || offset < TWO31
  }

  lemma {:induction false} LittleEndianBelow(b: seq<byte>)
    ensures FromLittleEndian(b) < Power256(|b|)
  {
    if b != [] {
      LittleEndianBelow(b[1..]);
    }
  }

  /** Up to four bytes: the word read is an offset exactly if the bytes hold it and it is not lost to the
      sign. */
  lemma ReadExactly(bytes: seq<byte>, offset: uint32, wide: bool)
    requires |bytes| <= 4
    ensures ReadBack(FromLittleEndian(bytes), wide) == offset <==> FromLittleEndian(bytes) == offset && Seen(offset, wide)
  {
    LittleEndianBelow(bytes);
    PowerGrows(|bytes|);
  }

  lemma PowerGrows(n: nat)
    requires n <= 4
    ensures Power256(n) <= TWO32
  {
    Power256IsPow2(n);
    Pow2Grows(8 * n, 32);
    Pow2Of32();
  }

  /** The sign is the highest bit of the fourth byte. */
  lemma NextByte(low: seq<byte>, b: byte, wide: bool)
    requires |low| <= 3
    ensures ReadBack(FromLittleEndian(low + [b]), wide) == FromLittleEndian(low) + Shifted(b, |low|, wide)
    ensures ReadBack(FromLittleEndian(low), wide) == FromLittleEndian(low)
  {
    MoreSignificant(low, b);
    LittleEndianBelow(low);
    LittleEndianBelow(low + [b]);
    assert Power256(1) == 0x100 && Power256(2) == 0x1_0000;
    assert Power256(3) == 0x100_0000;
  }

  /** Reads an offset back, into a word of 64 bits if `wide` and 32 otherwise. */
  method LoadOffset(data: seq<byte>, pos: nat, width: nat, wide: bool) returns (offset: nat)
    requires pos + width <= |data| && width <= 4
    ensures offset == ReadBack(FromLittleEndian(data[pos..pos + width]), wide)
  {
    offset := 0;
    for i := 0 to width
      invariant offset == ReadBack(FromLittleEndian(data[pos..pos + i]), wide)
    {
      assert data[pos..pos + i + 1] == data[pos..pos + i] + [data[pos + i]];
      NextByte(data[pos..pos + i], data[pos + i], wide);
      offset := offset + Shifted(data[pos + i], i, wide);
    }
  }

  lemma {:induction false} Pigeonhole(where: seq<nat>, n: nat)
    requires forall i :: 0 <= i < n ==> i in where
    ensures n <= |where|
    decreases n
  {
    if n > 0 {
      assert n - 1 in where;
      var p :| 0 <= p < |where| && where[p] == n - 1;
      var rest := where[..p] + where[p + 1..];
      forall i | 0 <= i < n - 1 ensures i in rest {
        assert i in where;
        var q :| 0 <= q < |where| && where[q] == i;
        assert rest[if q < p then q else q - 1] == i;
      }
      Pigeonhole(rest, n - 1);
    }
  }

  /** A table under construction. */
  ghost predicate TableOk(data: seq<byte>, hash: uint32 -> uint32, n: nat, width: nat, refs: nat, maxOffset: uint32, added: seq<Entry>, where: seq<nat>) {
    && n < 0x1_0000 && refs < 0x2000 && width <= 4
    && |data| == EntryAt(n, width + refs) >= 4 && At(data, 0, Header(width, refs, n))
    && EntriesStand(data, n, width, refs, added, where)
    && (n > 0 ==> maxOffset < Power256(width) && ProbedOk(hash, n, added, where))
  }

  ghost predicate FlagsOk(inUse: seq<bool>, n: nat, where: seq<nat>) {
    |inUse| == n && forall i {:trigger inUse[i]} :: 0 <= i < n ==> inUse[i] == (i in where)
  }

  lemma EmptyTable(data: seq<byte>, hash: uint32 -> uint32, n: nat, width: nat, refs: nat, maxOffset: uint32)
    requires n < 0x1_0000 && refs < 0x2000 && width == OffsetWidth(n, maxOffset)
    requires |data| == EntryAt(n, width + refs) && At(data, 0, Header(width, refs, n))
    ensures TableOk(data, hash, n, width, refs, maxOffset, [], [])
  {
    EntriesFrom(n, width + refs);
    if n > 0 {
      WidthFits(n, maxOffset);
    }
  }

  // ---------- The builder ----------

  class GcMapBuilder {
    const hash: uint32 -> uint32
    const entries: nat
    const referencesWidth: nat
    const nativeOffsetWidth: nat
    const table: array<byte>
    const inUse: array<bool>
    ghost const maxOffset: uint32
    ghost var added: seq<Entry>
    ghost var where: seq<nat>

    ghost predicate Valid()
      reads this, table, inUse
    {
      && TableOk(table[..], hash, entries, nativeOffsetWidth, referencesWidth, maxOffset, added, where)
      && FlagsOk(inUse[..], entries, where)
    }

    constructor (hash: uint32 -> uint32, entries: nat, maxNativeOffset: uint32, referencesWidth: nat)
      requires entries < 0x1_0000 && (entries > 0 ==> referencesWidth < 0x2000)
      ensures Valid() && added == [] && this.entries == entries && this.hash == hash && maxOffset == maxNativeOffset
      ensures this.referencesWidth == (if entries > 0 then referencesWidth else 0) && fresh(table) && fresh(inUse)
    {
      hide OffsetWidth, Header, EntryAt, At, TableOk;
      this.hash, this.entries, maxOffset := hash, entries, maxNativeOffset;
      var refs := if entries > 0 then referencesWidth else 0;
      var width := OffsetWidth(entries, maxNativeOffset);
      var size := TableOffset(entries, width + refs);
      EntriesFrom(entries, width + refs);
      var flags := NewFlags(entries);
      var bytes := NewTable(size, Header(width, refs, entries));
      EmptyTable(bytes[..], hash, entries, width, refs, maxNativeOffset);
      this.referencesWidth, nativeOffsetWidth := refs, width;
      inUse, table, added, where := flags, bytes, [], [];
    }

    static method NewFlags(n: nat) returns (flags: array<bool>)
      ensures fresh(flags) && flags.Length == n && forall i {:trigger flags[i]} :: 0 <= i < n ==> !flags[i]
    {
      flags := new bool[n](_ => false);
    }

    /** A table of zeros behind its header. */
    static method NewTable(n: nat, header: seq<byte>) returns (table: array<byte>)
      requires |header| <= n
      ensures fresh(table) && table.Length == n && At(table[..], 0, header)
    {
      table := new byte[n](_ => 0);
      StoredStands(table[..], 0, header);
      Store(table, 0, header);
    }

    /** There is a free slot, as long as fewer entries were added than announced. */
    lemma HasRoomWhile()
      requires Valid() && |added| < entries
      ensures HasRoom()
    {
      if i :| 0 <= i < entries && i !in where {
        assert inUse[..][i] == inUse[i];
      } else {
        Pigeonhole(where, entries);
      }
    }

    ghost predicate HasRoom()
      reads this, inUse
    {
      exists i {:trigger inUse[i]} :: 0 <= i < inUse.Length && !inUse[i]
    }

    /** The probe: it stops at the first free slot on the path. */
    method FindFree(nativeOffset: uint32) returns (tableIndex: nat, ghost m: nat)
      requires Valid() && entries > 0 && HasRoom()
      ensures m < entries && tableIndex == Probe(Home(hash, entries, nativeOffset), m, entries) && !inUse[tableIndex]
      ensures forall j {:trigger Probe(Home(hash, entries, nativeOffset), j, entries)} :: 0 <= j < m ==> inUse[Probe(Home(hash, entries, nativeOffset), j, entries)]
    {
      ghost var home := Home(hash, entries, nativeOffset);
      ghost var free :| 0 <= free < entries && !inUse[free];
      tableIndex := hash(nativeOffset) % entries;
      m := 0;
      while inUse[tableIndex]
        invariant m < entries && tableIndex == Probe(home, m, entries) && m <= Distance(home, free, entries)
        invariant forall j {:trigger Probe(home, j, entries)} :: 0 <= j < m ==> inUse[Probe(home, j, entries)]
        decreases Distance(home, free, entries) - m
      {
        NextProbe(home, m, entries);
        tableIndex := (tableIndex + 1) % entries;
        m := m + 1;
      }
    }

    /** `AddEntry`: a new entry, in a slot that was free. */
    method AddEntry(nativeOffset: uint32, references: seq<byte>)
      requires Valid() && |added| < entries && nativeOffset <= maxOffset && |references| == referencesWidth
      modifies this, table, inUse
      ensures Valid() && added == old(added) + [Entry(nativeOffset, references)]
    {
      ghost var e := Entry(nativeOffset, references);
      HasRoomWhile();
      var tableIndex, m := FindFree(nativeOffset);
      WriteEntry(tableIndex, nativeOffset, references);
      EntriesStep(old(table[..]), table[..], entries, nativeOffsetWidth, referencesWidth, added, where, e, tableIndex);
      ProbedStep(hash, entries, added, where, e, m);
      inUse[tableIndex] := true;
      added, where := added + [e], where + [tableIndex];
    }

    /** At any time the reader can look up what was added so far. */
    lemma Readable()
      requires Valid() && entries > 0
      ensures IsMap(table[..], hash, entries, nativeOffsetWidth, referencesWidth, added, where)
    {
    }

    /** `SetCodeOffset` and `SetReferences`. */
    method WriteEntry(tableIndex: nat, nativeOffset: uint32, references: seq<byte>)
      requires Valid() && tableIndex < entries && nativeOffset <= maxOffset && |references| == referencesWidth
      modifies table
      ensures EntryStands(table[..], nativeOffsetWidth, referencesWidth, Entry(nativeOffset, references), tableIndex)
      ensures Outside(old(table[..]), table[..], EntryAt(tableIndex, nativeOffsetWidth + referencesWidth), nativeOffsetWidth + referencesWidth)
      ensures At(table[..], 0, Header(nativeOffsetWidth, referencesWidth, entries))
    {
      hide ProbedOk, Header, LittleEndian, EntriesStand, Stored, FlagsOk, EntryAt, At, Power256;
      ghost var before := table[..];
      var width := nativeOffsetWidth + referencesWidth;
      EntriesApart(tableIndex, entries, width);
      EntriesFrom(tableIndex, width);
      var tableOffset := TableOffset(tableIndex, width);
      ghost var code := LittleEndian(nativeOffset, nativeOffsetWidth);
      StoreOffset(table, tableOffset, nativeOffset, nativeOffsetWidth);
      ghost var between := table[..];
      Store(table, tableOffset + nativeOffsetWidth, references);
      StoredStands(before, tableOffset, code);
      StoredStands(between, tableOffset + nativeOffsetWidth, references);
      AtOutside(between, table[..], tableOffset + nativeOffsetWidth, referencesWidth, tableOffset, code);
      AtJoin(table[..], tableOffset, code, references);
      AtOutside(before, table[..], tableOffset, width, 0, Header(nativeOffsetWidth, referencesWidth, entries));
    }
  }

  // ---------- The reader ----------

  /** `data` is a finished map of the entries added. */
  ghost predicate IsMap(data: seq<byte>, hash: uint32 -> uint32, n: nat, width: nat, refs: nat, added: seq<Entry>, where: seq<nat>) {
    && width <= 4 && refs < 0x2000 && n < 0x1_0000 && At(data, 0, Header(width, refs, n))
    && EntriesStand(data, n, width, refs, added, where) && ProbedOk(hash, n, added, where)
  }

  /** The reader sees the widths and the count that the builder chose. */
  lemma HeaderRead(data: seq<byte>, width: nat, refs: nat, n: nat)
    requires width <= 4 && refs < 0x2000 && n < 0x1_0000 && At(data, 0, Header(width, refs, n))
    ensures |data| >= 4 && NativeOffsetWidth(data) == width && RegWidth(data) == refs && NumEntries(data) == n
  {
    HeaderReadsBack(width, refs, n);
    var h := Header(width, refs, n);
    assert data[0..4] == h;
    assert data[0] == h[0] && data[1] == h[1] && data[2] == h[2] && data[3] == h[3];
  }

  /** What the reader decodes from a slot in use. */
  lemma EntryRead(data: seq<byte>, width: nat, refs: nat, e: Entry, slot: nat)
    requires EntryStands(data, width, refs, e, slot) && EntryAt(slot, width + refs) + width + refs <= |data|
    ensures var pos := EntryAt(slot, width + refs);
            FromLittleEndian(data[pos..pos + width]) == e.offset && data[pos + width..pos + width + refs] == e.references
  {
    var pos, code := EntryAt(slot, width + refs), LittleEndian(e.offset, width);
    assert code + e.references == [] + code + e.references == code + e.references + [];
    AtPart(data, pos, [], code, e.references);
    AtPart(data, pos, code, e.references, []);
    LittleEndianReadsBack(e.offset, width);
    if width == 0 {
      assert data[pos..pos + width] == code;
    }
  }

  /** `FindBitMap`: linear probing from the hash slot finds the bitmap that was added first for the offset,
      exactly unless a 64-bit reader looks for an offset from 2^31 up. */
  method FindBitMap(data: seq<byte>, hash: uint32 -> uint32, offset: uint32, wide: bool, ghost n: nat, ghost width: nat, ghost refs: nat, ghost added: seq<Entry>, ghost where: seq<nat>)
    returns (ok: bool, bitmap: seq<byte>)
    requires IsMap(data, hash, n, width, refs, added, where)
    requires exists e {:trigger e in added} :: e in added && e.offset == offset
    ensures ok <==> Seen(offset, wide)
    ensures ok ==> bitmap == added[FirstFor(added, offset)].references
  {
    HeaderRead(data, width, refs, n);
    ghost var k := FirstFor(added, offset);
    MapFacts(data, hash, n, width, refs, added, where, k);
    var index;
    ok, index := FindSlot(data, hash, NumEntries(data), NativeOffsetWidth(data), NativeOffsetWidth(data) + RegWidth(data), offset, wide, n, width, refs, added, where);
    bitmap := [];
    if ok {
      bitmap := GetBitMap(data, index, NativeOffsetWidth(data), NativeOffsetWidth(data) + RegWidth(data), n, width, refs, added[k]);
    }
  }

  /** The probe: it reads slot after slot until it finds the offset.  It gives up where as many slots
      missed as there are; a release build would go round for ever. */
  method FindSlot(data: seq<byte>, hash: uint32 -> uint32, numEntries: nat, offsetWidth: nat, entryWidth: nat, offset: uint32, wide: bool,
                  ghost n: nat, ghost width: nat, ghost refs: nat, ghost added: seq<Entry>, ghost where: seq<nat>)
    returns (ok: bool, index: nat)
    requires IsMap(data, hash, n, width, refs, added, where) && numEntries == n && offsetWidth == width && entryWidth == width + refs
    requires exists e {:trigger e in added} :: e in added && e.offset == offset
    ensures ok <==> Seen(offset, wide)
    ensures ok ==> |where| == |added| && index == where[FirstFor(added, offset)]
  {
    ghost var k := FirstFor(added, offset);
    MapFacts(data, hash, n, width, refs, added, where, k);
    ghost var home := Home(hash, n, offset);
    ghost var d := Distance(home, where[k], n);
    hide IsMap, Probe, Distance, Home, NextIndex, Seen;
    index := Home(hash, numEntries, offset);
    var misses := 0;
    var found := ReadSlot(data, hash, index, offsetWidth, entryWidth, wide, n, width, refs, added, where, k, misses);
    while found != offset
      invariant misses < n && index == Probe(home, misses, n) && (misses <= d || !Seen(offset, wide))
      invariant found == offset <==> misses == d && Seen(offset, wide)
      decreases n - misses
    {
      if misses + 1 == numEntries {
        return false, NextIndex(index, numEntries);
      }
      NextProbe(home, misses, n);
      index := NextIndex(index, numEntries);
      misses := misses + 1;
      found := ReadSlot(data, hash, index, offsetWidth, entryWidth, wide, n, width, refs, added, where, k, misses);
    }
    ok := true;
  }

  /** `GetBitMap` of a slot that holds `e`. */
  method GetBitMap(data: seq<byte>, index: nat, offsetWidth: nat, entryWidth: nat, ghost n: nat, ghost width: nat, ghost refs: nat, ghost e: Entry) returns (bitmap: seq<byte>)
    requires offsetWidth == width && entryWidth == width + refs && index < n && |data| == EntryAt(n, width + refs) && EntryStands(data, width, refs, e, index)
    ensures bitmap == e.references
  {
    SlotInside(data, index, width, refs, n);
    EntryRead(data, width, refs, e, index);
    var entry := TableOffset(index, entryWidth);
    bitmap := data[entry + offsetWidth..entry + entryWidth];
  }

  lemma MapFacts(data: seq<byte>, hash: uint32 -> uint32, n: nat, width: nat, refs: nat, added: seq<Entry>, where: seq<nat>, k: nat)
    requires IsMap(data, hash, n, width, refs, added, where) && k < |added|
    ensures |where| == |added| && 0 < n < 0x1_0000 && width <= 4 && where[k] < n && |data| == EntryAt(n, width + refs) && EntryStands(data, width, refs, added[k], where[k])
  {
  }

  /** `GetNativePcOffset` for the slot `m` steps along the path of entry `k`, the first for its offset: an
      offset that is lost to the sign is in no slot. */
  method ReadSlot(data: seq<byte>, ghost hash: uint32 -> uint32, index: nat, offsetWidth: nat, entryWidth: nat, wide: bool,
                  ghost n: nat, ghost width: nat, ghost refs: nat, ghost added: seq<Entry>, ghost where: seq<nat>, ghost k: nat, ghost m: nat)
    returns (found: nat)
    requires IsMap(data, hash, n, width, refs, added, where) && offsetWidth == width && entryWidth == width + refs
    requires k < |added| && forall j {:trigger added[j]} :: 0 <= j < k ==> added[j].offset != added[k].offset
    requires m < n && index == Probe(Home(hash, n, added[k].offset), m, n)
    requires m <= Distance(Home(hash, n, added[k].offset), where[k], n) || !Seen(added[k].offset, wide)
    ensures found == added[k].offset <==> m == Distance(Home(hash, n, added[k].offset), where[k], n) && Seen(added[k].offset, wide)
  {
    hide IsMap, EntryAt, Distance, Probe, FromLittleEndian, EntryStands, Home, ReadBack, Seen;
    MapFacts(data, hash, n, width, refs, added, where, k);
    SlotInside(data, index, width, refs, n);
    var entry := TableOffset(index, entryWidth);
    found := LoadOffset(data, entry, offsetWidth, wide);
    ReadExactly(data[entry..entry + offsetWidth], added[k].offset, wide);
    if m <= Distance(Home(hash, n, added[k].offset), where[k], n) {
      ghost var j := SlotEntry(data, hash, n, width, refs, added, where, k, m);
      EntryRead(data, width, refs, added[j], index);
    }
  }

  /** Whose entry that slot holds. */
  lemma SlotEntry(data: seq<byte>, hash: uint32 -> uint32, n: nat, width: nat, refs: nat, added: seq<Entry>, where: seq<nat>, k: nat, m: nat) returns (j: nat)
    requires IsMap(data, hash, n, width, refs, added, where) && k < |added| && m <= Distance(Home(hash, n, added[k].offset), where[k], n)
    ensures j <= k && (j == k <==> m == Distance(Home(hash, n, added[k].offset), where[k], n))
    ensures EntryStands(data, width, refs, added[j], Probe(Home(hash, n, added[k].offset), m, n))
  {
    var home := Home(hash, n, added[k].offset);
    j := k;
    if m < Distance(home, where[k], n) {
      assert PathTaken(hash, n, added, where, k);
      assert Probe(home, m, n) in where[..k];
      j :| 0 <= j < k && where[j] == Probe(home, m, n);
    }
    assert EntryStands(data, width, refs, added[j], where[j]);
  }

  /** A map whose one entry a 64-bit reader does not find. */
  lemma HighOffsetLost(hash: uint32 -> uint32) returns (data: seq<byte>)
    ensures IsMap(data, hash, 1, 4, 0, [Entry(TWO31, [])], [0]) && !Seen(TWO31, true)
  {
    var e := Entry(TWO31, []);
    var header, code := Header(4, 0, 1), LittleEndian(TWO31, 4);
    data := header + code;
    assert EntryAt(1, 4) == 8 && EntryAt(0, 4) == 4;
    assert data[0..4] == header && data[4..8] == code;
    assert Encode(e, 4) == code;
    assert Power256(3) == 0x100_0000;
    assert EntryStands(data, 4, 0, e, 0);
    assert PathTaken(hash, 1, [e], [0], 0);
  }

  lemma SlotInside(data: seq<byte>, i: nat, width: nat, refs: nat, n: nat)
    requires i < n && |data| == EntryAt(n, width + refs)
    ensures EntryAt(i, width + refs) + width + refs <= |data|
  {
    EntriesApart(i, n, width + refs);
  }
}
