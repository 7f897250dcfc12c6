/** What a finished image promises (compiler/image_writer.cc). */
module ImageResult {
  import opened Options
  import opened Bytes
  import opened Buffers
  import opened LockWord
  import opened ImageLayout
  import opened ImageCopy
  import opened ImageWriter

  /** Every object has an aligned offset within the image, and only strings with the same text share. */
  lemma OffsetsGood(w: Walk, world: World, a: Object, b: Object)
    requires HeapOk(world) && SlotsOk(w, world) && w.slots.Keys == world.heap && a in world.heap && b in world.heap && a.size > 0 && b.size > 0
    ensures w.Has(a) && w.Has(b)
    ensures w.OffsetOf(a) % 8 == 0 && IMAGE_HEADER_SIZE <= w.OffsetOf(a) && w.OffsetOf(a) + a.size < world.room
    ensures w.OffsetOf(a) == w.OffsetOf(b) <==> Same(a, b)
    ensures !Same(a, b) ==> Disjoint(w.OffsetOf(a), a.size, w.OffsetOf(b), b.size)
  {
    PlacedInBounds(w, world, a);
    PlacedInBounds(w, world, b);
    SlotsDisjoint(w.placed, w.slots, w.canon, world.heap, a, b);
  }

  /** The slot of `o` holds the copy of an object that shares it. */
  lemma SlotFilled(data: seq<byte>, w: Walk, world: World, words: map<Object, uint32>, begin: nat, bodies: map<Object, Body>, holders: map<nat, Object>, o: Object)
    returns (h: Object)
    requires Finished(data, w, world, words, begin, bodies, holders) && o in world.heap
    ensures h in world.heap && h in bodies && Same(h, o) && w.Has(o)
    ensures SlotHolds(data, w, begin, w.slots[o], bodies[h], RestoredWord(w.saved, |w.saved|, w.OffsetOf(o)))
  {
    hide SlotHolds, BodiesOk, SavedOk;
    var i := w.slots[o];
    h := holders[i];
    assert FilledSlot(data, w, begin, bodies, h, i, |w.saved|);
    SameSlot(w.placed, w.slots, w.canon, world.heap, h, o);
  }

  /** The last hash code restored to the slot at `p`, when all of them are the same. */
  lemma {:induction false} RestoredIs(saved: seq<(nat, uint32)>, n: nat, p: nat, word: uint32)
    requires n <= |saved| && (forall k {:trigger saved[k]} :: 0 <= k < n && saved[k].0 == p ==> saved[k].1 < TWO30 && FromHashCode(saved[k].1) == word)
    ensures RestoredWord(saved, n, p) == if exists k {:trigger saved[k]} :: 0 <= k < n && saved[k].0 == p then word else 0
    decreases n
  {
    if n > 0 {
      RestoredIs(saved, n - 1, p, word);
      assert saved[n - 1].0 == p ==> FromHashCode(saved[n - 1].1) == word;
    }
  }

  /** The lock word a copy of `o` alone ends up with: its own hash code, or nothing. */
  function KeptWord(word: uint32): uint32 {
    if GetState(word) == Hashed then word else 0
  }

  /** Entries for the slot of an object that is not a string are its own. */
  lemma OwnEntry(w: Walk, world: World, words: map<Object, uint32>, o: Object, k: nat)
    requires HeapOk(world) && SlotsOk(w, world) && SavedOk(w, words) && o in w.slots && o in world.heap && !o.isString && o.size > 0
    requires w.Has(o) && k < |w.saved| && w.saved[k].0 == w.OffsetOf(o)
    requires forall a {:trigger a in world.heap} :: a in world.heap ==> a.size > 0
    ensures o in words && GetState(words[o]) == Hashed && w.saved[k].1 == GetHashCode(words[o])
  {
    var a := w.savedBy[k];
    assert SavedFor(w.saved[k], a, w.placed, w.slots, words);
    assert a in world.heap;
    SlotsDisjoint(w.placed, w.slots, w.canon, world.heap, a, o);
  }

  /** An object that is not a string has its own hash code restored. */
  lemma OwnHashRestored(w: Walk, world: World, words: map<Object, uint32>, o: Object)
    requires HeapOk(world) && SlotsOk(w, world) && SavedOk(w, words) && o in w.slots && o in world.heap && !o.isString && w.Has(o)
    requires forall a {:trigger a in world.heap} :: a in world.heap ==> a.size > 0
    ensures o in words && RestoredWord(w.saved, |w.saved|, w.OffsetOf(o)) == KeptWord(words[o])
  {
    var p := w.OffsetOf(o);
    assert Recorded(w.savedBy, words, o);
    forall k | 0 <= k < |w.saved| && w.saved[k].0 == p ensures w.saved[k].1 < TWO30 && FromHashCode(w.saved[k].1) == words[o] {
      OwnEntry(w, world, words, o, k);
      HashWord(words[o]);
    }
    RestoredIs(w.saved, |w.saved|, p, words[o]);
    if o in w.savedBy {
      var k :| 0 <= k < |w.savedBy| && w.savedBy[k] == o;
      assert SavedFor(w.saved[k], o, w.placed, w.slots, words);
    } else if k :| 0 <= k < |w.saved| && w.saved[k].0 == p {
      OwnEntry(w, world, words, o, k);
    }
  }

  lemma SizesPositive(bodies: map<Object, Body>, world: World)
    requires BodiesOk(bodies, world.heap)
    ensures forall a {:trigger a in world.heap} :: a in world.heap ==> a in bodies && BodyOk(bodies[a], a.size, world.heap) && a.size > 0
  {
    forall a | a in world.heap ensures a in bodies && BodyOk(bodies[a], a.size, world.heap) && a.size > 0 {
      assert a in bodies.Keys;
      assert BodyOk(bodies[a], a.size, world.heap);
    }
  }

  /** The image copy of an object that is not a string: its own bytes, what was kept of its lock word, and
      every reference the image address of its target. */
  lemma ObjectCopied(data: seq<byte>, w: Walk, world: World, words: map<Object, uint32>, begin: nat, bodies: map<Object, Body>, holders: map<nat, Object>, o: Object)
    requires Finished(data, w, world, words, begin, bodies, holders) && o in world.heap && !o.isString
    ensures o in bodies && o in words && w.Has(o)
    ensures SlotHolds(data, w, begin, w.slots[o], bodies[o], KeptWord(words[o]))
  {
    hide SlotHolds;
    SizesPositive(bodies, world);
    var h := SlotFilled(data, w, world, words, begin, bodies, holders, o);
    OwnHashRestored(w, world, words, o);
  }

  /** The lock word kept of a placed object, in terms of its original one. */
  lemma KeptIdentity(w: Walk, world: World, original: map<Object, uint32>, words: map<Object, uint32>, o: Object)
    requires SavedOk(w, words) && DeflatedOk(world, original, words) && o in world.heap && o in w.slots
    ensures var m := MonitorFor(world.monitors, original[o]);
            m.Valid() && !Refused(original[o], m) && (KeptWord(words[o]) == IdentityWord(original[o], m) <==> !CountLooksLikeHash(original[o], m))
  {
    hide Deflated, SavedFor, Locked, CountLooksLikeHash;
    var m := MonitorFor(world.monitors, original[o]);
    assert Recorded(w.savedBy, words, o) && IsDeflated(words[o], original[o], m);
    AcceptedExactly(original[o], m);
    KeptExactly(original[o], m);
  }

  /** The image copy of an object that is not a string has its bytes and relocated references, and a lock
      word that says just what its identity hash code is, exactly unless the object was locked so deeply that
      its recursion depth was taken for a hash code. */
  lemma ObjectRelocated(data: seq<byte>, w: Walk, world: World, original: map<Object, uint32>, words: map<Object, uint32>, begin: nat, bodies: map<Object, Body>, holders: map<nat, Object>, o: Object)
    returns (word: uint32)
    requires Finished(data, w, world, words, begin, bodies, holders) && DeflatedOk(world, original, words) && o in world.heap && !o.isString
    ensures o in bodies && w.Has(o) && SlotHolds(data, w, begin, w.slots[o], bodies[o], word)
    ensures var m := MonitorFor(world.monitors, original[o]);
            m.Valid() && !Refused(original[o], m) && (word == IdentityWord(original[o], m) <==> !CountLooksLikeHash(original[o], m))
  {
    hide SlotHolds, SlotsOk, SavedOk, Filled, DeflatedOk, KeptWord;
    ObjectCopied(data, w, world, words, begin, bodies, holders, o);
    KeptIdentity(w, world, original, words, o);
    word := KeptWord(words[o]);
  }

  /** A relocated reference is the image address of its target, and null stays null. */
  lemma AddressExact(w: Walk, world: World, begin: nat, o: Object?)
    requires HeapOk(world) && SlotsOk(w, world) && w.slots.Keys == world.heap && begin + world.room <= TWO32 && (o == null || o in world.heap)
    ensures o == null ==> AddressOf(w, begin, o) == 0
    ensures o != null ==> w.Has(o) && AddressOf(w, begin, o) == begin + w.OffsetOf(o)
  {
    if o != null {
      PlacedInBounds(w, world, o);
    }
  }

  // ---------- Strings ----------

  const STRING_ARRAY := 8
  const STRING_COUNT := 12
  const STRING_OFFSET := 20
  const ARRAY_DATA := 12

  /** A string refers to its class and a char array; its text is a range of the array. */
  ghost predicate StringOk(s: Object, bodies: map<Object, Body>, heap: set<Object>) {
    && s in bodies && |bodies[s].contents| == STRING_SIZE && |bodies[s].refs| == 2
    && bodies[s].refs[0].offset == 0 && bodies[s].refs[1].offset == STRING_ARRAY
    && var a := bodies[s].refs[1].value;
       a != null && a in heap && ArrayOk(a, bodies) && TextIs(s.text, bodies[s].contents, bodies[a].contents)
  }

  ghost predicate ArrayOk(a: Object, bodies: map<Object, Body>) {
    !a.isString && a in bodies && |bodies[a].refs| == 1 && bodies[a].refs[0].offset == 0
  }

  ghost predicate TextIs(text: seq<byte>, str: seq<byte>, array_: seq<byte>)
    requires |str| == STRING_SIZE
  {
    var from := ARRAY_DATA + 2 * Word(str, STRING_OFFSET);
    var to := from + 2 * Word(str, STRING_COUNT);
    to <= |array_| && text == array_[from..to]
  }

  /** What a reader of the image finds as the text of the string at `pos`. */
  ghost predicate ReadsText(data: seq<byte>, begin: nat, pos: nat, text: seq<byte>) {
    && pos + STRING_SIZE <= |data| && begin <= Word(data, pos + STRING_ARRAY)
    && var from := Word(data, pos + STRING_ARRAY) - begin + ARRAY_DATA + 2 * Word(data, pos + STRING_OFFSET);
       var to := from + 2 * Word(data, pos + STRING_COUNT);
       to <= |data| && text == data[from..to]
  }

  /** Bytes of a copy behind its header that belong to no reference are the original's. */
  lemma CopiedPart(data: seq<byte>, pos: nat, contents: seq<byte>, offs: seq<nat>, addresses: seq<uint32>, word: uint32, from: nat, to: nat)
    requires Copied(data, pos, contents, offs, addresses, word) && 8 <= from <= to <= |contents|
    requires forall r {:trigger offs[r]} :: 0 <= r < |offs| ==> offs[r] + 4 <= from || to <= offs[r]
    ensures pos + to <= |data| && data[pos + from..pos + to] == contents[from..to]
  {
    forall k | from <= k < to ensures data[pos + k] == contents[k] {
      assert !InRef(offs, |offs|, k);
      assert contents[k] == contents[k];
    }
    SliceShifted(data, pos, contents, from, to);
  }

  lemma SliceShifted(data: seq<byte>, pos: nat, contents: seq<byte>, from: nat, to: nat)
    requires from <= to <= |contents| && pos + to <= |data|
    requires forall k {:trigger contents[k]} :: from <= k < to ==> data[pos + k] == contents[k]
    ensures data[pos + from..pos + to] == contents[from..to]
  {
  }

  /** A reference field of a copy. */
  lemma CopiedRef(data: seq<byte>, pos: nat, contents: seq<byte>, offs: seq<nat>, addresses: seq<uint32>, word: uint32, r: nat)
    requires Copied(data, pos, contents, offs, addresses, word) && r < |offs|
    ensures pos + offs[r] + 4 <= |data| && Word(data, pos + offs[r]) == addresses[r]
  {
    assert At(data, pos + offs[r], U32(addresses[r]));
    U32ReadsBack(addresses[r]);
  }

  /** The fields of a relocated string. */
  lemma StringFields(data: seq<byte>, w: Walk, begin: nat, i: nat, b: Body, word: uint32)
    requires i < |w.placed| && SlotHolds(data, w, begin, i, b, word)
    requires |b.contents| == STRING_SIZE && |b.refs| == 2 && b.refs[0].offset == 0 && b.refs[1].offset == STRING_ARRAY
    ensures var pos := Slot(w.placed, i);
            && pos + STRING_SIZE <= |data| && Word(data, pos + STRING_ARRAY) == AddressOf(w, begin, b.refs[1].value)
            && Word(data, pos + STRING_COUNT) == Word(b.contents, STRING_COUNT)
            && Word(data, pos + STRING_OFFSET) == Word(b.contents, STRING_OFFSET)
  {
    hide Slot, AddressOf, FromLittleEndian, CopiedUpTo;
    var pos, offs, addresses := Slot(w.placed, i), b.Offsets(), Addresses(w, begin, b.refs);
    assert offs == [0, STRING_ARRAY];
    CopiedRef(data, pos, b.contents, offs, addresses, word, 1);
    CopiedPart(data, pos, b.contents, offs, addresses, word, STRING_COUNT, STRING_COUNT + 4);
    CopiedPart(data, pos, b.contents, offs, addresses, word, STRING_OFFSET, STRING_OFFSET + 4);
  }

  /** Every string of the heap, interned or not, finds its text in the image. */
  lemma StringRelocated(data: seq<byte>, w: Walk, world: World, words: map<Object, uint32>, begin: nat, bodies: map<Object, Body>, holders: map<nat, Object>, s: Object)
    requires Finished(data, w, world, words, begin, bodies, holders) && s in world.heap && s.isString
    requires forall o {:trigger o.isString} :: o in world.heap && o.isString ==> StringOk(o, bodies, world.heap)
    ensures w.Has(s) && ReadsText(data, begin, w.OffsetOf(s), s.text)
  {
    hide SlotHolds, SlotsOk, SavedOk, BodiesOk, Filled, HeapOk, TextIs, Word, RestoredWord;
    var h := SlotFilled(data, w, world, words, begin, bodies, holders, s);
    assert StringOk(h, bodies, world.heap);
    var b := bodies[h];
    var a: Object := b.refs[1].value;
    StringFields(data, w, begin, w.slots[s], b, RestoredWord(w.saved, |w.saved|, w.OffsetOf(s)));
    ObjectCopied(data, w, world, words, begin, bodies, holders, a);
    AddressExact(w, world, begin, a);
    ArrayText(data, w, begin, w.slots[a], bodies[a], KeptWord(words[a]), b.contents, s.text);
  }

  /** The text in the copy of the array. */
  lemma ArrayText(data: seq<byte>, w: Walk, begin: nat, i: nat, b: Body, word: uint32, str: seq<byte>, text: seq<byte>)
    requires i < |w.placed| && SlotHolds(data, w, begin, i, b, word) && |b.refs| == 1 && b.refs[0].offset == 0
    requires |str| == STRING_SIZE && TextIs(text, str, b.contents)
    ensures var from := Slot(w.placed, i) + ARRAY_DATA + 2 * Word(str, STRING_OFFSET);
            var to := from + 2 * Word(str, STRING_COUNT);
            to <= |data| && text == data[from..to]
  {
    var from := ARRAY_DATA + 2 * Word(str, STRING_OFFSET);
    CopiedPart(data, Slot(w.placed, i), b.contents, b.Offsets(), Addresses(w, begin, b.refs), word, from, from + 2 * Word(str, STRING_COUNT));
  }
}
