/** The image writer (compiler/image_writer.cc): the walk that gives every heap object an offset in the
    image, kept in its lock word, and the pass that copies the objects and relocates their references. */
module ImageWriter {
  import opened Options
  import opened Bytes
  import opened Buffers
  import opened LockWord
  import opened ImageLayout
  import opened ImageCopy

  /** The objects among `placed`. */
  ghost function Elements(placed: seq<Object>): set<Object> {
    set o | o in placed
  }

  /** The starts of the first `n` slots. */
  ghost function Starts(placed: seq<Object>, n: nat): set<nat>
    requires n <= |placed|
  {
    if n == 0 then {} else Starts(placed, n - 1) + {Slot(placed, n - 1)}
  }

  lemma {:induction false} StartsKept(placed: seq<Object>, o: Object, n: nat)
    requires n <= |placed|
    ensures Starts(placed + [o], n) == Starts(placed, n)
    decreases n
  {
    if n > 0 {
      StartsKept(placed, o, n - 1);
      SlotKept(placed, o, n - 1);
    }
  }

  lemma {:induction false} StartIn(placed: seq<Object>, n: nat, i: nat)
    requires i < n <= |placed|
    ensures Slot(placed, i) in Starts(placed, n)
    decreases n
  {
    if i < n - 1 {
      StartIn(placed, n - 1, i);
    }
  }

  // ---------- The state of the walk ----------

  /** What the walk has done so far.  `canon` gives for an interned text the string that stands for it,
      `placed` are the objects that own slots, `slots` gives the slot of every object that has an
      offset, and `saved` are hash codes set aside, each by the object in `savedBy`. */
  datatype Walk = Walk(canon: map<seq<byte>, Object>, placed: seq<Object>, slots: map<Object, nat>, imageEnd: nat, bitmap: set<nat>,
                       saved: seq<(nat, uint32)>, savedBy: seq<Object>)
  {
    ghost predicate Has(o: Object) { o in slots && slots[o] < |placed| }

    ghost function OffsetOf(o: Object): nat
      requires Has(o)
    {
      Slot(placed, slots[o])
    }
  }

  /** The heap in visiting order, the room for the image, and the monitors. */
  datatype World = World(objects: seq<Object>, heap: set<Object>, room: nat, monitors: map<nat, Monitor>)

  ghost predicate HeapOk(world: World) {
    match world case World(objects, heap, room, _) =>
      && heap == Elements(objects) && StringsSized(heap)
      && (forall i, j :: 0 <= i < j < |objects| ==> objects[i] != objects[j])
      && IMAGE_HEADER_SIZE + Space(objects, heap) < room < TWO32
  }

  /** The placed objects own slots from the header to the end of the image, everything with an offset
      has one of these, and the bitmap marks them. */
  ghost predicate SlotsOk(w: Walk, world: World) {
    match w case Walk(canon, placed, slots, imageEnd, bitmap, _, _) =>
      && Layout(placed, slots, canon) && CanonOk(canon, world.heap) && slots.Keys <= world.heap
      && imageEnd == Slot(placed, |placed|) == IMAGE_HEADER_SIZE + Space(world.objects, Elements(placed))
      && bitmap == Starts(placed, |placed|)
  }

  /** Entry `k` of the hash codes set aside is the hash code in the lock word of object `savedBy[k]`,
      for the slot of that object; and no hash code is missing. */
  ghost predicate SavedOk(w: Walk, words: map<Object, uint32>) {
    match w case Walk(_, placed, slots, _, _, saved, savedBy) =>
      && |savedBy| == |saved|
      && (forall k {:trigger savedBy[k]} :: 0 <= k < |saved| ==> SavedFor(saved[k], savedBy[k], placed, slots, words))
      && (forall o {:trigger slots[o]} :: o in slots ==> Recorded(savedBy, words, o))
  }

  ghost predicate SavedFor(entry: (nat, uint32), o: Object, placed: seq<Object>, slots: map<Object, nat>, words: map<Object, uint32>) {
    && o in slots && o in words && slots[o] < |placed| && entry.0 == Slot(placed, slots[o])
    && GetState(words[o]) == Hashed && entry.1 == GetHashCode(words[o])
  }

  /** An object with an offset was not locked, and its hash code, if any, was set aside. */
  ghost predicate Recorded(savedBy: seq<Object>, words: map<Object, uint32>, o: Object) {
    o in words && (GetState(words[o]) == Unlocked || (GetState(words[o]) == Hashed && o in savedBy))
  }

  /** What is set aside for an object with this deflated lock word. */
  function HashEntry(w: uint32, offset: nat): seq<(nat, uint32)> {
    if GetState(w) == Hashed then [(offset, GetHashCode(w))] else []
  }

  /** The walk after `o` gets the next slot. */
  ghost function Placed(w: Walk, o: Object, word: uint32): Walk {
    Walk(w.canon, w.placed + [o], w.slots[o := |w.placed|], w.imageEnd + RoundUp(o.size, 8), w.bitmap + {w.imageEnd},
         w.saved + HashEntry(word, w.imageEnd), w.savedBy + (if GetState(word) == Hashed then [o] else []))
  }

  /** The walk after string `o` gets the slot of `c`. */
  ghost function Shared(w: Walk, o: Object, c: Object, word: uint32): Walk
    requires w.Has(c)
  {
    Walk(w.canon, w.placed, w.slots[o := w.slots[c]], w.imageEnd, w.bitmap + {w.OffsetOf(c)},
         w.saved + HashEntry(word, w.OffsetOf(c)), w.savedBy + (if GetState(word) == Hashed then [o] else []))
  }

  /** There is room for one more object. */
  lemma RoomForOneMore(world: World, placed: seq<Object>, slots: map<Object, nat>, o: Object)
    requires HeapOk(world) && slots.Keys <= world.heap && o in world.heap && o !in slots
    requires forall i {:trigger placed[i] in slots} :: 0 <= i < |placed| ==> placed[i] in slots
    ensures Space(world.objects, Elements(placed + [o])) == Space(world.objects, Elements(placed)) + RoundUp(o.size, 8)
    ensures IMAGE_HEADER_SIZE + Space(world.objects, Elements(placed)) + RoundUp(o.size, 8) < world.room
  {
    var objects, heap := world.objects, world.heap;
    assert Elements(placed + [o]) == Elements(placed) + {o};
    SpaceAdds(objects, Elements(placed), o);
    forall p | p in placed + [o] ensures p in heap {
      if p != o {
        var i :| 0 <= i < |placed| && placed[i] == p;
        assert placed[i] in slots;
      }
    }
    SpaceBound(objects, Elements(placed + [o]), heap);
  }

  /** Offsets given out stay; the new slot ends in bounds and is aligned. */
  lemma PlaceStep(w: Walk, world: World, o: Object, word: uint32)
    requires HeapOk(world) && SlotsOk(w, world)
    requires o in world.heap && o !in w.slots && (o.isString ==> o.text in w.canon && w.canon[o.text] == o)
    ensures w.imageEnd + RoundUp(o.size, 8) < world.room < TWO32 && w.imageEnd % 8 == 0
    ensures SlotsOk(Placed(w, o, word), world) && KeepsOffsets(w, Placed(w, o, word))
    ensures Slot(Placed(w, o, word).placed, |w.placed|) == w.imageEnd
  {
    SlotAligned(w.placed, |w.placed|);
    RoomForOneMore(world, w.placed, w.slots, o);
    PlaceKeepsLayout(w.placed, w.slots, w.canon, o);
    StartsKept(w.placed, o, |w.placed|);
  }

  /** Every object with an offset still has it. */
  ghost predicate KeepsOffsets(w: Walk, w': Walk) {
    forall p {:trigger w.slots[p]} :: p in w.slots ==> w.Has(p) && w'.Has(p) && w'.OffsetOf(p) == w.OffsetOf(p)
  }

  lemma ShareStep(w: Walk, world: World, o: Object, word: uint32)
    requires SlotsOk(w, world)
    requires o in world.heap && o !in w.slots && o.isString && o.text in w.canon && w.canon[o.text] in w.slots
    ensures w.Has(w.canon[o.text]) && SlotsOk(Shared(w, o, w.canon[o.text], word), world)
    ensures KeepsOffsets(w, Shared(w, o, w.canon[o.text], word))
  {
    var c := w.canon[o.text];
    assert SlotOk(w.placed, w.slots[c], w.canon, c);
    ShareKeepsLayout(w.placed, w.slots, w.canon, o);
    StartIn(w.placed, |w.placed|, w.slots[c]);
    assert w.bitmap + {w.OffsetOf(c)} == w.bitmap;
    forall p | p in w.slots ensures w.Has(p) {
      assert SlotOk(w.placed, w.slots[p], w.canon, p);
    }
  }

  /** Setting aside the hash code of one more object. */
  lemma SavedStep(w: Walk, w': Walk, words: map<Object, uint32>, o: Object, i: nat)
    requires SavedOk(w, words) && KeepsOffsets(w, w') && o !in w.slots && o in words && i < |w'.placed| && w'.slots == w.slots[o := i]
    requires GetState(words[o]) in {Unlocked, Hashed}
    requires w'.saved == w.saved + HashEntry(words[o], Slot(w'.placed, i)) && w'.savedBy == w.savedBy + (if GetState(words[o]) == Hashed then [o] else [])
    ensures SavedOk(w', words)
  {
    forall k | 0 <= k < |w'.saved| ensures SavedFor(w'.saved[k], w'.savedBy[k], w'.placed, w'.slots, words) {
      if k < |w.saved| {
        assert SavedFor(w.saved[k], w.savedBy[k], w.placed, w.slots, words);
      }
    }
    forall p | p in w'.slots ensures Recorded(w'.savedBy, words, p) {
      if p != o {
        assert p in w.slots && Recorded(w.savedBy, words, p);
      }
    }
  }

  // ---------- Lock words ----------

  /** The monitor of a fat lock. */
  function MonitorFor(monitors: map<nat, Monitor>, w: uint32): Monitor {
    if w - TWO30 in monitors then monitors[w - TWO30] else Monitor(0, None, 0, 0)
  }

  /** `words` are the original lock words, deflated. */
  ghost predicate DeflatedOk(world: World, original: map<Object, uint32>, words: map<Object, uint32>) {
    match world case World(_, heap, _, monitors) =>
    && heap <= original.Keys && heap <= words.Keys
    && (forall o {:trigger words[o]} :: o in heap ==> IsDeflated(words[o], original[o], MonitorFor(monitors, original[o])))
  }

  ghost predicate IsDeflated(w: uint32, before: uint32, m: Monitor) {
    m.Valid() && GetState(before) != Forwarded && w == Deflated(before, m)
  }

  /** The lock word and monitor keep an object out of the image: it is locked, and not so deeply that its
      recursion depth is taken for a hash code. */
  predicate Refused(w: uint32, m: Monitor) {
    Locked(w, m) && !CountLooksLikeHash(w, m)
  }

  /** No object of the heap is refused, by its original lock word. */
  ghost predicate NoneRefused(world: World, original: map<Object, uint32>)
    requires world.heap <= original.Keys
  {
    forall o {:trigger original[o]} :: o in world.heap ==> !Refused(original[o], MonitorFor(world.monitors, original[o]))
  }

  lemma RefusedExactly(world: World, original: map<Object, uint32>, words: map<Object, uint32>)
    requires DeflatedOk(world, original, words)
    ensures AllAccepted(world, words) <==> NoneRefused(world, original)
  {
    forall o | o in world.heap ensures GetState(words[o]) in {Unlocked, Hashed} <==> !Refused(original[o], MonitorFor(world.monitors, original[o])) {
      assert IsDeflated(words[o], original[o], MonitorFor(world.monitors, original[o]));
      AcceptedExactly(original[o], MonitorFor(world.monitors, original[o]));
    }
  }

  /** The deflated words of a heap. */
  lemma WordsDeflated(world: World, original: map<Object, uint32>, words: map<Object, uint32>)
    requires world.heap <= original.Keys && world.heap <= words.Keys
    requires forall o {:trigger original[o]} :: o in world.heap ==> GetState(original[o]) != Forwarded && MonitorFor(world.monitors, original[o]).Valid()
    requires forall o {:trigger words[o]} :: o in world.heap ==> MonitorFor(world.monitors, original[o]).Valid() && words[o] == Deflated(original[o], MonitorFor(world.monitors, original[o]))
    ensures DeflatedOk(world, original, words)
  {
  }

  /** Lock word `lw` of `o`: the forwarding offset of an object that has one, and otherwise as before. */
  ghost predicate WordOk(lw: uint32, before: uint32, w: Walk, o: Object) {
    && GetState(before) != Forwarded
    && if o in w.slots then w.Has(o) && w.OffsetOf(o) < TWO32 && lw == FromForwardingAddress(w.OffsetOf(o))
       else lw == before
  }

  lemma WordReadsBack(lw: uint32, before: uint32, w: Walk, o: Object)
    requires WordOk(lw, before, w, o)
    ensures GetState(lw) == Forwarded <==> o in w.slots
    ensures o in w.slots ==> ForwardingAddress(lw) == w.OffsetOf(o)
  {
    if o in w.slots {
      SlotAligned(w.placed, w.slots[o]);
      AlignedReadsBack(w.OffsetOf(o), lw);
    }
  }

  lemma WordKept(lw: uint32, before: uint32, w: Walk, w': Walk, o: Object)
    requires WordOk(lw, before, w, o) && KeepsOffsets(w, w') && (o in w'.slots ==> o in w.slots)
    ensures WordOk(lw, before, w', o)
  {
  }

  // ---------- The state of the copy ----------

  /** What is copied of an object. */
  datatype Body = Body(contents: seq<byte>, refs: seq<RefField>) {
    function Offsets(): (r: seq<nat>)
      ensures |r| == |refs|
    {
      seq(|refs|, i requires 0 <= i < |refs| => refs[i].offset)
    }
  }

  /** Where `o` will be at run time. */
  ghost function AddressOf(w: Walk, begin: nat, o: Object?): uint32 {
    if o == null || !w.Has(o) then 0 else Wrap32(begin + w.OffsetOf(o))
  }

  ghost function Addresses(w: Walk, begin: nat, refs: seq<RefField>): (r: seq<uint32>)
    ensures |r| == |refs|
  {
    seq<uint32>(|refs|, i requires 0 <= i < |refs| => AddressOf(w, begin, refs[i].value))
  }

  /** The objects of the heap are well formed and refer to each other only. */
  ghost predicate BodiesOk(bodies: map<Object, Body>, heap: set<Object>) {
    heap <= bodies.Keys && forall o {:trigger bodies[o]} :: o in heap ==> BodyOk(bodies[o], o.size, heap)
  }

  ghost predicate BodyOk(b: Body, size: nat, heap: set<Object>) {
    && |b.contents| == size >= 8 && OffsetsOk(b.Offsets(), size)
    && (forall r {:trigger b.refs[r]} :: 0 <= r < |b.refs| ==> b.refs[r].value == null || b.refs[r].value in heap)
  }

  /** Slot `i` holds the relocated copy of `b`, with lock word `word`. */
  ghost predicate SlotHolds(data: seq<byte>, w: Walk, begin: nat, i: nat, b: Body, word: uint32)
    requires i < |w.placed|
  {
    Copied(data, Slot(w.placed, i), b.contents, b.Offsets(), Addresses(w, begin, b.refs), word)
  }

  /** The lock word of the slot at `p` after the first `n` hash codes set aside are restored. */
  function RestoredWord(saved: seq<(nat, uint32)>, n: nat, p: nat): uint32
    requires n <= |saved|
  {
    if n == 0 then 0
    else if saved[n - 1].0 == p && saved[n - 1].1 < TWO30 then FromHashCode(saved[n - 1].1)
    else RestoredWord(saved, n - 1, p)
  }

  /** The slots filled so far, each by the object copied to it last. */
  ghost predicate Filled(data: seq<byte>, w: Walk, begin: nat, bodies: map<Object, Body>, holders: map<nat, Object>, n: nat) {
    && n <= |w.saved|
    && forall i {:trigger holders[i]} :: i in holders ==> FilledSlot(data, w, begin, bodies, holders[i], i, n)
  }

  ghost predicate FilledSlot(data: seq<byte>, w: Walk, begin: nat, bodies: map<Object, Body>, h: Object, i: nat, n: nat)
    requires n <= |w.saved|
  {
    && i < |w.placed| && h in bodies && h in w.slots && w.slots[h] == i
    && |bodies[h].contents| == w.placed[i].size >= 8
    && SlotHolds(data, w, begin, i, bodies[h], RestoredWord(w.saved, n, Slot(w.placed, i)))
  }

  /** Different slots do not overlap. */
  lemma SlotsApart(placed: seq<Object>, i: nat, j: nat)
    requires i < |placed| && j < |placed| && i != j
    ensures Disjoint(Slot(placed, i), placed[i].size, Slot(placed, j), placed[j].size)
    ensures placed[i].size > 0 && placed[j].size > 0 ==> Slot(placed, i) != Slot(placed, j)
  {
    if i < j {
      SlotsGrow(placed, i, j);
    } else {
      SlotsGrow(placed, j, i);
    }
  }

  /** Writing in one slot leaves another filled as it was. */
  lemma OtherSlotKept(data: seq<byte>, data': seq<byte>, w: Walk, begin: nat, bodies: map<Object, Body>, h: Object, j: nat, n: nat, i: nat)
    requires n <= |w.saved| && FilledSlot(data, w, begin, bodies, h, j, n) && i < |w.placed| && i != j
    requires Outside(data, data', Slot(w.placed, i), w.placed[i].size)
    ensures FilledSlot(data', w, begin, bodies, h, j, n)
  {
    SlotsApart(w.placed, i, j);
    CopyKept(data, data', Slot(w.placed, i), w.placed[i].size, Slot(w.placed, j), bodies[h].contents, bodies[h].Offsets(),
             Addresses(w, begin, bodies[h].refs), RestoredWord(w.saved, n, Slot(w.placed, j)));
  }

  /** One more object is copied. */
  lemma FillStep(data: seq<byte>, data': seq<byte>, w: Walk, begin: nat, bodies: map<Object, Body>, holders: map<nat, Object>, o: Object)
    requires Filled(data, w, begin, bodies, holders, 0) && w.Has(o) && o in bodies
    requires |bodies[o].contents| == w.placed[w.slots[o]].size >= 8
    requires Outside(data, data', w.OffsetOf(o), |bodies[o].contents|) && SlotHolds(data', w, begin, w.slots[o], bodies[o], 0)
    ensures Filled(data', w, begin, bodies, holders[w.slots[o] := o], 0)
  {
    forall j | j in holders && j != w.slots[o] ensures FilledSlot(data', w, begin, bodies, holders[j], j, 0) {
      OtherSlotKept(data, data', w, begin, bodies, holders[j], j, 0, w.slots[o]);
    }
  }

  /** The slot whose hash code is restored. */
  lemma RestoredSlot(data: seq<byte>, w: Walk, begin: nat, bodies: map<Object, Body>, h: Object, i: nat, n: nat)
    requires n < |w.saved| && FilledSlot(data, w, begin, bodies, h, i, n) && w.saved[n].0 == Slot(w.placed, i) && w.saved[n].1 < TWO30
    ensures Slot(w.placed, i) + LOCK_WORD + 4 <= |data| && w.placed[i].size > 0
    ensures var data' := Stored(data, Slot(w.placed, i) + LOCK_WORD, U32(FromHashCode(w.saved[n].1)));
            FilledSlot(data', w, begin, bodies, h, i, n + 1) && Outside(data, data', Slot(w.placed, i), w.placed[i].size)
  {
    var p, b := Slot(w.placed, i), bodies[h];
    LockWordSet(data, p, b.contents, b.Offsets(), Addresses(w, begin, b.refs), RestoredWord(w.saved, n, p), FromHashCode(w.saved[n].1));
  }

  /** The other slots. */
  lemma NotRestoredSlot(data: seq<byte>, w: Walk, begin: nat, bodies: map<Object, Body>, h: Object, j: nat, n: nat, i: nat)
    requires n < |w.saved| && FilledSlot(data, w, begin, bodies, h, j, n) && i < |w.placed| && i != j
    requires w.saved[n].0 == Slot(w.placed, i) && w.placed[i].size > 0
    ensures FilledSlot(data, w, begin, bodies, h, j, n + 1)
  {
    SlotsApart(w.placed, i, j);
  }

  /** One more hash code is restored, in slot `i`. */
  lemma RestoreStep(data: seq<byte>, w: Walk, begin: nat, bodies: map<Object, Body>, holders: map<nat, Object>, n: nat, i: nat)
    requires Filled(data, w, begin, bodies, holders, n) && n < |w.saved| && i in holders && i < |w.placed|
    requires w.saved[n].0 == Slot(w.placed, i) && w.saved[n].1 < TWO30
    ensures Slot(w.placed, i) + LOCK_WORD + 4 <= |data|
    ensures Filled(Stored(data, Slot(w.placed, i) + LOCK_WORD, U32(FromHashCode(w.saved[n].1))), w, begin, bodies, holders, n + 1)
  {
    hide FilledSlot, Outside, Stored, Slot, U32;
    assert FilledSlot(data, w, begin, bodies, holders[i], i, n);
    RestoredSlot(data, w, begin, bodies, holders[i], i, n);
    var data' := Stored(data, Slot(w.placed, i) + LOCK_WORD, U32(FromHashCode(w.saved[n].1)));
    forall j | j in holders ensures FilledSlot(data', w, begin, bodies, holders[j], j, n + 1) {
      if j != i {
        OtherSlotKept(data, data', w, begin, bodies, holders[j], j, n, i);
        NotRestoredSlot(data', w, begin, bodies, holders[j], j, n, i);
      }
    }
  }

  /** What the writer leaves behind: every object has an offset and its slot is filled. */
  ghost predicate Finished(data: seq<byte>, w: Walk, world: World, words: map<Object, uint32>, begin: nat, bodies: map<Object, Body>, holders: map<nat, Object>) {
    && HeapOk(world) && SlotsOk(w, world) && SavedOk(w, words) && w.slots.Keys == world.heap && BodiesOk(bodies, world.heap)
    && Filled(data, w, begin, bodies, holders, |w.saved|)
    && (forall o {:trigger w.slots[o]} :: o in world.heap ==> w.slots[o] in holders && holders[w.slots[o]] in world.heap)
    && begin + world.room <= TWO32
  }

  class ImageWriter {
    /** The heap, in the order in which it is visited. */
    const objects: seq<Object>
    const monitors: map<nat, Monitor>
    const image: array<byte>
    const imageBegin: nat
    var imageEnd: nat
    var bitmap: set<nat>
    var savedHashes: seq<(nat, uint32)>
    var strongInterns: map<seq<byte>, Object>
    var weakInterns: map<seq<byte>, Object>

    ghost const heap: set<Object>
    /** The lock words before the walk, and what deflation makes of them. */
    ghost var original: map<Object, uint32>
    ghost var words: map<Object, uint32>
    ghost var walk: Walk
    ghost var world: World
    ghost var bodies: map<Object, Body>

    constructor (objects: seq<Object>, monitors: map<nat, Monitor>, length: nat, imageBegin: nat, strongInterns: map<seq<byte>, Object>, weakInterns: map<seq<byte>, Object>)
      requires HeapOk(World(objects, Elements(objects), length, monitors)) && CanonOk(weakInterns + strongInterns, Elements(objects))
      requires forall o {:trigger o.lockWord} :: o in objects ==> GetState(o.lockWord) != Forwarded && MonitorFor(monitors, o.lockWord).Valid()
      ensures Ready() && this.objects == objects && this.monitors == monitors && this.imageBegin == imageBegin
      ensures image.Length == length && fresh(image)
    {
      this.objects, this.monitors, this.imageBegin := objects, monitors, imageBegin;
      this.strongInterns, this.weakInterns := strongInterns, weakInterns;
      heap := Elements(objects);
      imageEnd, bitmap, savedHashes := 0, {}, [];
      image := new byte[length];
    }

    ghost predicate Closed()
      reads heap`children
    {
      forall o, c {:trigger c in o.children} :: o in heap && c in o.children ==> c in heap
    }

    /** What holds during the walk. */
    ghost predicate Inv()
      reads this, heap`lockWord
    {
      InvApart() && walk.imageEnd == imageEnd
    }

    /** The same without the end of the image. */
    ghost predicate InvApart()
      reads this, heap`lockWord
    {
      && world == World(objects, heap, image.Length, monitors) && HeapOk(world) && DeflatedOk(world, original, words)
      && heap <= original.Keys && heap <= words.Keys
      && SlotsOk(walk, world) && SavedOk(walk, words)
      && walk.bitmap == bitmap && walk.saved == savedHashes && walk.canon == weakInterns + strongInterns
      && (forall o {:trigger o.lockWord} :: o in heap ==> WordOk(o.lockWord, original[o], walk, o))
    }

    /** `SetImageOffset`: it aborts exactly if the object is refused. */
    method SetImageOffset(obj: Object, offset: uint32) returns (ok: bool)
      requires MonitorFor(monitors, obj.lockWord).Valid() && GetState(obj.lockWord) != Forwarded && offset % 8 == 0
      modifies obj`lockWord, this`bitmap, this`savedHashes
      ensures var w := Deflated(old(obj.lockWord), MonitorFor(monitors, old(obj.lockWord)));
              && (ok <==> GetState(w) in {Unlocked, Hashed})
              && (ok <==> !Refused(old(obj.lockWord), MonitorFor(monitors, old(obj.lockWord))))
              && (ok ==> obj.lockWord == FromForwardingAddress(offset) && bitmap == old(bitmap) + {offset} && savedHashes == old(savedHashes) + HashEntry(w, offset))
    {
      bitmap := bitmap + {offset};
      AcceptedExactly(obj.lockWord, MonitorFor(monitors, obj.lockWord));
      obj.lockWord := Deflated(obj.lockWord, MonitorFor(monitors, obj.lockWord));
      var lw := obj.lockWord;
      match GetState(lw) {
        case FatLocked => return false;
        case ThinLocked => return false;
        case Unlocked =>
        case Hashed => savedHashes := savedHashes + [(offset, GetHashCode(lw))];
        case Forwarded => return false;
      }
      obj.lockWord := FromForwardingAddress(offset);
      ok := true;
    }

    predicate IsImageOffsetAssigned(obj: Object)
      reads obj`lockWord
    {
      GetState(obj.lockWord) == Forwarded
    }

    function GetImageOffset(obj: Object): uint32
      reads obj`lockWord
    {
      ForwardingAddress(obj.lockWord)
    }

    /** `SetImageOffset` as a step of the walk to `w'`, in which `obj` has slot `i`. */
    method Forward(obj: Object, offset: uint32, ghost w': Walk, ghost i: nat) returns (ok: bool)
      requires InvApart() && obj in heap && obj !in walk.slots && offset % 8 == 0
      requires SlotsOk(w', world) && KeepsOffsets(walk, w') && w'.slots == walk.slots[obj := i] && i < |w'.placed| && w'.OffsetOf(obj) == offset
      requires w'.canon == walk.canon && w'.bitmap == walk.bitmap + {offset as nat} && w'.saved == walk.saved + HashEntry(words[obj], offset)
      requires w'.savedBy == walk.savedBy + (if GetState(words[obj]) == Hashed then [obj] else [])
      modifies obj`lockWord, this`bitmap, this`savedHashes, this`walk
      ensures ok <==> GetState(words[obj]) in {Unlocked, Hashed}
      ensures ok ==> InvApart() && walk == w'
    {
      hide SlotsOk, SavedOk, HeapOk, KeepsOffsets;
      assert WordOk(obj.lockWord, original[obj], walk, obj);
      assert IsDeflated(words[obj], original[obj], MonitorFor(monitors, original[obj]));
      ok := SetImageOffset(obj, offset);
      if ok {
        SavedStep(walk, w', words, obj, i);
        forall o | o in heap && o != obj ensures WordOk(o.lockWord, original[o], w', o) {
          assert old(WordOk(o.lockWord, original[o], walk, o));
          WordKept(o.lockWord, original[o], walk, w', o);
        }
        walk := w';
      }
    }

    /** `AssignImageOffset`: the next slot. */
    method AssignImageOffset(obj: Object) returns (ok: bool)
      requires Inv() && obj in heap && obj !in walk.slots && (obj.isString ==> obj.text in walk.canon && walk.canon[obj.text] == obj)
      modifies obj`lockWord, this`bitmap, this`savedHashes, this`imageEnd, this`walk
      ensures ok <==> GetState(words[obj]) in {Unlocked, Hashed}
      ensures ok ==> Inv() && walk == Placed(old(walk), obj, words[obj])
    {
      hide SlotsOk, SavedOk, HeapOk, DeflatedOk, WordOk, KeepsOffsets;
      PlaceStep(walk, world, obj, words[obj]);
      ok := Forward(obj, imageEnd, Placed(walk, obj, words[obj]), |walk.placed|);
      if ok {
        imageEnd := imageEnd + RoundUp(obj.size, 8);
        assert imageEnd < image.Length;
      }
    }

    /** `String::Intern`, which interns weakly: the string that stands for the text of `s`. */
    method Intern(s: Object) returns (c: Object)
      requires Inv() && s in heap && s.isString
      modifies this`weakInterns, this`walk
      ensures Inv() && walk == old(walk).(canon := walk.canon)
      ensures s.text in walk.canon && walk.canon[s.text] == c
      ensures old(s.text in walk.canon) ==> walk.canon == old(walk.canon)
      ensures old(s.text !in walk.canon) ==> walk.canon == old(walk.canon)[s.text := s]
    {
      hide SlotsOk, SavedOk, HeapOk, DeflatedOk, WordOk, KeepsOffsets;
      ghost var canon := walk.canon;
      var weak;
      c, weak := InternWeak(strongInterns, weakInterns, s);
      if s.text !in canon {
        ghost var w' := walk.(canon := canon[s.text := s]);
        InternStep(walk, world, words, s);
        forall o | o in heap ensures WordOk(o.lockWord, original[o], w', o) {
          WordKept(o.lockWord, original[o], walk, w', o);
        }
        walk := w';
      }
      weakInterns := weak;
    }

    /** `InternTable::Insert` of a weak string, without an image to look in. */
    static method InternWeak(strong: map<seq<byte>, Object>, weak: map<seq<byte>, Object>, s: Object) returns (c: Object, weak': map<seq<byte>, Object>)
      ensures var canon, canon' := weak + strong, weak' + strong;
              && canon' == (if s.text in canon then canon else canon[s.text := s])
              && s.text in canon' && c == canon'[s.text]
    {
      weak' := weak;
      if s.text in strong {
        c := strong[s.text];
      } else if s.text in weak {
        c := weak[s.text];
      } else {
        weak' := weak[s.text := s];
        c := s;
      }
    }

    /** `CalculateObjectOffsets`: strings with the same text share the slot of the one interned. */
    method CalculateObjectOffsets(obj: Object) returns (ok: bool)
      requires Inv() && obj in heap && (obj in walk.slots ==> obj.isString)
      modifies this`bitmap, this`savedHashes, this`imageEnd, this`weakInterns, this`walk, heap`lockWord
      ensures ok ==> Inv() && obj in walk.slots && old(walk).slots.Keys <= walk.slots.Keys
      ensures !ok ==> !AllAccepted(world, words)
    {
      hide SlotsOk, SavedOk, HeapOk, DeflatedOk, WordOk;
      if obj.isString {
        assert WordOk(obj.lockWord, original[obj], walk, obj);
        WordReadsBack(obj.lockWord, original[obj], walk, obj);
        if IsImageOffsetAssigned(obj) {
          return true;
        }
        var interned := Intern(obj);
        if obj != interned {
          ok := ShareOffset(obj, interned);
          return;
        }
      }
      ok := AssignImageOffset(obj);
    }

    /** Points those looking for `obj` to the interned string. */
    method ShareOffset(obj: Object, interned: Object) returns (ok: bool)
      requires Inv() && obj in heap && obj !in walk.slots && obj.isString && obj != interned
      requires obj.text in walk.canon && walk.canon[obj.text] == interned
      modifies this`bitmap, this`savedHashes, this`imageEnd, this`walk, heap`lockWord
      ensures ok ==> Inv() && obj in walk.slots && old(walk).slots.Keys <= walk.slots.Keys
      ensures !ok ==> !AllAccepted(world, words)
    {
      hide SlotsOk, SavedOk, HeapOk, DeflatedOk, WordOk;
      InternedOk(walk, world, obj.text);
      assert WordOk(interned.lockWord, original[interned], walk, interned);
      WordReadsBack(interned.lockWord, original[interned], walk, interned);
      if !IsImageOffsetAssigned(interned) {
        // The interned string is behind this one in the heap: its place is allocated early.
        ok := AssignImageOffset(interned);
        if !ok { return; }
      }
      ok := PointTo(obj, interned);
    }

    method PointTo(obj: Object, interned: Object) returns (ok: bool)
      requires Inv() && obj in heap && obj !in walk.slots && obj.isString
      requires obj.text in walk.canon && walk.canon[obj.text] == interned && interned in walk.slots
      modifies this`bitmap, this`savedHashes, this`walk, obj`lockWord
      ensures ok <==> GetState(words[obj]) in {Unlocked, Hashed}
      ensures ok ==> Inv() && obj in walk.slots && old(walk).slots.Keys <= walk.slots.Keys
    {
      hide SlotsOk, SavedOk, HeapOk, DeflatedOk, KeepsOffsets;
      ShareStep(walk, world, obj, words[obj]);
      var offset := GetImageOffset(interned);
      assert offset == walk.OffsetOf(interned) && offset % 8 == 0 by {
        assert WordOk(interned.lockWord, original[interned], walk, interned);
        WordReadsBack(interned.lockWord, original[interned], walk, interned);
        SlotAligned(walk.placed, walk.slots[interned]);
      }
      ok := Forward(obj, offset, Shared(walk, obj, interned, words[obj]), walk.slots[interned]);
    }

    /** `WalkFieldsInOrder`: an object without an offset gets one, and then its children.  The graph
        may be cyclic; every level of recursion gives at least one more object its offset. */
    method WalkFieldsInOrder(obj: Object) returns (ok: bool)
      requires Inv() && Closed() && obj in heap
      modifies this`bitmap, this`savedHashes, this`imageEnd, this`weakInterns, this`walk, heap`lockWord
      ensures ok ==> Inv() && obj in walk.slots && old(walk).slots.Keys <= walk.slots.Keys
      ensures !ok ==> !AllAccepted(world, words)
      decreases heap - walk.slots.Keys
    {
      hide SlotsOk, SavedOk, HeapOk, DeflatedOk, WordOk;
      assert WordOk(obj.lockWord, original[obj], walk, obj);
      WordReadsBack(obj.lockWord, original[obj], walk, obj);
      ok := true;
      if !IsImageOffsetAssigned(obj) {
        ok := CalculateObjectOffsets(obj);
        if !ok { return; }
        for i := 0 to |obj.children|
          invariant ok && Inv() && obj in walk.slots && old(walk).slots.Keys <= walk.slots.Keys
        {
          var value := obj.children[i];
          assert value in obj.children;
          ok := WalkFieldsInOrder(value);
          if !ok { return; }
        }
      }
    }

    /** Before the walk: no offsets yet, and the intern tables hold strings of the heap. */
    ghost predicate Ready()
      reads this, heap`lockWord
    {
      && HeapOk(World(objects, heap, image.Length, monitors)) && imageEnd == 0 && bitmap == {} && savedHashes == []
      && CanonOk(weakInterns + strongInterns, heap)
      && (forall o {:trigger o.lockWord} :: o in heap ==> GetState(o.lockWord) != Forwarded && MonitorFor(monitors, o.lockWord).Valid())
    }

    /** The first half of `CalculateNewObjectOffsets`: the walk over the whole heap.  It gives every
        object an offset, exactly unless one of them is refused. */
    method CalculateNewObjectOffsets() returns (ok: bool)
      requires Ready() && Closed()
      modifies this`bitmap, this`savedHashes, this`imageEnd, this`weakInterns, this`walk, this`original, this`words, this`world, heap`lockWord
      ensures original == old(map o | o in heap :: o.lockWord) && DeflatedOk(World(objects, heap, image.Length, monitors), original, words)
      ensures heap <= original.Keys && (ok <==> NoneRefused(World(objects, heap, image.Length, monitors), original))
      ensures ok ==> Inv() && walk.slots.Keys == heap
    {
      hide SlotsOk, SavedOk, HeapOk, DeflatedOk, WordOk, NoneRefused, AllAccepted;
      StartWalk();
      imageEnd := imageEnd + IMAGE_HEADER_SIZE;
      RefusedExactly(world, original, words);
      ok := VisitHeap();
    }

    method VisitHeap() returns (ok: bool)
      requires Inv() && Closed()
      modifies this`bitmap, this`savedHashes, this`imageEnd, this`weakInterns, this`walk, heap`lockWord
      ensures ok <==> AllAccepted(world, words)
      ensures ok ==> Inv() && walk.slots.Keys == heap
    {
      HeapElements(world);
      hide SlotsOk, SavedOk, HeapOk, DeflatedOk, WordOk;
      ok := true;
      for i := 0 to |objects|
        invariant ok && Inv() && FirstHave(objects, i, walk.slots)
      {
        ghost var before := walk.slots;
        ok := WalkFieldsInOrder(objects[i]);
        if !ok { return; }
        OneMoreHas(objects, i, before, walk.slots);
      }
      NoneLocked(walk, world, words);
    }

    /** The ghost state at the start of the walk. */
    ghost method StartWalk()
      requires Ready()
      modifies this`walk, this`original, this`words, this`world
      ensures original == (map o | o in heap :: o.lockWord)
      ensures InvApart() && walk.imageEnd == IMAGE_HEADER_SIZE
    {
      hide SlotsOk, SavedOk, HeapOk, DeflatedOk, Deflated, GetState, CanonOk;
      world := World(objects, heap, image.Length, monitors);
      original := map o | o in heap :: o.lockWord;
      words := map o | o in heap :: Deflated(o.lockWord, MonitorFor(monitors, o.lockWord));
      walk := Walk(weakInterns + strongInterns, [], map[], IMAGE_HEADER_SIZE, {}, [], []);
      EmptyWalk(weakInterns + strongInterns, world, words);
      WordsDeflated(world, original, words);
    }

    // ---------- Copying ----------

    function GetImageAddress(obj: Object?): uint32
      reads if obj == null then {} else {obj}
    {
      if obj == null then 0 else Wrap32(imageBegin + GetImageOffset(obj))
    }

    /** Every object has an offset, and `bodies` is what the heap holds. */
    ghost predicate AllPlaced()
      reads this, heap
    {
      && Inv() && walk.slots.Keys == heap && heap <= bodies.Keys && BodiesOk(bodies, heap)
      && (forall o {:trigger bodies[o]} :: o in heap ==> bodies[o] == Body(o.contents, o.refs))
    }

    ghost predicate ObjectsOk()
      reads heap
    {
      forall o {:trigger o.contents} :: o in heap ==> BodyOk(Body(o.contents, o.refs), o.size, heap)
    }

    ghost method Snapshot()
      requires Inv() && walk.slots.Keys == heap && ObjectsOk()
      modifies this`bodies
      ensures AllPlaced()
    {
      hide SlotsOk, SavedOk, HeapOk, DeflatedOk, WordOk, BodyOk;
      bodies := map o | o in heap :: Body(o.contents, o.refs);
    }

    /** The address of an object, read from its lock word. */
    lemma AddressReadsBack(obj: Object?)
      requires Inv() && walk.slots.Keys == heap && (obj == null || obj in heap)
      ensures GetImageAddress(obj) == AddressOf(walk, imageBegin, obj)
    {
      if obj != null {
        assert WordOk(obj.lockWord, original[obj], walk, obj);
        WordReadsBack(obj.lockWord, original[obj], walk, obj);
      }
    }

    /** `FixupObject`: every reference of the copy becomes the address its target will have. */
    method FixupObject(orig: Object, copy: nat)
      requires AllPlaced() && orig in heap
      requires CopiedUpTo(image[..], copy, bodies[orig].contents, bodies[orig].Offsets(), Addresses(walk, imageBegin, bodies[orig].refs), 0, 0)
      modifies image
      ensures Copied(image[..], copy, bodies[orig].contents, bodies[orig].Offsets(), Addresses(walk, imageBegin, bodies[orig].refs), 0)
      ensures Outside(old(image[..]), image[..], copy, orig.size)
    {
      hide SlotsOk, SavedOk, HeapOk, DeflatedOk, WordOk, CopiedUpTo;
      ghost var b := bodies[orig];
      ghost var addresses := Addresses(walk, imageBegin, b.refs);
      assert BodyOk(b, orig.size, heap);
      for r := 0 to |orig.refs|
        invariant AllPlaced() && CopiedUpTo(image[..], copy, b.contents, b.Offsets(), addresses, 0, r)
        invariant Outside(old(image[..]), image[..], copy, orig.size)
      {
        var field := orig.refs[r];
        assert field == b.refs[r] && addresses[r] == AddressOf(walk, imageBegin, field.value);
        AddressReadsBack(field.value);
        var address := GetImageAddress(field.value);
        FieldFits(image[..], copy, b.contents, b.Offsets(), addresses, r);
        CopyStep(image[..], copy, b.contents, b.Offsets(), addresses, 0, r);
        Store(image, copy + field.offset, U32(address));
      }
    }

    /** `CopyAndFixupObjectsCallback`: the copy of one object, with an empty lock word. */
    method CopyAndFixupObject(obj: Object)
      requires AllPlaced() && obj in heap
      modifies image
      ensures AllPlaced() && walk.Has(obj)
      ensures SlotHolds(image[..], walk, imageBegin, walk.slots[obj], bodies[obj], 0)
      ensures Outside(old(image[..]), image[..], walk.OffsetOf(obj), obj.size)
    {
      hide SlotsOk, SavedOk, HeapOk, DeflatedOk, WordOk, CopiedUpTo;
      ghost var b := bodies[obj];
      ghost var addresses := Addresses(walk, imageBegin, b.refs);
      assert BodyOk(b, obj.size, heap);
      PlacedInBounds(walk, world, obj);
      var offset := GetImageOffset(obj);
      assert offset == walk.OffsetOf(obj) by {
        assert WordOk(obj.lockWord, original[obj], walk, obj);
        WordReadsBack(obj.lockWord, original[obj], walk, obj);
      }
      CopyStarts(image[..], offset, b.contents, obj.lockWord, b.Offsets(), addresses);
      Store(image, offset, Memory(obj.contents, obj.lockWord));
      Store(image, offset + LOCK_WORD, U32(0));
      FixupObject(obj, offset);
    }

    /** `CopyAndFixupObjects`.  Afterwards every slot holds the relocated copy of an object with that
        offset, and its lock word the hash code set aside for it last; the header is untouched. */
    method CopyAndFixupObjects() returns (ghost holders: map<nat, Object>)
      requires Inv() && walk.slots.Keys == heap && ObjectsOk() && imageBegin + image.Length <= TWO32
      modifies image, this`savedHashes, this`bodies
      ensures Finished(image[..], walk, world, words, imageBegin, bodies, holders)
      ensures forall o {:trigger bodies[o]} :: o in heap ==> o in bodies && bodies[o] == Body(o.contents, o.refs)
      ensures Outside(old(image[..]), image[..], IMAGE_HEADER_SIZE, image.Length)
      ensures savedHashes == []
    {
      hide SlotsOk, SavedOk, HeapOk, DeflatedOk, WordOk, BodiesOk, BodyOk, Finished, Outside;
      Snapshot();
      holders := CopyAll();
      savedHashes := [];
    }

    method CopyAll() returns (ghost holders: map<nat, Object>)
      requires AllPlaced() && imageBegin + image.Length <= TWO32
      modifies image
      ensures Finished(image[..], walk, world, words, imageBegin, bodies, holders)
      ensures Outside(old(image[..]), image[..], IMAGE_HEADER_SIZE, image.Length)
    {
      hide SlotsOk, SavedOk, HeapOk, DeflatedOk, WordOk, Filled, BodiesOk;
      holders := CopyObjects();
      ghost var copied := image[..];
      RestoreHashes(holders);
      OutsideGrows(old(image[..]), copied, image[..], IMAGE_HEADER_SIZE, image.Length, IMAGE_HEADER_SIZE, image.Length);
    }

    method CopyObjects() returns (ghost holders: map<nat, Object>)
      requires AllPlaced()
      modifies image
      ensures AllPlaced() && Filled(image[..], walk, imageBegin, bodies, holders, 0)
      ensures forall o {:trigger walk.slots[o]} :: o in heap ==> walk.slots[o] in holders && holders[walk.slots[o]] in heap
      ensures Outside(old(image[..]), image[..], IMAGE_HEADER_SIZE, image.Length)
    {
      HeapElements(world);
      hide SlotsOk, SavedOk, HeapOk, DeflatedOk, WordOk, Filled, BodiesOk;
      holders := map[];
      for i := 0 to |objects|
        invariant AllPlaced() && Filled(image[..], walk, imageBegin, bodies, holders, 0)
        invariant Covered(walk.slots, holders, heap, objects, i)
        invariant Outside(old(image[..]), image[..], IMAGE_HEADER_SIZE, image.Length)
      {
        ghost var before := image[..];
        CopyNext(objects[i], holders);
        OutsideGrows(old(image[..]), before, image[..], IMAGE_HEADER_SIZE, image.Length, walk.OffsetOf(objects[i]), objects[i].size);
        CoverStep(walk.slots, holders, heap, objects, i);
        holders := holders[walk.slots[objects[i]] := objects[i]];
      }
    }

    method CopyNext(obj: Object, ghost holders: map<nat, Object>)
      requires AllPlaced() && obj in heap && Filled(image[..], walk, imageBegin, bodies, holders, 0)
      modifies image
      ensures AllPlaced() && walk.Has(obj) && IMAGE_HEADER_SIZE <= walk.OffsetOf(obj) && walk.OffsetOf(obj) + obj.size <= image.Length
      ensures Filled(image[..], walk, imageBegin, bodies, holders[walk.slots[obj] := obj], 0)
      ensures Outside(old(image[..]), image[..], walk.OffsetOf(obj), obj.size)
    {
      hide SlotsOk, SavedOk, HeapOk, DeflatedOk, WordOk, SlotHolds, Filled, BodiesOk;
      PlacedInBounds(walk, world, obj);
      BodyFits(bodies, heap, obj);
      CopyAndFixupObject(obj);
      FillStep(old(image[..]), image[..], walk, imageBegin, bodies, holders, obj);
    }

    /** The objects that had hash codes get them back. */
    method RestoreHashes(ghost holders: map<nat, Object>)
      requires AllPlaced() && Filled(image[..], walk, imageBegin, bodies, holders, 0)
      requires forall o {:trigger walk.slots[o]} :: o in heap ==> walk.slots[o] in holders
      modifies image
      ensures Filled(image[..], walk, imageBegin, bodies, holders, |walk.saved|)
      ensures Outside(old(image[..]), image[..], IMAGE_HEADER_SIZE, image.Length)
    {
      hide SlotsOk, HeapOk, DeflatedOk, WordOk, SlotHolds, FilledSlot, BodiesOk;
      for n := 0 to |savedHashes|
        invariant Filled(image[..], walk, imageBegin, bodies, holders, n)
        invariant Outside(old(image[..]), image[..], IMAGE_HEADER_SIZE, image.Length)
      {
        ghost var before := image[..];
        ghost var o := walk.savedBy[n];
        assert SavedFor(walk.saved[n], o, walk.placed, walk.slots, words);
        RestoreStep(before, walk, imageBegin, bodies, holders, n, walk.slots[o]);
        var (p, hash) := savedHashes[n];
        StoredStands(before, p + LOCK_WORD, U32(FromHashCode(hash)));
        Store(image, p + LOCK_WORD, U32(FromHashCode(hash)));
        OutsideGrows(old(image[..]), before, image[..], IMAGE_HEADER_SIZE, image.Length, p + LOCK_WORD, 4);
      }
    }
  }

  /** The slots of the first `n` objects are filled, by objects of the heap. */
  ghost predicate Covered(slots: map<Object, nat>, holders: map<nat, Object>, heap: set<Object>, objects: seq<Object>, n: nat) {
    && n <= |objects|
    && (forall j {:trigger objects[j]} :: 0 <= j < n ==> objects[j] in slots && slots[objects[j]] in holders)
    && (forall s {:trigger holders[s]} :: s in holders ==> holders[s] in heap)
  }

  lemma CoverStep(slots: map<Object, nat>, holders: map<nat, Object>, heap: set<Object>, objects: seq<Object>, n: nat)
    requires Covered(slots, holders, heap, objects, n) && n < |objects| && objects[n] in slots && objects[n] in heap
    ensures Covered(slots, holders[slots[objects[n]] := objects[n]], heap, objects, n + 1)
  {
  }

  lemma BodyFits(bodies: map<Object, Body>, heap: set<Object>, o: Object)
    requires BodiesOk(bodies, heap) && o in heap && o in bodies
    ensures |bodies[o].contents| == o.size >= 8
  {
    assert BodyOk(bodies[o], o.size, heap);
  }

  lemma PlacedInBounds(w: Walk, world: World, o: Object)
    requires HeapOk(world) && SlotsOk(w, world) && o in w.slots && o in world.heap
    ensures w.Has(o) && w.OffsetOf(o) + o.size <= w.imageEnd && w.placed[w.slots[o]].size == o.size
    ensures w.OffsetOf(o) % 8 == 0 && IMAGE_HEADER_SIZE <= w.OffsetOf(o) && w.imageEnd < world.room
  {
    SlotInBounds(w.placed, w.slots, w.canon, world.heap, o);
    SlotFits(w.placed, w.slots, w.canon, world.heap, o);
    EndInRoom(w, world);
  }

  lemma EndInRoom(w: Walk, world: World)
    requires HeapOk(world) && SlotsOk(w, world)
    ensures w.imageEnd < world.room
  {
    forall o | o in Elements(w.placed) ensures o in world.heap {
      var i :| 0 <= i < |w.placed| && w.placed[i] == o;
      assert w.placed[i] in w.slots;
    }
    SpaceBound(world.objects, Elements(w.placed), world.heap);
  }

  lemma FieldFits(data: seq<byte>, pos: nat, contents: seq<byte>, offs: seq<nat>, addresses: seq<uint32>, r: nat)
    requires CopiedUpTo(data, pos, contents, offs, addresses, 0, r) && r < |offs|
    ensures pos + offs[r] + 4 <= |data|
  {
  }

  lemma EmptyWalk(canon: map<seq<byte>, Object>, world: World, words: map<Object, uint32>)
    requires CanonOk(canon, world.heap)
    ensures var w := Walk(canon, [], map[], IMAGE_HEADER_SIZE, {}, [], []); SlotsOk(w, world) && SavedOk(w, words)
  {
    NoSpace(world.objects);
    assert Elements([]) == {};
  }

  ghost predicate FirstHave(objects: seq<Object>, n: nat, slots: map<Object, nat>) {
    n <= |objects| && forall j {:trigger objects[j]} :: 0 <= j < n ==> objects[j] in slots
  }

  lemma OneMoreHas(objects: seq<Object>, n: nat, slots: map<Object, nat>, slots': map<Object, nat>)
    requires FirstHave(objects, n, slots) && n < |objects| && slots.Keys <= slots'.Keys && objects[n] in slots'
    ensures FirstHave(objects, n + 1, slots')
  {
    forall j | 0 <= j <= n ensures objects[j] in slots' {
      assert j < n ==> objects[j] in slots.Keys;
    }
  }

  lemma HeapElements(world: World)
    requires HeapOk(world)
    ensures forall o :: o in world.heap <==> o in world.objects
  {
  }

  lemma NoneLocked(w: Walk, world: World, words: map<Object, uint32>)
    requires SavedOk(w, words) && w.slots.Keys == world.heap
    ensures AllAccepted(world, words)
  {
    forall o | o in world.heap ensures o in words && GetState(words[o]) in {Unlocked, Hashed} {
      assert o in w.slots && Recorded(w.savedBy, words, o);
    }
  }

  /** Interning one more text. */
  lemma InternStep(w: Walk, world: World, words: map<Object, uint32>, s: Object)
    requires SlotsOk(w, world) && SavedOk(w, words) && s in world.heap && s.isString && s.text !in w.canon
    ensures var w' := w.(canon := w.canon[s.text := s]); SlotsOk(w', world) && SavedOk(w', words) && KeepsOffsets(w, w')
  {
    InternKeepsLayout(w.placed, w.slots, w.canon, w.canon[s.text := s]);
    forall p | p in w.slots ensures w.Has(p) {
      assert SlotOk(w.placed, w.slots[p], w.canon, p);
    }
  }

  lemma InternedOk(w: Walk, world: World, t: seq<byte>)
    requires SlotsOk(w, world) && t in w.canon
    ensures w.canon[t] in world.heap && w.canon[t].isString && w.canon[t].text == t
  {
  }

  /** No object of the heap is locked, as far as its lock word tells. */
  ghost predicate AllAccepted(world: World, words: map<Object, uint32>) {
    forall o {:trigger words[o]} :: o in world.heap && o in words ==> GetState(words[o]) in {Unlocked, Hashed}
  }
}
