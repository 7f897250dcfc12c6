/** Heap objects and the slots they get in an image (compiler/image_writer.cc). */
module ImageLayout {
  import opened Bytes

  /** The size of the image header, which is a multiple of 8. */
  const IMAGE_HEADER_SIZE := 48
  const STRING_SIZE := 24

  datatype RefField = RefField(offset: nat, value: Object?)

  /** A heap object.  `contents` are its bytes apart from the lock word at offset 4; the bytes of a
      reference field are whatever the heap address was.  `children` are the objects the image walk
      finds in its fields or elements, and `text` the characters of a string. */
  class Object {
    const size: nat
    const isString: bool
    const text: seq<byte>
    var contents: seq<byte>
    var refs: seq<RefField>
    var children: seq<Object>
    var lockWord: uint32
  }

  /** Where slot `i` starts when the objects in `placed` follow each other, aligned to 8. */
  function Slot(placed: seq<Object>, i: nat): (r: nat)
    requires i <= |placed|
    ensures r >= IMAGE_HEADER_SIZE
  {
    if i == 0 then IMAGE_HEADER_SIZE else Slot(placed, i - 1) + RoundUp(placed[i - 1].size, 8)
  }

  lemma {:induction false} SlotAligned(placed: seq<Object>, i: nat)
    requires i <= |placed|
    ensures Slot(placed, i) % 8 == 0
    decreases i
  {
    if i > 0 {
      SlotAligned(placed, i - 1);
      RoundUpAligned(placed[i - 1].size, 8);
    }
  }

  lemma {:induction false} SlotsGrow(placed: seq<Object>, i: nat, j: nat)
    requires i < j <= |placed|
    ensures Slot(placed, i) + placed[i].size <= Slot(placed, j)
    decreases j
  {
    if i < j - 1 {
      SlotsGrow(placed, i, j - 1);
    }
  }

  lemma {:induction false} SlotKept(placed: seq<Object>, o: Object, i: nat)
    requires i <= |placed|
    ensures Slot(placed + [o], i) == Slot(placed, i)
    decreases i
  {
    if i > 0 {
      SlotKept(placed, o, i - 1);
    }
  }

  // ---------- Room ----------

  /** The space of those objects of `objects` that are in `some`. */
  function Space(objects: seq<Object>, some: set<Object>): nat {
    if objects == [] then 0
    else Space(objects[..|objects| - 1], some) + (if objects[|objects| - 1] in some then RoundUp(objects[|objects| - 1].size, 8) else 0)
  }

  lemma {:induction false} SpaceAdds(objects: seq<Object>, some: set<Object>, o: Object)
    requires o !in some && (forall i, j :: 0 <= i < j < |objects| ==> objects[i] != objects[j])
    ensures Space(objects, some + {o}) == Space(objects, some) + (if o in objects then RoundUp(o.size, 8) else 0)
    decreases |objects|
  {
    if objects != [] {
      var n := |objects| - 1;
      SpaceAdds(objects[..n], some, o);
      assert objects[n] !in objects[..n];
      assert o in objects <==> o in objects[..n] || o == objects[n];
    }
  }

  lemma {:induction false} SpaceBound(objects: seq<Object>, some: set<Object>, all: set<Object>)
    requires some <= all
    ensures Space(objects, some) <= Space(objects, all)
    decreases |objects|
  {
    if objects != [] {
      SpaceBound(objects[..|objects| - 1], some, all);
    }
  }

  lemma {:induction false} NoSpace(objects: seq<Object>)
    ensures Space(objects, {}) == 0
  {
    if objects != [] {
      NoSpace(objects[..|objects| - 1]);
    }
  }

  // ---------- Layout ----------

  /** `canon` gives for a text the string object that stands for it. */
  ghost predicate CanonOk(canon: map<seq<byte>, Object>, heap: set<Object>) {
    forall t {:trigger canon[t]} :: t in canon ==> canon[t] in heap && canon[t].isString && canon[t].text == t
  }

  /** The objects of `placed` own slots in that order; `slots` gives the slot of an object with an
      offset, which it owns, or shares as a string with the string standing for its text. */
  ghost predicate Layout(placed: seq<Object>, slots: map<Object, nat>, canon: map<seq<byte>, Object>) {
    && (forall i {:trigger slots[placed[i]]} {:trigger placed[i] in slots} :: 0 <= i < |placed| ==> placed[i] in slots && slots[placed[i]] == i)
    && (forall o {:trigger slots[o]} :: o in slots ==> SlotOk(placed, slots[o], canon, o))
  }

  ghost predicate SlotOk(placed: seq<Object>, i: nat, canon: map<seq<byte>, Object>, o: Object) {
    && i < |placed|
    && if o.isString then o.text in canon && placed[i] == canon[o.text] else placed[i] == o
  }

  /** The offset of an object. */
  function Offset(placed: seq<Object>, slots: map<Object, nat>, o: Object): nat
    requires o in slots && slots[o] <= |placed|
  {
    Slot(placed, slots[o])
  }

  /** Giving the next slot to an object that stands for itself. */
  lemma PlaceKeepsLayout(placed: seq<Object>, slots: map<Object, nat>, canon: map<seq<byte>, Object>, o: Object)
    requires Layout(placed, slots, canon) && o !in slots && (o.isString ==> o.text in canon && canon[o.text] == o)
    ensures Layout(placed + [o], slots[o := |placed|], canon)
    ensures forall p {:trigger slots[p]} :: p in slots ==> Slot(placed + [o], slots[p]) == Slot(placed, slots[p])
    ensures Slot(placed + [o], |placed|) == Slot(placed, |placed|)
  {
    var placed', slots' := placed + [o], slots[o := |placed|];
    forall p | p in slots ensures Slot(placed', slots[p]) == Slot(placed, slots[p]) {
      SlotKept(placed, o, slots[p]);
    }
    SlotKept(placed, o, |placed|);
    forall p | p in slots' ensures SlotOk(placed', slots'[p], canon, p) {
      assert p != o ==> SlotOk(placed, slots[p], canon, p);
    }
  }

  /** Giving a string the slot of the string that stands for its text. */
  lemma ShareKeepsLayout(placed: seq<Object>, slots: map<Object, nat>, canon: map<seq<byte>, Object>, o: Object)
    requires Layout(placed, slots, canon) && o !in slots && o.isString && o.text in canon
    requires canon[o.text] in slots && canon[o.text].isString && canon[o.text].text == o.text
    ensures Layout(placed, slots[o := slots[canon[o.text]]], canon)
  {
    var c := canon[o.text];
    assert SlotOk(placed, slots[c], canon, c);
  }

  /** Interning more texts. */
  lemma InternKeepsLayout(placed: seq<Object>, slots: map<Object, nat>, canon: map<seq<byte>, Object>, canon': map<seq<byte>, Object>)
    requires Layout(placed, slots, canon) && (forall t {:trigger canon[t]} :: t in canon ==> t in canon' && canon'[t] == canon[t])
    ensures Layout(placed, slots, canon')
  {
    forall o | o in slots ensures SlotOk(placed, slots[o], canon', o) {
      assert SlotOk(placed, slots[o], canon, o);
    }
  }

  // ---------- What a layout promises ----------

  ghost predicate Disjoint(a: nat, n: nat, b: nat, m: nat) {
    a + n <= b || b + m <= a
  }

  /** Whether two objects are meant to share a slot. */
  predicate Same(a: Object, b: Object) {
    a == b || (a.isString && b.isString && a.text == b.text)
  }

  ghost predicate StringsSized(heap: set<Object>) {
    forall o {:trigger o.isString} :: o in heap && o.isString ==> o.size == STRING_SIZE
  }

  /** The slot of an object fits it. */
  lemma SlotFits(placed: seq<Object>, slots: map<Object, nat>, canon: map<seq<byte>, Object>, heap: set<Object>, o: Object)
    requires Layout(placed, slots, canon) && CanonOk(canon, heap) && StringsSized(heap) && o in slots && o in heap
    ensures slots[o] < |placed| && placed[slots[o]].size == o.size
  {
    assert SlotOk(placed, slots[o], canon, o);
    assert o.isString ==> canon[o.text].isString;
  }

  /** Two objects have the same offset exactly if they are the same object or strings with the same
      text, and otherwise their ranges are disjoint. */
  lemma SlotsDisjoint(placed: seq<Object>, slots: map<Object, nat>, canon: map<seq<byte>, Object>, heap: set<Object>, a: Object, b: Object)
    requires Layout(placed, slots, canon) && CanonOk(canon, heap) && StringsSized(heap)
    requires a in slots && b in slots && a in heap && b in heap && a.size > 0 && b.size > 0
    ensures slots[a] < |placed| && slots[b] < |placed|
    ensures Offset(placed, slots, a) == Offset(placed, slots, b) <==> Same(a, b)
    ensures !Same(a, b) ==> Disjoint(Offset(placed, slots, a), a.size, Offset(placed, slots, b), b.size)
  {
    SlotFits(placed, slots, canon, heap, a);
    SlotFits(placed, slots, canon, heap, b);
    SameSlot(placed, slots, canon, heap, a, b);
    var i, j := slots[a], slots[b];
    if i < j {
      SlotsGrow(placed, i, j);
    } else if j < i {
      SlotsGrow(placed, j, i);
    }
  }

  lemma SameSlot(placed: seq<Object>, slots: map<Object, nat>, canon: map<seq<byte>, Object>, heap: set<Object>, a: Object, b: Object)
    requires Layout(placed, slots, canon) && CanonOk(canon, heap) && a in slots && b in slots
    ensures slots[a] == slots[b] <==> Same(a, b)
  {
    assert SlotOk(placed, slots[a], canon, a) && SlotOk(placed, slots[b], canon, b);
    assert a.isString ==> canon[a.text].text == a.text;
    assert b.isString ==> canon[b.text].text == b.text;
    assert slots[placed[slots[a]]] == slots[a] && slots[placed[slots[b]]] == slots[b];
  }

  /** Every offset is aligned and its range lies between the header and the end. */
  lemma SlotInBounds(placed: seq<Object>, slots: map<Object, nat>, canon: map<seq<byte>, Object>, heap: set<Object>, o: Object)
    requires Layout(placed, slots, canon) && CanonOk(canon, heap) && StringsSized(heap) && o in slots && o in heap
    ensures slots[o] < |placed|
    ensures Offset(placed, slots, o) % 8 == 0 && IMAGE_HEADER_SIZE <= Offset(placed, slots, o)
    ensures Offset(placed, slots, o) + o.size <= Slot(placed, |placed|)
  {
    SlotFits(placed, slots, canon, heap, o);
    SlotAligned(placed, slots[o]);
    SlotsGrow(placed, slots[o], |placed|);
  }
}
