/**
  Layout with deduplication (compiler/oat_writer.cc): items are laid out in order, each aligned, and an item
  whose key has been seen before takes no new space.  The Init passes find earlier occurrences in
  a map; the Write passes only compare an item's recorded offset with the current one.  This
  module is about the offsets themselves.
*/
module OatDedupe {
  import opened Bytes

  /** A visited method contributes an item, or nothing to this pass. */
  datatype Item<K> = Skip | Item(key: K, size: nat)

  /** No item is empty, and a key determines the size. */
  ghost predicate Consistent<K>(items: seq<Item<K>>) {
    && (forall i :: 0 <= i < |items| && items[i].Item? ==> items[i].size > 0)
    && (forall i, j :: 0 <= i < |items| && 0 <= j < |items| && items[i].Item? && items[j].Item? && items[i].key == items[j].key ==>
          items[i].size == items[j].size)
  }

  predicate Seen<K(==)>(items: seq<Item<K>>, n: nat, key: K)
    requires n <= |items|
  {
    exists j :: 0 <= j < n && items[j].Item? && items[j].key == key
  }

  /** Item `i` is the first with its key. */
  predicate Fresh<K(==)>(items: seq<Item<K>>, i: nat)
    requires i < |items|
  {
    items[i].Item? && !Seen(items, i, items[i].key)
  }

  /** The current offset after `n` visits; every item aligns it, first occurrences also advance it. */
  function End<K(==)>(items: seq<Item<K>>, align: nat, start: nat, n: nat): (r: nat)
    requires align > 0 && n <= |items|
    ensures r >= start
    decreases n
  {
    if n == 0 then start
    else
      var e := End(items, align, start, n - 1);
      if items[n - 1].Skip? then e
      else RoundUp(e, align) + (if Fresh(items, n - 1) then items[n - 1].size else 0)
  }

  /** The index of the first item with a given key. */
  function FirstOf<K(==)>(items: seq<Item<K>>, key: K): (f: nat)
    requires Seen(items, |items|, key)
    ensures f < |items| && items[f].Item? && items[f].key == key && !Seen(items, f, key)
  {
    FirstFrom(items, key, 0)
  }

  function FirstFrom<K(==)>(items: seq<Item<K>>, key: K, j: nat): (f: nat)
    requires j <= |items| && !Seen(items, j, key) && Seen(items, |items|, key)
    ensures j <= f < |items| && items[f].Item? && items[f].key == key && !Seen(items, f, key)
    decreases |items| - j
  {
    if items[j].Item? && items[j].key == key then j else FirstFrom(items, key, j + 1)
  }

  /** Where the item with a given key is found: at its first occurrence. */
  function PlaceOf<K(==)>(items: seq<Item<K>>, align: nat, start: nat, key: K): (r: nat)
    requires align > 0 && Seen(items, |items|, key)
    ensures r >= start
  {
    RoundUp(End(items, align, start, FirstOf(items, key)), align)
  }

  function First<K(==)>(items: seq<Item<K>>, i: nat): (f: nat)
    requires i < |items| && items[i].Item?
    ensures f <= i && items[f].Item? && items[f].key == items[i].key && Fresh(items, f)
  {
    FirstOf(items, items[i].key)
  }

  /** Where item `i` is found. */
  function Place<K(==)>(items: seq<Item<K>>, align: nat, start: nat, i: nat): (r: nat)
    requires align > 0 && i < |items| && items[i].Item?
    ensures r >= start
  {
    PlaceOf(items, align, start, items[i].key)
  }

  lemma {:induction false} EndGrows<K>(items: seq<Item<K>>, align: nat, start: nat, i: nat, j: nat)
    requires align > 0 && i <= j <= |items|
    ensures End(items, align, start, i) <= End(items, align, start, j)
    decreases j - i
  {
    if i < j {
      EndGrows(items, align, start, i, j - 1);
    }
  }

  /** The space of an item ends before the current offset of any later visit. */
  lemma PlacedBefore<K>(items: seq<Item<K>>, align: nat, start: nat, i: nat, n: nat)
    requires Consistent(items) && align > 0 && i < |items| && items[i].Item? && First(items, i) < n <= |items|
    ensures Place(items, align, start, i) + items[i].size <= End(items, align, start, n)
  {
    EndGrows(items, align, start, First(items, i) + 1, n);
  }

  /** What the Write passes rely on: an item's recorded place is the current (aligned) offset
      exactly when it is a first occurrence; otherwise its space lies entirely before it. */
  lemma FreshExactlyHere<K>(items: seq<Item<K>>, align: nat, start: nat, i: nat)
    requires Consistent(items) && align > 0 && i < |items| && items[i].Item?
    ensures Fresh(items, i) <==> Place(items, align, start, i) == RoundUp(End(items, align, start, i), align)
    ensures !Fresh(items, i) ==> Place(items, align, start, i) + items[i].size <= End(items, align, start, i)
  {
    var f := First(items, i);
    if Fresh(items, i) {
      assert f == i;
    } else {
      assert f < i;
      PlacedBefore(items, align, start, i, i);
    }
  }

  /** Items with different keys never overlap. */
  lemma PlacesDisjoint<K>(items: seq<Item<K>>, align: nat, start: nat, i: nat, j: nat)
    requires Consistent(items) && align > 0 && i < |items| && j < |items| && items[i].Item? && items[j].Item?
    requires items[i].key != items[j].key
    ensures Place(items, align, start, i) + items[i].size <= Place(items, align, start, j) ||
            Place(items, align, start, j) + items[j].size <= Place(items, align, start, i)
  {
    if First(items, i) < First(items, j) {
      PlacedBefore(items, align, start, i, First(items, j));
    } else {
      PlacedBefore(items, align, start, j, First(items, i));
    }
  }

  // ---------- The deduplication map of an Init pass ----------

  /** After `n` visits, `dedupe` maps every key seen to the place of its item plus `shift`, and
      `offset` is the current offset. */
  ghost predicate Tracks<K(!new)>(items: seq<Item<K>>, align: nat, start: nat, shift: nat, n: nat, dedupe: map<K, nat>, offset: nat)
    requires align > 0 && n <= |items|
  {
    && offset == End(items, align, start, n)
    && (forall key {:trigger key in dedupe} :: key in dedupe <==> Seen(items, n, key))
    && (forall key {:trigger dedupe[key]} :: key in dedupe ==>
          Seen(items, |items|, key) && dedupe[key] == PlaceOf(items, align, start, key) + shift)
  }

  lemma TracksOffset<K(!new)>(items: seq<Item<K>>, align: nat, start: nat, shift: nat, n: nat, dedupe: map<K, nat>, offset: nat)
    requires align > 0 && n <= |items| && Tracks(items, align, start, shift, n, dedupe, offset)
    ensures offset == End(items, align, start, n)
  {
  }

  lemma SeenSnoc<K>(items: seq<Item<K>>, n: nat, key: K)
    requires n < |items|
    ensures Seen(items, n + 1, key) <==> Seen(items, n, key) || (items[n].Item? && items[n].key == key)
  {
    if Seen(items, n, key) {
      var j :| 0 <= j < n && items[j].Item? && items[j].key == key;
    }
  }

  /** A visit that contributes nothing. */
  lemma TrackSkip<K(!new)>(items: seq<Item<K>>, align: nat, start: nat, shift: nat, n: nat, dedupe: map<K, nat>, offset: nat)
    requires align > 0 && n < |items| && Tracks(items, align, start, shift, n, dedupe, offset) && items[n].Skip?
    ensures Tracks(items, align, start, shift, n + 1, dedupe, offset)
  {
    forall key ensures key in dedupe <==> Seen(items, n + 1, key) {
      SeenSnoc(items, n, key);
    }
  }

  /** A visit whose item has been placed before. */
  lemma TrackHit<K(!new)>(items: seq<Item<K>>, align: nat, start: nat, shift: nat, n: nat, dedupe: map<K, nat>, offset: nat)
    requires align > 0 && n < |items| && Tracks(items, align, start, shift, n, dedupe, offset)
    requires items[n].Item? && items[n].key in dedupe
    ensures dedupe[items[n].key] == Place(items, align, start, n) + shift
    ensures Tracks(items, align, start, shift, n + 1, dedupe, RoundUp(offset, align))
  {
    forall key ensures key in dedupe <==> Seen(items, n + 1, key) {
      SeenSnoc(items, n, key);
    }
  }

  /** A visit whose item is placed now. */
  lemma TrackMiss<K(!new)>(items: seq<Item<K>>, align: nat, start: nat, shift: nat, n: nat, dedupe: map<K, nat>, offset: nat)
    requires align > 0 && n < |items| && Tracks(items, align, start, shift, n, dedupe, offset)
    requires items[n].Item? && items[n].key !in dedupe
    ensures RoundUp(offset, align) == Place(items, align, start, n)
    ensures Tracks(items, align, start, shift, n + 1, dedupe[items[n].key := RoundUp(offset, align) + shift],
                   RoundUp(offset, align) + items[n].size)
  {
    var dedupe' := dedupe[items[n].key := RoundUp(offset, align) + shift];
    assert Fresh(items, n) && First(items, n) == n;
    forall key ensures key in dedupe' <==> Seen(items, n + 1, key) {
      SeenSnoc(items, n, key);
    }
  }
}
