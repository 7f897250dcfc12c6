/** Laying out the fields of a class (runtime/class_linker.cc: LinkFields and SizeOfClass). */
module FieldLayout {
  class ArtField {
    const name: string
    /** The first character of the type descriptor. */
    const descriptor: char
    var offset: nat

    constructor (name: string, descriptor: char)
      ensures this.name == name && this.descriptor == descriptor
    {
      this.name, this.descriptor := name, descriptor;
    }
  }

  datatype Group = Reference | Wide | Narrow

  /** `Primitive::GetType` and the groups of `LinkFieldsComparator`: whatever is not a primitive type is a
      reference. */
  function GroupOf(c: char): Group {
    if c == 'J' || c == 'D' then Wide
    else if c in {'B', 'C', 'F', 'I', 'S', 'Z', 'V'} then Narrow
    else Reference
  }

  function Kind(f: ArtField): Group {
    GroupOf(f.descriptor)
  }

  function Order(g: Group): nat {
    match g case Reference => 0 case Wide => 1 case Narrow => 2
  }

  function Width(f: ArtField): nat {
    if Kind(f) == Wide then 8 else 4
  }

  // ---------- Sorting ----------

  predicate NameLess(a: string, b: string) {
    if b == [] then false
    else if a == [] then true
    else a[0] < b[0] || (a[0] == b[0] && NameLess(a[1..], b[1..]))
  }

  predicate Less(f: ArtField, g: ArtField) {
    Order(Kind(f)) < Order(Kind(g)) || (Order(Kind(f)) == Order(Kind(g)) && NameLess(f.name, g.name))
  }

  lemma {:induction false} NameLessOrders(a: string, b: string, c: string)
    ensures NameLess(a, b) ==> !NameLess(b, a)
    ensures NameLess(a, b) && NameLess(b, c) ==> NameLess(a, c)
  {
    if a != [] && b != [] && c != [] {
      NameLessOrders(a[1..], b[1..], c[1..]);
    } else if a != [] && b != [] {
      NameLessOrders(a[1..], b[1..], []);
    }
  }

  /** Names that do not differ in order do not differ. */
  lemma {:induction false} NameLessTotal(a: string, b: string)
    ensures !NameLess(a, b) && !NameLess(b, a) <==> a == b
  {
    if a != [] && b != [] {
      NameLessTotal(a[1..], b[1..]);
      assert a == [a[0]] + a[1..] && b == [b[0]] + b[1..];
    }
  }

  ghost predicate Sorted(fs: seq<ArtField>) {
    forall i, j {:trigger fs[i], fs[j]} :: 0 <= i < j < |fs| ==> !Less(fs[j], fs[i])
  }

  /** Inserting a field in front of the first one it is less than. */
  method InsertField(fs: seq<ArtField>, f: ArtField) returns (r: seq<ArtField>)
    requires Sorted(fs)
    ensures Sorted(r) && multiset(r) == multiset(fs) + multiset{f}
  {
    var p := 0;
    while p < |fs| && !Less(f, fs[p])
      invariant p <= |fs| && forall i {:trigger fs[i]} :: 0 <= i < p ==> !Less(f, fs[i])
    {
      p := p + 1;
    }
    r := fs[..p] + [f] + fs[p..];
    assert fs == fs[..p] + fs[p..];
    InsertedSorted(fs, p, f);
  }

  predicate Incomparable(f: ArtField, g: ArtField) {
    !Less(f, g) && !Less(g, f)
  }

  /** The comparator is a strict weak order, as `std::sort` demands. */
  lemma LessOrders(f: ArtField, g: ArtField, h: ArtField)
    ensures Less(f, g) ==> !Less(g, f)
    ensures Less(f, g) && Less(g, h) ==> Less(f, h)
    ensures Incomparable(f, g) && Incomparable(g, h) ==> Incomparable(f, h)
  {
    NameLessOrders(f.name, g.name, h.name);
    NameLessTotal(f.name, g.name);
    NameLessTotal(g.name, h.name);
    NameLessTotal(f.name, h.name);
  }

  lemma InsertedSorted(fs: seq<ArtField>, p: nat, f: ArtField)
    requires Sorted(fs) && p <= |fs| && (forall i {:trigger fs[i]} :: 0 <= i < p ==> !Less(f, fs[i])) && (p < |fs| ==> Less(f, fs[p]))
    ensures Sorted(fs[..p] + [f] + fs[p..])
  {
    hide Less;
    var r := fs[..p] + [f] + fs[p..];
    forall i, j | 0 <= i < j < |r| ensures !Less(r[j], r[i]) {
      assert r[i] == if i < p then fs[i] else if i == p then f else fs[i - 1];
      assert r[j] == if j < p then fs[j] else if j == p then f else fs[j - 1];
      if i == p {
        LessOrders(fs[j - 1], f, fs[p]);
        LessOrders(f, fs[p], f);
      }
    }
  }

  /** `std::sort` with the comparator. */
  method SortFields(fs: seq<ArtField>) returns (r: seq<ArtField>)
    ensures Sorted(r) && multiset(r) == multiset(fs)
  {
    r := [];
    for i := 0 to |fs|
      invariant Sorted(r) && multiset(r) == multiset(fs[..i])
    {
      assert fs[..i + 1] == fs[..i] + [fs[i]];
      r := InsertField(r, fs[i]);
    }
    assert fs[..|fs|] == fs;
  }

  // ---------- The order of fields ----------

  /** How many of the first fields are of group `g`. */
  function Leading(fs: seq<ArtField>, g: Group): (n: nat)
    ensures n <= |fs|
    ensures forall i {:trigger fs[i]} :: 0 <= i < n ==> Kind(fs[i]) == g
    ensures n < |fs| ==> Kind(fs[n]) != g
  {
    if fs == [] || Kind(fs[0]) != g then 0 else 1 + Leading(fs[1..], g)
  }

  /** Behind the fields of one group come only later groups. */
  lemma SortedGroups(fs: seq<ArtField>)
    requires Sorted(fs)
    ensures forall i {:trigger fs[i]} :: Leading(fs, Reference) <= i < |fs| ==> Kind(fs[i]) != Reference
    ensures var rest := fs[Leading(fs, Reference)..];
            Sorted(rest) && forall i {:trigger rest[i]} :: Leading(rest, Wide) <= i < |rest| ==> Kind(rest[i]) == Narrow
  {
    var r := Leading(fs, Reference);
    var rest := fs[r..];
    var w := Leading(rest, Wide);
    forall i | r <= i < |fs| ensures Kind(fs[i]) != Reference {
      assert i > r ==> !Less(fs[i], fs[r]);
    }
    forall i | w <= i < |rest| ensures Kind(rest[i]) == Narrow {
      assert rest[i] == fs[r + i] && rest[w] == fs[r + w];
      assert i > w ==> !Less(fs[r + i], fs[r + w]);
    }
  }

  /** Whether the place behind the references is a hole: something follows that is to be aligned. */
  predicate Hole(fs: seq<ArtField>, start: nat) {
    var r := Leading(fs, Reference);
    r < |fs| && (start + 4 * r) % 8 != 0
  }

  /** The order in which fields are placed: with a hole, the first narrow field goes in front of the wide ones. */
  function Arranged(fs: seq<ArtField>, start: nat): seq<ArtField> {
    var r := Leading(fs, Reference);
    var rest := fs[r..];
    var w := Leading(rest, Wide);
    if Hole(fs, start) && w < |rest| then MovedUp(fs, r, w) else fs
  }

  /** Field `r + w` moved up behind the first `r` fields. */
  function MovedUp(fs: seq<ArtField>, r: nat, w: nat): seq<ArtField>
    requires r + w < |fs|
  {
    var rest := fs[r..];
    fs[..r] + [rest[w]] + rest[..w] + rest[w + 1..]
  }

  /** What is left empty behind the references. */
  function Padding(fs: seq<ArtField>, start: nat): nat {
    var r := Leading(fs, Reference);
    if Hole(fs, start) && Leading(fs[r..], Wide) == |fs| - r then 4 else 0
  }

  /** The width of the first `k` fields together. */
  function Total(fs: seq<ArtField>, k: nat): nat
    requires k <= |fs|
  {
    if k == 0 then 0 else Total(fs, k - 1) + Width(fs[k - 1])
  }

  /** The offset of field `k` of an order with `r` references. */
  function OffsetOf(order: seq<ArtField>, start: nat, r: nat, padding: nat, k: nat): nat
    requires k <= |order|
  {
    start + Total(order, k) + (if k >= r then padding else 0)
  }

  /** The order is a permutation with the references first. */
  lemma ArrangedPermutes(fs: seq<ArtField>, start: nat)
    ensures multiset(Arranged(fs, start)) == multiset(fs) && |Arranged(fs, start)| == |fs|
    ensures Arranged(fs, start)[..Leading(fs, Reference)] == fs[..Leading(fs, Reference)]
  {
    hide Leading, Hole, MovedUp;
    var r := Leading(fs, Reference);
    var w := Leading(fs[r..], Wide);
    if Hole(fs, start) && w < |fs[r..]| {
      TakenForward(fs, r, w);
    }
  }

  lemma TakenForward(fs: seq<ArtField>, r: nat, w: nat)
    requires r + w < |fs|
    ensures var order := MovedUp(fs, r, w); multiset(order) == multiset(fs) && |order| == |fs| && order[..r] == fs[..r]
  {
    var rest := fs[r..];
    assert rest == rest[..w] + [rest[w]] + rest[w + 1..];
    assert fs == fs[..r] + (rest[..w] + [rest[w]] + rest[w + 1..]);
    MovedForward(fs[..r], rest[..w], rest[w], rest[w + 1..]);
  }

  lemma MovedForward(a: seq<ArtField>, b: seq<ArtField>, x: ArtField, c: seq<ArtField>)
    ensures multiset(a + [x] + b + c) == multiset(a + (b + [x] + c)) && |a + [x] + b + c| == |a + (b + [x] + c)|
    ensures (a + [x] + b + c)[..|a|] == a
  {
    assert multiset(a + [x] + b + c) == multiset(a) + multiset{x} + multiset(b) + multiset(c);
    assert multiset(a + (b + [x] + c)) == multiset(a) + (multiset(b) + multiset{x} + multiset(c));
  }

  ghost predicate DistinctFields(fs: seq<ArtField>) {
    forall i, j {:trigger fs[i], fs[j]} :: 0 <= i < j < |fs| ==> fs[i] != fs[j]
  }

  /** A permutation of distinct fields is distinct. */
  lemma PermutedDistinct(a: seq<ArtField>, b: seq<ArtField>)
    requires DistinctFields(a) && multiset(a) == multiset(b)
    ensures DistinctFields(b)
  {
    forall i, j | 0 <= i < j < |b| ensures b[i] != b[j] {
      if b[i] == b[j] {
        CountTwice(b, i, j);
        CountOnce(a, b[i]);
      }
    }
  }

  lemma CountTwice(b: seq<ArtField>, i: nat, j: nat)
    requires i < j < |b| && b[i] == b[j]
    ensures multiset(b)[b[i]] >= 2
  {
    assert b == b[..j] + [b[j]] + b[j + 1..];
    assert b[i] in b[..j];
  }

  lemma {:induction false} CountOnce(a: seq<ArtField>, x: ArtField)
    requires DistinctFields(a)
    ensures multiset(a)[x] <= 1
  {
    if a != [] {
      var rest := a[..|a| - 1];
      assert a == rest + [a[|a| - 1]];
      CountOnce(rest, x);
      if x == a[|a| - 1] {
        assert x !in rest;
      }
    }
  }

  // ---------- Linking ----------

  /** The first `n` fields of the order are in the array and have their offsets. */
  ghost predicate Placed(fields: seq<ArtField>, order: seq<ArtField>, start: nat, r: nat, padding: nat, n: nat)
    reads order
  {
    && |fields| == |order| && n <= |order| && fields[..n] == order[..n]
    && forall k {:trigger order[k]} :: 0 <= k < n ==> order[k].offset == OffsetOf(order, start, r, padding, k)
  }

  /** Takes the next field of the order. */
  method PlaceField(fields: array<ArtField>, n: nat, field: ArtField, offset: nat, ghost order: seq<ArtField>, ghost start: nat, ghost r: nat, ghost padding: nat)
    requires Placed(fields[..], order, start, r, padding, n) && n < |order| && DistinctFields(order)
    requires field == order[n] && offset == OffsetOf(order, start, r, padding, n)
    modifies fields, field`offset
    ensures Placed(fields[..], order, start, r, padding, n + 1)
  {
    fields[n] := field;
    field.offset := offset;
    assert fields[..][..n + 1] == order[..n + 1];
  }

  /** The loop over the references. */
  method PlaceReferences(fields: array<ArtField>, sorted: seq<ArtField>, start: nat, ghost order: seq<ArtField>, ghost padding: nat)
    returns (currentField: nat, fieldOffset: nat)
    requires fields.Length == |sorted| == |order| && DistinctFields(order) && SameStart(sorted, order, Leading(sorted, Reference))
    modifies fields, sorted`offset
    ensures currentField == Leading(sorted, Reference) && fieldOffset == start + 4 * currentField == start + Total(order, currentField)
    ensures Placed(fields[..], order, start, Leading(sorted, Reference), padding, currentField)
  {
    ghost var r := Leading(sorted, Reference);
    currentField, fieldOffset := 0, start;
    hide Placed, DistinctFields, Leading, Total, GroupOf, SameStart;
    assert Total(order, 0) == 0 && Placed(fields[..], order, start, r, padding, 0) by {
      NothingPlaced(fields[..], order, start, r, padding);
    }
    while currentField < |sorted| && Kind(sorted[currentField]) == Reference
      invariant currentField <= r && fieldOffset == start + 4 * currentField == start + Total(order, currentField)
      invariant Placed(fields[..], order, start, r, padding, currentField)
    {
      var field := sorted[currentField];
      SamePrefix(sorted, order, r, currentField);
      TotalStep(order, currentField);
      PlaceField(fields, currentField, field, fieldOffset, order, start, r, padding);
      currentField := currentField + 1;
      fieldOffset := fieldOffset + 4;
    }
  }

  /** Two orders begin with the same `r` fields. */
  ghost predicate SameStart(a: seq<ArtField>, b: seq<ArtField>, r: nat) {
    r <= |a| == |b| && a[..r] == b[..r]
  }

  lemma SamePrefix(a: seq<ArtField>, b: seq<ArtField>, r: nat, k: nat)
    requires k < r && SameStart(a, b, r)
    ensures a[k] == b[k]
  {
    assert a[..r][k] == b[..r][k];
  }

  lemma NothingPlaced(fields: seq<ArtField>, order: seq<ArtField>, start: nat, r: nat, padding: nat)
    requires |fields| == |order|
    ensures Total(order, 0) == 0 && Placed(fields, order, start, r, padding, 0)
  {
  }

  lemma TotalStep(order: seq<ArtField>, k: nat)
    requires k < |order|
    ensures Total(order, k + 1) == Total(order, k) + Width(order[k])
  {
  }

  /** The index of the first narrow field. */
  method FindNarrow(fs: seq<ArtField>) returns (i: nat)
    ensures i == Leading(fs, Wide)
  {
    i := 0;
    assert fs[0..] == fs;
    while i < |fs| && Kind(fs[i]) == Wide
      invariant i <= |fs| && Leading(fs, Wide) == i + Leading(fs[i..], Wide)
    {
      assert fs[i..][1..] == fs[i + 1..];
      i := i + 1;
    }
  }

  /** The loop over what is left. */
  method PlaceRest(fields: array<ArtField>, grouped: seq<ArtField>, n: nat, offset: nat, ghost order: seq<ArtField>, ghost start: nat, ghost r: nat, ghost padding: nat)
    returns (end: nat)
    requires Placed(fields[..], order, start, r, padding, n) && DistinctFields(order) && r <= n <= |order| && grouped == order[n..]
    requires offset == OffsetOf(order, start, r, padding, n)
    modifies fields, grouped`offset
    ensures Placed(fields[..], order, start, r, padding, |order|) && end == OffsetOf(order, start, r, padding, |order|)
  {
    end := offset;
    hide Placed, DistinctFields, Total;
    for i := 0 to |grouped|
      invariant Placed(fields[..], order, start, r, padding, n + i) && end == OffsetOf(order, start, r, padding, n + i)
    {
      var field := grouped[i];
      assert field == order[n + i];
      TotalStep(order, n + i);
      PlaceField(fields, n + i, field, end, order, start, r, padding);
      end := end + (if Kind(field) == Wide then 8 else 4);
    }
  }

  /** The rest of the order, once the hole is filled. */
  lemma AfterHole(sorted: seq<ArtField>, start: nat)
    requires Hole(sorted, start)
    ensures var r := Leading(sorted, Reference); var rest := sorted[r..]; var w := Leading(rest, Wide);
            var order := Arranged(sorted, start);
            if w < |rest| then r < |order| && order[r] == rest[w] && order[r + 1..] == rest[..w] + rest[w + 1..] else order == sorted
  {
    var r := Leading(sorted, Reference);
    var rest := sorted[r..];
    var w := Leading(rest, Wide);
    hide Leading, Hole, MovedUp;
    if w < |rest| {
      BehindFiller(sorted, r, w);
    }
  }

  lemma BehindFiller(fs: seq<ArtField>, r: nat, w: nat)
    requires r + w < |fs|
    ensures var rest, order := fs[r..], MovedUp(fs, r, w);
            |order| == |fs| && order[r] == rest[w] && order[r + 1..] == rest[..w] + rest[w + 1..]
  {
  }

  /** Fills the place behind the references, or leaves it empty: `n` fields are placed afterwards. */
  method FillHole(fields: array<ArtField>, grouped: seq<ArtField>, r: nat, offset: nat, ghost sorted: seq<ArtField>, ghost order: seq<ArtField>, ghost start: nat)
    returns (grouped': seq<ArtField>, n: nat)
    requires Hole(sorted, start) && order == Arranged(sorted, start) && r == Leading(sorted, Reference) && grouped == sorted[r..] && DistinctFields(order)
    requires |order| == |sorted| && offset == start + 4 * r == start + Total(order, r)
    requires Placed(fields[..], order, start, r, Padding(sorted, start), r)
    modifies fields, grouped`offset
    ensures r <= n <= |order| && grouped' == order[n..] && (forall f :: f in grouped' ==> f in grouped) && Placed(fields[..], order, start, r, Padding(sorted, start), n)
    ensures OffsetOf(order, start, r, Padding(sorted, start), n) == offset + 4
  {
    AfterHole(sorted, start);
    HolePadding(sorted, start);
    hide Leading, Arranged, DistinctFields, Placed, Total, Hole, Padding;
    var i := FindNarrow(grouped);
    grouped', n := grouped, r;
    if i < |grouped| {
      TotalStep(order, r);
      PlaceField(fields, r, grouped[i], offset, order, start, r, 0);
      grouped', n := Without(grouped, i), r + 1;
    }
  }

  /** Drops the consumed field. */
  function Without(fs: seq<ArtField>, i: nat): (r: seq<ArtField>)
    requires i < |fs|
    ensures forall f :: f in r ==> f in fs
  {
    fs[..i] + fs[i + 1..]
  }

  lemma HolePadding(sorted: seq<ArtField>, start: nat)
    requires Hole(sorted, start)
    ensures var rest := sorted[Leading(sorted, Reference)..];
            && Padding(sorted, start) == (if Leading(rest, Wide) < |rest| then 0 else 4)
            && (Leading(rest, Wide) < |rest| ==> Width(rest[Leading(rest, Wide)]) == 4)
  {
  }

  /** `LinkFields`: the number of reference fields and the size reached. */
  method LinkFields(fields: array<ArtField>, start: nat) returns (numReferences: nat, size: nat, ghost sorted: seq<ArtField>)
    requires start % 4 == 0 && DistinctFields(fields[..])
    modifies fields, fields[..]`offset
    ensures Sorted(sorted) && multiset(sorted) == multiset(old(fields[..])) && fields[..] == Arranged(sorted, start)
    ensures numReferences == Leading(sorted, Reference)
    ensures Placed(fields[..], fields[..], start, numReferences, Padding(sorted, start), fields.Length)
    ensures size == OffsetOf(fields[..], start, numReferences, Padding(sorted, start), fields.Length)
  {
    var grouped := SortFields(fields[..]);
    sorted := grouped;
    ghost var order, padding := Arranged(sorted, start), Padding(sorted, start);
    ArrangedPermutes(sorted, start);
    PermutedDistinct(fields[..], order);
    SameElements(sorted, fields[..]);
    assert forall i :: 0 <= i < |grouped| ==> grouped[i] in grouped;
    size, numReferences := PlaceAll(fields, grouped, start, order);
    assert fields[..] == fields[..][..fields.Length] == order[..fields.Length] == order;
  }

  lemma SameElements(a: seq<ArtField>, b: seq<ArtField>)
    requires multiset(a) == multiset(b)
    ensures |a| == |b| && forall x {:trigger x in a} :: x in a ==> x in b
  {
    assert |a| == |multiset(a)| && |b| == |multiset(b)|;
    forall x | x in a ensures x in b {
      assert x in multiset(a);
    }
  }

  /** The three phases. */
  method PlaceAll(fields: array<ArtField>, sorted: seq<ArtField>, start: nat, ghost order: seq<ArtField>) returns (size: nat, numReferences: nat)
    requires start % 4 == 0 && fields.Length == |sorted| == |order| && order == Arranged(sorted, start) && DistinctFields(order)
    requires order[..Leading(sorted, Reference)] == sorted[..Leading(sorted, Reference)]
    modifies fields, sorted`offset
    ensures numReferences == Leading(sorted, Reference)
    ensures Placed(fields[..], order, start, numReferences, Padding(sorted, start), |order|)
    ensures size == OffsetOf(order, start, numReferences, Padding(sorted, start), |order|)
  {
    hide Placed, DistinctFields, Leading, GroupOf, Total;
    ghost var padding := Padding(sorted, start);
    var currentField, fieldOffset := PlaceReferences(fields, sorted, start, order, padding);
    numReferences := currentField;
    var grouped := sorted[currentField..];
    assert forall f :: f in grouped ==> f in sorted;
    if currentField != |sorted| && fieldOffset % 8 != 0 {
      grouped, currentField := FillHole(fields, grouped, numReferences, fieldOffset, sorted, order, start);
      fieldOffset := fieldOffset + 4;
      assert forall f :: f in grouped ==> f in sorted;
    }
    size := PlaceRest(fields, grouped, currentField, fieldOffset, order, start, numReferences, padding);
  }

  // ---------- What the layout promises ----------

  /** The references are at the front, at consecutive words. */
  lemma ReferencesFirst(sorted: seq<ArtField>, start: nat, k: nat)
    requires Sorted(sorted) && k < |sorted|
    ensures var order, r := Arranged(sorted, start), Leading(sorted, Reference);
            && |order| == |sorted| && (Kind(order[k]) == Reference <==> k < r)
            && (k < r ==> OffsetOf(order, start, r, Padding(sorted, start), k) == start + 4 * k)
  {
    var order, r := Arranged(sorted, start), Leading(sorted, Reference);
    ArrangedPermutes(sorted, start);
    SortedGroups(sorted);
    if k < r {
      SamePrefix(sorted, order, r, k);
      ReferenceOffsets(sorted, order, r, k);
    } else {
      Shape(sorted, start);
    }
  }

  lemma {:induction false} ReferenceOffsets(sorted: seq<ArtField>, order: seq<ArtField>, r: nat, k: nat)
    requires r == Leading(sorted, Reference) && k <= r <= |sorted| == |order| && order[..r] == sorted[..r]
    ensures Total(order, k) == 4 * k
    decreases k
  {
    if k > 0 {
      ReferenceOffsets(sorted, order, r, k - 1);
      SamePrefix(sorted, order, r, k - 1);
    }
  }

  ghost predicate AllKind(fs: seq<ArtField>, g: Group) {
    forall i {:trigger fs[i]} :: 0 <= i < |fs| ==> Kind(fs[i]) == g
  }

  /** The order, from the groups of a sorted list. */
  function ArrangedParts(refs: seq<ArtField>, wides: seq<ArtField>, narrows: seq<ArtField>, hole: bool): seq<ArtField> {
    if hole && narrows != [] then refs + [narrows[0]] + wides + narrows[1..] else refs + wides + narrows
  }

  /** The groups of a sorted list. */
  lemma Parts(sorted: seq<ArtField>, start: nat) returns (refs: seq<ArtField>, wides: seq<ArtField>, narrows: seq<ArtField>)
    requires Sorted(sorted)
    ensures sorted == refs + wides + narrows && AllKind(refs, Reference) && AllKind(wides, Wide) && AllKind(narrows, Narrow)
    ensures Leading(sorted, Reference) == |refs| && Leading(sorted[|refs|..], Wide) == |wides|
    ensures Arranged(sorted, start) == ArrangedParts(refs, wides, narrows, Hole(sorted, start))
  {
    hide Leading, Hole, Sorted, AllKind, Kind;
    var r := Leading(sorted, Reference);
    var rest := sorted[r..];
    var w := Leading(rest, Wide);
    GroupSlices(sorted);
    refs, wides, narrows := sorted[..r], rest[..w], rest[w..];
    SliceParts(sorted, r, w);
  }

  lemma GroupSlices(sorted: seq<ArtField>)
    requires Sorted(sorted)
    ensures var r := Leading(sorted, Reference); var rest := sorted[r..]; var w := Leading(rest, Wide);
            AllKind(sorted[..r], Reference) && AllKind(rest[..w], Wide) && AllKind(rest[w..], Narrow)
  {
    var r := Leading(sorted, Reference);
    var rest := sorted[r..];
    var w := Leading(rest, Wide);
    SortedGroups(sorted);
    hide Leading, Sorted;
    KindOfSlice(sorted, 0, r, Reference);
    KindOfSlice(rest, 0, w, Wide);
    KindOfSlice(rest, w, |rest|, Narrow);
  }

  lemma KindOfSlice(fs: seq<ArtField>, from: nat, to: nat, g: Group)
    requires from <= to <= |fs| && forall i {:trigger fs[i]} :: from <= i < to ==> Kind(fs[i]) == g
    ensures AllKind(fs[from..to], g)
  {
  }

  lemma SliceParts(fs: seq<ArtField>, r: nat, w: nat)
    requires r + w <= |fs|
    ensures var rest := fs[r..];
            && fs == fs[..r] + rest[..w] + rest[w..]
            && (w < |rest| ==> rest[w..] != [] && rest[w..][0] == rest[w] && rest[w..][1..] == rest[w + 1..])
  {
  }

  /** Where the wide fields begin. */
  function FirstWide(sorted: seq<ArtField>, start: nat): nat {
    var r := Leading(sorted, Reference);
    if Hole(sorted, start) && Leading(sorted[r..], Wide) < |sorted| - r then r + 1 else r
  }

  /** Behind the references all fields are primitive, and the wide ones are next to each other. */
  ghost predicate ShapeOk(order: seq<ArtField>, r: nat, b: nat, w: nat) {
    && r <= b && b + w <= |order|
    && (forall k {:trigger order[k]} :: r <= k < |order| ==> Kind(order[k]) != Reference && (Kind(order[k]) == Wide <==> b <= k < b + w))
  }

  lemma Shape(sorted: seq<ArtField>, start: nat)
    requires Sorted(sorted)
    ensures var r := Leading(sorted, Reference);
            |Arranged(sorted, start)| == |sorted| && ShapeOk(Arranged(sorted, start), r, FirstWide(sorted, start), Leading(sorted[r..], Wide))
  {
    var refs, wides, narrows := Parts(sorted, start);
    hide Leading, Hole, Sorted, Arranged, AllKind;
    if Hole(sorted, start) && narrows != [] {
      ShapeWithFiller(refs, narrows, wides);
    } else {
      ShapeWithout(refs, wides, narrows);
    }
  }

  lemma ShapeWithFiller(a: seq<ArtField>, c: seq<ArtField>, b: seq<ArtField>)
    requires AllKind(b, Wide) && AllKind(c, Narrow) && c != []
    ensures ShapeOk(a + [c[0]] + b + c[1..], |a|, |a| + 1, |b|)
  {
    var order := a + [c[0]] + b + c[1..];
    forall k | |a| <= k < |order| ensures Kind(order[k]) != Reference && (Kind(order[k]) == Wide <==> |a| + 1 <= k < |a| + 1 + |b|) {
      assert order[k] == if k == |a| then c[0] else if k < |a| + 1 + |b| then b[k - |a| - 1] else c[k - |a| - |b|];
    }
  }

  lemma ShapeWithout(a: seq<ArtField>, b: seq<ArtField>, c: seq<ArtField>)
    requires AllKind(b, Wide) && AllKind(c, Narrow)
    ensures ShapeOk(a + b + c, |a|, |a|, |b|)
  {
    var order := a + b + c;
    forall k | |a| <= k < |order| ensures Kind(order[k]) != Reference && (Kind(order[k]) == Wide <==> |a| <= k < |a| + |b|) {
      assert order[k] == if k < |a| + |b| then b[k - |a|] else c[k - |a| - |b|];
    }
  }

  /** Fields do not overlap. */
  lemma {:induction false} FieldsApart(order: seq<ArtField>, start: nat, r: nat, padding: nat, j: nat, k: nat)
    requires j < k <= |order|
    ensures OffsetOf(order, start, r, padding, j) + Width(order[j]) <= OffsetOf(order, start, r, padding, k)
    decreases k
  {
    if j < k - 1 {
      FieldsApart(order, start, r, padding, j, k - 1);
    }
  }

  lemma {:induction false} WideRun(order: seq<ArtField>, b: nat, i: nat)
    requires b + i <= |order| && forall k {:trigger order[k]} :: b <= k < b + i ==> Kind(order[k]) == Wide
    ensures Total(order, b + i) == Total(order, b) + 8 * i
    decreases i
  {
    if i > 0 {
      WideRun(order, b, i - 1);
    }
  }

  /** The wide fields begin at a multiple of 8. */
  lemma WideBase(sorted: seq<ArtField>, start: nat)
    requires Sorted(sorted) && start % 4 == 0 && Leading(sorted, Reference) < |sorted|
    ensures var order, r, b := Arranged(sorted, start), Leading(sorted, Reference), FirstWide(sorted, start);
            |order| == |sorted| && b <= |order| && OffsetOf(order, start, r, Padding(sorted, start), b) % 8 == 0
  {
    var order, r, b := Arranged(sorted, start), Leading(sorted, Reference), FirstWide(sorted, start);
    hide Leading, Arranged, Sorted, ShapeOk, Total;
    ArrangedPermutes(sorted, start);
    Shape(sorted, start);
    ShapeBounds(order, r, b, Leading(sorted[r..], Wide));
    ReferenceOffsets(sorted, order, r, r);
    HalfAligned(start, r);
    BaseOffset(order, start, r, b, Padding(sorted, start), Leading(sorted[r..], Wide));
  }

  lemma ShapeBounds(order: seq<ArtField>, r: nat, b: nat, w: nat)
    requires ShapeOk(order, r, b, w)
    ensures r <= b && b + w <= |order|
  {
  }

  lemma BaseOffset(order: seq<ArtField>, start: nat, r: nat, b: nat, padding: nat, w: nat)
    requires ShapeOk(order, r, b, w) && r < |order| && b in {r, r + 1} && Total(order, r) == 4 * r
    requires (start + 4 * r) % 8 == 0 ==> b == r && padding == 0
    requires (start + 4 * r) % 8 != 0 ==> ((b == r + 1 && padding == 0) || (b == r && padding == 4)) && (start + 4 * r + 4) % 8 == 0
    ensures OffsetOf(order, start, r, padding, b) % 8 == 0
  {
    if b == r + 1 {
      assert Width(order[r]) == 4;
      TotalStep(order, r);
    }
  }

  lemma HalfAligned(start: nat, r: nat)
    requires start % 4 == 0
    ensures (start + 4 * r) % 8 in {0, 4} && ((start + 4 * r) % 8 != 0 ==> (start + 4 * r + 4) % 8 == 0)
  {
  }

  /** Every wide field is at a multiple of 8. */
  lemma WideAligned(sorted: seq<ArtField>, start: nat, k: nat)
    requires Sorted(sorted) && start % 4 == 0 && k < |sorted|
    ensures var order := Arranged(sorted, start);
            |order| == |sorted| &&
            (Kind(order[k]) == Wide ==> OffsetOf(order, start, Leading(sorted, Reference), Padding(sorted, start), k) % 8 == 0)
  {
    var order, r, b := Arranged(sorted, start), Leading(sorted, Reference), FirstWide(sorted, start);
    ReferencesFirst(sorted, start, k);
    Shape(sorted, start);
    hide Leading, Arranged, Sorted, Padding, FirstWide;
    if Kind(order[k]) == Wide {
      WideBase(sorted, start);
      WideAt(order, start, r, b, Padding(sorted, start), Leading(sorted[r..], Wide), k);
    }
  }

  lemma WideAt(order: seq<ArtField>, start: nat, r: nat, b: nat, padding: nat, w: nat, k: nat)
    requires ShapeOk(order, r, b, w) && r <= k < |order| && Kind(order[k]) == Wide && OffsetOf(order, start, r, padding, b) % 8 == 0
    ensures OffsetOf(order, start, r, padding, k) % 8 == 0
  {
    WideRun(order, b, k - b);
    AddEights(OffsetOf(order, start, r, padding, b), k - b);
  }

  lemma AddEights(x: nat, n: nat)
    requires x % 8 == 0
    ensures (x + 8 * n) % 8 == 0
  {
  }

  // ---------- Sizes ----------

  function CountKind(fs: seq<ArtField>, g: Group): (n: nat)
    ensures n <= |fs|
  {
    if fs == [] then 0 else CountKind(fs[..|fs| - 1], g) + (if Kind(fs[|fs| - 1]) == g then 1 else 0)
  }

  lemma {:induction false} CountJoined(a: seq<ArtField>, b: seq<ArtField>, g: Group)
    ensures CountKind(a + b, g) == CountKind(a, g) + CountKind(b, g)
    decreases |b|
  {
    if b == [] {
      assert a + b == a;
    } else {
      assert (a + b)[..|a + b| - 1] == a + b[..|b| - 1];
      CountJoined(a, b[..|b| - 1], g);
    }
  }

  lemma {:induction false} CountPermuted(a: seq<ArtField>, b: seq<ArtField>, g: Group)
    requires multiset(a) == multiset(b)
    ensures CountKind(a, g) == CountKind(b, g)
    decreases |a|
  {
    SameElements(a, b);
    if a != [] {
      var x, rest := a[|a| - 1], a[..|a| - 1];
      assert a == rest + [x];
      assert x in a;
      var p :| 0 <= p < |b| && b[p] == x;
      var before, after := b[..p], b[p + 1..];
      assert b == before + [x] + after;
      hide CountKind;
      WithoutOne(rest, x, before, after);
      CountPermuted(rest, before + after, g);
      CountJoined(before, after, g);
      CountJoined(before, [x], g);
      CountJoined(before + [x], after, g);
      CountJoined(rest, [x], g);
    }
  }

  lemma WithoutOne(rest: seq<ArtField>, x: ArtField, before: seq<ArtField>, after: seq<ArtField>)
    requires multiset(rest + [x]) == multiset(before + [x] + after)
    ensures multiset(rest) == multiset(before + after)
  {
    assert multiset(rest) == multiset(rest + [x]) - multiset{x};
    assert multiset(before + [x] + after) == multiset(before + after) + multiset{x};
  }

  /** All fields of a run have one kind. */
  lemma {:induction false} CountRun(fs: seq<ArtField>, h: Group, g: Group)
    requires AllKind(fs, h)
    ensures CountKind(fs, g) == if g == h then |fs| else 0
  {
    if fs != [] {
      CountRun(fs[..|fs| - 1], h, g);
    }
  }

  /** In a sorted list the leading fields of each kind are all there are. */
  lemma SortedCounts(sorted: seq<ArtField>)
    requires Sorted(sorted)
    ensures var r := Leading(sorted, Reference); var w := Leading(sorted[r..], Wide);
            r == CountKind(sorted, Reference) && w == CountKind(sorted, Wide) && |sorted| - r - w == CountKind(sorted, Narrow)
  {
    var refs, wides, narrows := Parts(sorted, 0);
    hide Leading, Sorted, CountKind, AllKind, Arranged, Hole;
    CountParts(refs, wides, narrows, Reference);
    CountParts(refs, wides, narrows, Wide);
    CountParts(refs, wides, narrows, Narrow);
  }

  lemma CountParts(a: seq<ArtField>, b: seq<ArtField>, c: seq<ArtField>, g: Group)
    requires AllKind(a, Reference) && AllKind(b, Wide) && AllKind(c, Narrow)
    ensures CountKind(a + b + c, g) == match g case Reference => |a| case Wide => |b| case Narrow => |c|
  {
    CountJoined(a, b, g);
    CountJoined(a + b, c, g);
    CountRun(a, Reference, g);
    CountRun(b, Wide, g);
    CountRun(c, Narrow, g);
  }

  lemma {:induction false} TotalIs(fs: seq<ArtField>, k: nat)
    requires k <= |fs|
    ensures Total(fs, k) == 4 * k + 4 * CountKind(fs[..k], Wide)
    decreases k
  {
    if k > 0 {
      TotalIs(fs, k - 1);
      assert fs[..k][..k - 1] == fs[..k - 1];
    }
  }

  /** Bytes are left empty only where wide fields need aligning and no narrow field can fill the hole. */
  lemma PaddingExactly(sorted: seq<ArtField>, start: nat)
    requires Sorted(sorted)
    ensures Padding(sorted, start) == Pad(start, CountKind(sorted, Reference), CountKind(sorted, Narrow), CountKind(sorted, Wide))
  {
    SortedCounts(sorted);
  }

  /** The padding for `r` references, `n` narrow and `w` wide fields from `start`. */
  function Pad(start: nat, r: nat, n: nat, w: nat): nat {
    if w > 0 && n == 0 && (start + 4 * r) % 8 != 0 then 4 else 0
  }

  function SizeFor(start: nat, r: nat, n: nat, w: nat): nat {
    start + 4 * (r + n) + 8 * w + Pad(start, r, n, w)
  }

  /** The size that `LinkFields` reaches depends on the numbers of fields only. */
  lemma LinkedSize(fields: seq<ArtField>, sorted: seq<ArtField>, start: nat)
    requires Sorted(sorted) && multiset(sorted) == multiset(fields)
    ensures var order := Arranged(sorted, start);
            && |order| == |fields|
            && OffsetOf(order, start, Leading(sorted, Reference), Padding(sorted, start), |order|) ==
               SizeFor(start, CountKind(fields, Reference), CountKind(fields, Narrow), CountKind(fields, Wide))
  {
    var order := Arranged(sorted, start);
    ArrangedPermutes(sorted, start);
    SameElements(sorted, fields);
    PaddingExactly(sorted, start);
    SortedCounts(sorted);
    TotalIs(order, |order|);
    assert order[..|order|] == order;
    CountPermuted(order, sorted, Wide);
    CountPermuted(sorted, fields, Reference);
    CountPermuted(sorted, fields, Narrow);
    CountPermuted(sorted, fields, Wide);
  }

  // ---------- The precomputed size ----------

  /** How `SizeOfClass` sorts descriptors: whatever is not a known reference or wide type counts as narrow. */
  function PrecomputedKind(c: char): Group {
    if c == 'L' || c == '[' then Reference else if c == 'J' || c == 'D' then Wide else Narrow
  }

  /** Descriptors that name no type: `LinkFields` takes them for references. */
  predicate Unknown(f: ArtField) {
    Kind(f) == Reference && PrecomputedKind(f.descriptor) != Reference
  }

  function CountPrecomputed(fs: seq<ArtField>, g: Group): nat {
    if fs == [] then 0 else CountPrecomputed(fs[..|fs| - 1], g) + (if PrecomputedKind(fs[|fs| - 1].descriptor) == g then 1 else 0)
  }

  function CountUnknown(fs: seq<ArtField>): nat {
    if fs == [] then 0 else CountUnknown(fs[..|fs| - 1]) + (if Unknown(fs[|fs| - 1]) then 1 else 0)
  }

  /** `SizeOfClass`, from the descriptors of the static fields. */
  method SizeOfClass(fields: seq<ArtField>, start: nat) returns (size: nat)
    requires start % 4 == 0
    ensures size == SizeFor(start, CountPrecomputed(fields, Reference), CountPrecomputed(fields, Narrow), CountPrecomputed(fields, Wide))
  {
    var numRef, num32, num64 := 0, 0, 0;
    for i := 0 to |fields|
      invariant numRef == CountPrecomputed(fields[..i], Reference) && num32 == CountPrecomputed(fields[..i], Narrow) && num64 == CountPrecomputed(fields[..i], Wide)
    {
      assert fields[..i + 1][..i] == fields[..i];
      var c := fields[i].descriptor;
      if c == 'L' || c == '[' {
        numRef := numRef + 1;
      } else if c == 'J' || c == 'D' {
        num64 := num64 + 1;
      } else {
        num32 := num32 + 1;
      }
    }
    assert fields[..|fields|] == fields;
    HalfAligned(start, numRef);
    size := start + numRef * 4;
    if num64 != 0 && size % 8 != 0 {
      if num32 != 0 {
        num32 := num32 - 1;
      }
      size := size + 4;
    }
    size := size + num64 * 8;
    size := size + num32 * 4;
  }

  lemma {:induction false} CountsDiffer(fs: seq<ArtField>)
    ensures CountKind(fs, Reference) == CountPrecomputed(fs, Reference) + CountUnknown(fs)
    ensures CountPrecomputed(fs, Narrow) == CountKind(fs, Narrow) + CountUnknown(fs)
    ensures CountPrecomputed(fs, Wide) == CountKind(fs, Wide)
  {
    if fs != [] {
      CountsDiffer(fs[..|fs| - 1]);
    }
  }

  /** The precomputed size is the size that the layout reaches exactly unless an unknown descriptor stands
      in for the narrow field that would fill a hole in front of wide fields. */
  lemma SizesAgreeExactly(fields: seq<ArtField>, start: nat)
    requires start % 4 == 0
    ensures var r, n, w, u := CountKind(fields, Reference), CountKind(fields, Narrow), CountKind(fields, Wide), CountUnknown(fields);
            SizeFor(start, r, n, w) == SizeFor(start, CountPrecomputed(fields, Reference), CountPrecomputed(fields, Narrow), CountPrecomputed(fields, Wide))
            <==> !(u > 0 && w > 0 && n == 0 && (start + 4 * r) % 8 != 0)
  {
    CountsDiffer(fields);
  }

  /** Such a class: one field of no known type and one of 64 bits. */
  lemma SizesDiffer(unknown: ArtField, wide: ArtField, start: nat)
    requires unknown.descriptor == 'X' && wide.descriptor == 'J' && start % 8 == 0
    ensures var fields := [unknown, wide];
            SizeFor(start, CountKind(fields, Reference), CountKind(fields, Narrow), CountKind(fields, Wide)) == start + 16 &&
            SizeFor(start, CountPrecomputed(fields, Reference), CountPrecomputed(fields, Narrow), CountPrecomputed(fields, Wide)) == start + 12
  {
    var fields, one := [unknown, wide], [unknown];
    assert fields[..1] == one && one[..0] == [];
    assert forall g :: CountKind(one, g) == if g == Reference then 1 else 0;
    assert forall g :: CountPrecomputed(one, g) == if g == Narrow then 1 else 0;
  }

  /** Descriptors that name types always agree. */
  lemma KnownSizesAgree(fields: seq<ArtField>, start: nat)
    requires start % 4 == 0 && forall f :: f in fields ==> !Unknown(f)
    ensures SizeFor(start, CountKind(fields, Reference), CountKind(fields, Narrow), CountKind(fields, Wide)) ==
            SizeFor(start, CountPrecomputed(fields, Reference), CountPrecomputed(fields, Narrow), CountPrecomputed(fields, Wide))
  {
    NoUnknown(fields);
    SizesAgreeExactly(fields, start);
  }

  lemma {:induction false} NoUnknown(fs: seq<ArtField>)
    requires forall f :: f in fs ==> !Unknown(f)
    ensures CountUnknown(fs) == 0
  {
    if fs != [] {
      NoUnknown(fs[..|fs| - 1]);
    }
  }
}
