/** The table of loaded classes (runtime/class_linker.cc): a multimap by descriptor hash, in front of the
    classes of the boot image, which are looked up in the image until they are moved into the table. */
module ClassTable {
  import opened Options

  /** A class; `loader` 0 is the boot class loader. */
  datatype Class = Class(id: nat, descriptor: string, loader: nat)

  const BOOT := 0

  type Hash = string -> nat
  type Table = map<nat, seq<Class>>

  predicate Is(c: Class, descriptor: string, loader: nat) {
    c.descriptor == descriptor && c.loader == loader
  }

  function Bucket(t: Table, h: nat): seq<Class> {
    if h in t then t[h] else []
  }

  /** The first class in a bucket with the descriptor and loader. */
  function FindIn(b: seq<Class>, descriptor: string, loader: nat): (r: Option<Class>)
    ensures r.Some? ==> r.value in b && Is(r.value, descriptor, loader)
    ensures r.None? ==> forall c {:trigger c in b} :: c in b ==> !Is(c, descriptor, loader)
  {
    if b == [] then None
    else if Is(b[0], descriptor, loader) then Some(b[0])
    else
      assert forall c :: c in b ==> c == b[0] || c in b[1..];
      FindIn(b[1..], descriptor, loader)
  }

  function Find(t: Table, hash: Hash, descriptor: string, loader: nat): Option<Class> {
    FindIn(Bucket(t, hash(descriptor)), descriptor, loader)
  }

  /** The table with one more class. */
  function Added(t: Table, hash: Hash, c: Class): Table {
    t[hash(c.descriptor) := Bucket(t, hash(c.descriptor)) + [c]]
  }

  /** Every class is in the bucket of its descriptor, and no two have the same descriptor and loader. */
  ghost predicate TableOk(t: Table, hash: Hash) {
    forall h {:trigger t[h]} :: h in t ==> BucketOk(t[h], hash, h)
  }

  ghost predicate BucketOk(b: seq<Class>, hash: Hash, h: nat) {
    && (forall c {:trigger c in b} :: c in b ==> hash(c.descriptor) == h)
    && (forall i, j {:trigger b[i], b[j]} :: 0 <= i < j < |b| ==> !Is(b[i], b[j].descriptor, b[j].loader))
  }

  /** `c` is in the table. */
  predicate Holds(t: Table, hash: Hash, c: Class) {
    c in Bucket(t, hash(c.descriptor))
  }

  lemma {:induction false} FindInAppended(b: seq<Class>, c: Class, descriptor: string, loader: nat)
    ensures FindIn(b + [c], descriptor, loader) ==
            (if FindIn(b, descriptor, loader).Some? then FindIn(b, descriptor, loader) else if Is(c, descriptor, loader) then Some(c) else None)
  {
    if b == [] {
      assert [] + [c] == [c];
    } else {
      assert (b + [c])[1..] == b[1..] + [c];
      FindInAppended(b[1..], c, descriptor, loader);
    }
  }

  /** What is found after adding a class. */
  lemma FindAdded(t: Table, hash: Hash, c: Class, descriptor: string, loader: nat)
    ensures Find(Added(t, hash, c), hash, descriptor, loader) ==
            (if Find(t, hash, descriptor, loader).Some? then Find(t, hash, descriptor, loader) else if Is(c, descriptor, loader) then Some(c) else None)
  {
    FindInAppended(Bucket(t, hash(c.descriptor)), c, descriptor, loader);
  }

  lemma AddedOk(t: Table, hash: Hash, c: Class)
    requires TableOk(t, hash) && Find(t, hash, c.descriptor, c.loader).None?
    ensures TableOk(Added(t, hash, c), hash)
  {
    var h := hash(c.descriptor);
    var b := Bucket(t, h);
    assert BucketOk(b, hash, h);
    forall i | 0 <= i < |b| ensures !Is(b[i], c.descriptor, c.loader) {
      assert b[i] in b;
    }
  }

  /** In a well-formed table a class is found by its descriptor and loader exactly if it is there. */
  lemma {:induction false} FoundInBucket(b: seq<Class>, c: Class)
    requires c in b && forall i, j {:trigger b[i], b[j]} :: 0 <= i < j < |b| ==> !Is(b[i], b[j].descriptor, b[j].loader)
    ensures FindIn(b, c.descriptor, c.loader) == Some(c)
  {
    var i :| 0 <= i < |b| && b[i] == c;
    if i > 0 {
      assert !Is(b[0], b[i].descriptor, b[i].loader);
      assert b[1..][i - 1] == c;
      FoundInBucket(b[1..], c);
    }
  }

  lemma FoundExactly(t: Table, hash: Hash, c: Class)
    requires TableOk(t, hash)
    ensures Find(t, hash, c.descriptor, c.loader) == Some(c) <==> Holds(t, hash, c)
  {
    var b := Bucket(t, hash(c.descriptor));
    assert BucketOk(b, hash, hash(c.descriptor));
    if c in b {
      FoundInBucket(b, c);
    }
  }

  /** The table never holds two classes with the same descriptor and loader. */
  lemma Unique(t: Table, hash: Hash, a: Class, b: Class)
    requires TableOk(t, hash) && Holds(t, hash, a) && Holds(t, hash, b) && Is(a, b.descriptor, b.loader)
    ensures a == b
  {
    FoundExactly(t, hash, a);
    FoundExactly(t, hash, b);
  }

  // ---------- The image ----------

  /** The resolved types of the dex caches of the image. */
  type Image = seq<seq<Option<Class>>>

  /** The class with the descriptor in one dex cache, through its type index. */
  function FindInCache(cache: seq<Option<Class>>, descriptor: string): (r: Option<Class>)
    ensures r.Some? ==> r in cache && r.value.descriptor == descriptor
    ensures r.None? ==> forall e {:trigger e in cache} :: e in cache && e.Some? ==> e.value.descriptor != descriptor
  {
    if cache == [] then None
    else if cache[0].Some? && cache[0].value.descriptor == descriptor then cache[0]
    else
      assert forall e :: e in cache ==> e == cache[0] || e in cache[1..];
      FindInCache(cache[1..], descriptor)
  }

  /** The class with the descriptor in the first dex cache that has one. */
  function FindInImage(image: Image, descriptor: string): (r: Option<Class>)
    ensures r.Some? ==> InImage(image, r.value) && r.value.descriptor == descriptor
    ensures r.None? ==> forall cache, e {:trigger e in cache, cache in image} :: cache in image && e in cache && e.Some? ==> e.value.descriptor != descriptor
  {
    if image == [] then None
    else
      assert image[0] in image && forall cache :: cache in image ==> cache == image[0] || cache in image[1..];
      assert forall cache :: cache in image[1..] ==> cache in image;
      if FindInCache(image[0], descriptor).Some? then FindInCache(image[0], descriptor)
      else FindInImage(image[1..], descriptor)
  }

  predicate InImage(image: Image, c: Class) {
    exists cache {:trigger cache in image} :: cache in image && Some(c) in cache
  }

  /** Image classes belong to the boot loader, and a descriptor names one of them. */
  ghost predicate ImageOk(image: Image) {
    && (forall c {:trigger InImage(image, c)} :: InImage(image, c) ==> c.loader == BOOT)
    && (forall a, b {:trigger InImage(image, a), InImage(image, b)} :: InImage(image, a) && InImage(image, b) && a.descriptor == b.descriptor ==> a == b)
  }

  lemma ImageFindExact(image: Image, c: Class)
    requires ImageOk(image)
    ensures InImage(image, c) <==> FindInImage(image, c.descriptor) == Some(c)
  {
    if InImage(image, c) {
      var r := FindInImage(image, c.descriptor);
      var cache :| cache in image && Some(c) in cache;
      if r.None? {
        assert false;
      }
      assert InImage(image, r.value);
    }
  }

  /** What a lookup is to answer: the class in the table, and while the image is still in use, the class
      in the image for the boot loader. */
  function View(t: Table, hash: Hash, image: Image, required: bool, descriptor: string, loader: nat): Option<Class> {
    var r := Find(t, hash, descriptor, loader);
    if r.Some? then r else if loader == BOOT && required then FindInImage(image, descriptor) else None
  }

  // ---------- Moving the image into the table ----------

  /** The table after the classes of one dex cache are added to it, each unless it is there. */
  function Moved(t: Table, hash: Hash, cache: seq<Option<Class>>): Table {
    if cache == [] then t
    else
      var t' := Moved(t, hash, cache[..|cache| - 1]);
      var e := cache[|cache| - 1];
      if e.Some? && Find(t', hash, e.value.descriptor, BOOT).None? then Added(t', hash, e.value) else t'
  }

  function AllMoved(t: Table, hash: Hash, image: Image, n: nat): Table
    requires n <= |image|
  {
    if n == 0 then t else Moved(AllMoved(t, hash, image, n - 1), hash, image[n - 1])
  }

  /** Classes of the boot loader that are in the table and whose descriptor the image has are its classes. */
  ghost predicate Consistent(t: Table, hash: Hash, image: Image) {
    forall d {:trigger Find(t, hash, d, BOOT)} :: Find(t, hash, d, BOOT).Some? && FindInImage(image, d).Some? ==> Find(t, hash, d, BOOT) == FindInImage(image, d)
  }

  /** The check of `MoveImageClassesToClassTable` for one dex cache: what is already in the table under a
      descriptor of the cache is the class of the cache. */
  predicate Agrees(t: Table, hash: Hash, cache: seq<Option<Class>>) {
    forall e {:trigger e in cache} :: e in cache && e.Some? ==> Find(t, hash, e.value.descriptor, BOOT) in {None, e}
  }

  predicate Movable(t: Table, hash: Hash, image: Image) {
    forall cache {:trigger cache in image} :: cache in image ==> Agrees(t, hash, cache)
  }

  /** The checks hold exactly if the table is consistent with the image. */
  lemma MovableExactly(t: Table, hash: Hash, image: Image)
    requires ImageOk(image)
    ensures Movable(t, hash, image) <==> Consistent(t, hash, image)
  {
    if Consistent(t, hash, image) {
      forall cache, e | cache in image && e in cache && e.Some? ensures Find(t, hash, e.value.descriptor, BOOT) in {None, e} {
        assert InImage(image, e.value);
        ImageFindExact(image, e.value);
      }
    }
    if Movable(t, hash, image) {
      forall d | Find(t, hash, d, BOOT).Some? && FindInImage(image, d).Some? ensures Find(t, hash, d, BOOT) == FindInImage(image, d) {
        var r := FindInImage(image, d);
        var cache :| cache in image && r in cache;
        assert Agrees(t, hash, cache);
      }
    }
  }

  lemma NoneDisagrees(t: Table, hash: Hash)
    ensures Agrees(t, hash, [])
  {
  }

  lemma AgreesUpTo(t: Table, hash: Hash, cache: seq<Option<Class>>, j: nat)
    requires j < |cache|
    ensures Agrees(t, hash, cache[..j + 1]) <==>
            Agrees(t, hash, cache[..j]) && (cache[j].Some? ==> Find(t, hash, cache[j].value.descriptor, BOOT) in {None, cache[j]})
    ensures Agrees(t, hash, cache) ==> Agrees(t, hash, cache[..j + 1])
  {
    assert cache[..j + 1] == cache[..j] + [cache[j]];
    assert cache[j] in cache[..j + 1] && cache[j] in cache;
    forall e ensures (e in cache[..j + 1] <==> e in cache[..j] || e == cache[j]) && (e in cache[..j + 1] ==> e in cache) {
    }
  }

  /** Moving classes of the image does not make a check fail or hold. */
  lemma AgreesStays(t: Table, t': Table, hash: Hash, image: Image, e: Option<Class>)
    requires ImageOk(image) && Grown(t, t', hash, image) && e.Some? && InImage(image, e.value)
    ensures Find(t', hash, e.value.descriptor, BOOT) in {None, e} <==> Find(t, hash, e.value.descriptor, BOOT) in {None, e}
  {
    ImageFindExact(image, e.value);
    assert Find(t', hash, e.value.descriptor, BOOT) == Find(t', hash, e.value.descriptor, BOOT);
  }

  /** What moving some image classes does to lookups: nothing that was found changes, and what is new is
      a class of the image. */
  ghost predicate Grown(t: Table, t': Table, hash: Hash, image: Image) {
    forall d, l {:trigger Find(t', hash, d, l)} ::
      Find(t', hash, d, l) == Find(t, hash, d, l) || (l == BOOT && Find(t, hash, d, l).None? && Find(t', hash, d, l) == FindInImage(image, d))
  }

  lemma AddFromImage(t: Table, t': Table, hash: Hash, image: Image, c: Class)
    requires TableOk(t', hash) && Grown(t, t', hash, image) && ImageOk(image) && InImage(image, c) && Find(t', hash, c.descriptor, BOOT).None?
    ensures TableOk(Added(t', hash, c), hash) && Grown(t, Added(t', hash, c), hash, image)
  {
    AddedOk(t', hash, c);
    ImageFindExact(image, c);
    forall d, l ensures var r := Find(Added(t', hash, c), hash, d, l);
                        r == Find(t, hash, d, l) || (l == BOOT && Find(t, hash, d, l).None? && r == FindInImage(image, d))
    {
      FindAdded(t', hash, c, d, l);
      assert Find(t', hash, d, l) == Find(t', hash, d, l);
    }
  }

  lemma {:induction false} MovedGrows(t: Table, t0: Table, hash: Hash, image: Image, cache: seq<Option<Class>>)
    requires TableOk(t0, hash) && Grown(t, t0, hash, image) && ImageOk(image)
    requires forall e {:trigger e in cache} :: e in cache && e.Some? ==> InImage(image, e.value)
    ensures TableOk(Moved(t0, hash, cache), hash) && Grown(t, Moved(t0, hash, cache), hash, image)
    ensures forall e {:trigger e in cache} :: e in cache && e.Some? ==> Find(Moved(t0, hash, cache), hash, e.value.descriptor, BOOT).Some?
    ensures forall d {:trigger Find(t0, hash, d, BOOT)} :: Find(t0, hash, d, BOOT).Some? ==> Find(Moved(t0, hash, cache), hash, d, BOOT).Some?
    decreases |cache|
  {
    if cache != [] {
      var rest, e := cache[..|cache| - 1], cache[|cache| - 1];
      assert forall x :: x in rest ==> x in cache;
      MovedGrows(t, t0, hash, image, rest);
      var t' := Moved(t0, hash, rest);
      assert e in cache;
      if e.Some? && Find(t', hash, e.value.descriptor, BOOT).None? {
        AddFromImage(t, t', hash, image, e.value);
        forall d ensures Find(t', hash, d, BOOT).Some? ==> Find(Moved(t0, hash, cache), hash, d, BOOT).Some? {
          FindAdded(t', hash, e.value, d, BOOT);
        }
        FindAdded(t', hash, e.value, e.value.descriptor, BOOT);
      }
      assert forall x :: x in cache ==> x in rest || x == e;
    }
  }

  lemma {:induction false} AllMovedGrows(t: Table, hash: Hash, image: Image, n: nat)
    requires TableOk(t, hash) && ImageOk(image) && n <= |image|
    ensures TableOk(AllMoved(t, hash, image, n), hash) && Grown(t, AllMoved(t, hash, image, n), hash, image)
    ensures forall i, e {:trigger e in image[i]} :: 0 <= i < n && e in image[i] && e.Some? ==> Find(AllMoved(t, hash, image, n), hash, e.value.descriptor, BOOT).Some?
    decreases n
  {
    if n > 0 {
      AllMovedGrows(t, hash, image, n - 1);
      forall e | e in image[n - 1] && e.Some? ensures InImage(image, e.value) {
        assert image[n - 1] in image;
      }
      MovedGrows(t, AllMoved(t, hash, image, n - 1), hash, image, image[n - 1]);
    }
  }

  /** Moving the image into the table changes no answer: what a lookup answered from the image it then
      answers from the table. */
  lemma FlushKeepsView(t: Table, hash: Hash, image: Image, d: string, l: nat)
    requires TableOk(t, hash) && ImageOk(image)
    ensures View(AllMoved(t, hash, image, |image|), hash, image, false, d, l) == View(t, hash, image, true, d, l)
  {
    var t' := AllMoved(t, hash, image, |image|);
    AllMovedGrows(t, hash, image, |image|);
    assert Find(t', hash, d, l) == Find(t', hash, d, l);
    var r := FindInImage(image, d);
    if l == BOOT && r.Some? {
      var cache :| cache in image && r in cache;
      var i :| 0 <= i < |image| && image[i] == cache;
      assert r in image[i];
    }
  }

  lemma NothingMoved(t: Table, hash: Hash, image: Image)
    ensures Grown(t, t, hash, image)
  {
  }

  lemma CacheInImage(image: Image, i: nat)
    requires i < |image|
    ensures forall e {:trigger e in image[i]} :: e in image[i] && e.Some? ==> InImage(image, e.value)
  {
    assert image[i] in image;
  }

  lemma GrownConsistent(t: Table, t': Table, hash: Hash, image: Image)
    requires Consistent(t, hash, image) && Grown(t, t', hash, image)
    ensures Consistent(t', hash, image)
  {
    forall d | Find(t', hash, d, BOOT).Some? && FindInImage(image, d).Some? ensures Find(t', hash, d, BOOT) == FindInImage(image, d) {
      assert Find(t, hash, d, BOOT) == Find(t, hash, d, BOOT);
    }
  }

  /** Class `c` of the boot loader is about to enter the table under a descriptor that names another class,
      of an image that has not been moved. */
  predicate Clashes(t: Table, hash: Hash, image: Image, required: bool, c: Class) {
    && c.loader == BOOT && required && Find(t, hash, c.descriptor, BOOT).None?
    && FindInImage(image, c.descriptor).Some? && FindInImage(image, c.descriptor) != Some(c)
  }

  // ---------- The linker's table ----------

  const MAX_FAILED_LOOKUPS := 1000

  class LoadedClasses {
    const hash: Hash
    const image: Image
    /** A debug build makes more checks. */
    const debug: bool
    var classTable: Table
    var imageLookupRequired: bool
    var failedLookups: nat

    constructor (hash: Hash, image: Image, debug: bool)
      ensures this.hash == hash && this.image == image && this.debug == debug
      ensures classTable == map[] && imageLookupRequired && failedLookups == 0
    {
      this.hash, this.image, this.debug := hash, image, debug;
      classTable, imageLookupRequired, failedLookups := map[], true, 0;
    }

    ghost predicate Valid()
      reads this
    {
      && TableOk(classTable, hash) && ImageOk(image) && Consistent(classTable, hash, image)
      && (!imageLookupRequired ==> forall d {:trigger FindInImage(image, d)} :: FindInImage(image, d).Some? ==> Find(classTable, hash, d, BOOT).Some?)
    }

    /** What lookups answer now. */
    ghost function Answer(descriptor: string, loader: nat): Option<Class>
      reads this
    {
      View(classTable, hash, image, imageLookupRequired, descriptor, loader)
    }

    /** `LookupClassFromTableLocked`; a debug build checks that there is no second match. */
    method LookupClassFromTableLocked(descriptor: string, loader: nat) returns (r: Option<Class>)
      requires TableOk(classTable, hash)
      ensures r == Find(classTable, hash, descriptor, loader)
    {
      var b := Bucket(classTable, hash(descriptor));
      assert BucketOk(b, hash, hash(descriptor));
      assert b[0..] == b;
      for i := 0 to |b|
        invariant FindIn(b, descriptor, loader) == FindIn(b[i..], descriptor, loader)
      {
        assert b[i..][1..] == b[i + 1..];
        if b[i].loader == loader && b[i].descriptor == descriptor {
          assert forall j :: i < j < |b| ==> !Is(b[j], descriptor, loader);
          return Some(b[i]);
        }
      }
      r := None;
    }

    /** `InsertClass`: the class already there, or nothing after adding the new one.  A debug build aborts
        exactly if that would put another class than the image's beside it. */
    method InsertClass(klass: Class) returns (ok: bool, existing: Option<Class>)
      requires TableOk(classTable, hash)
      modifies this`classTable
      ensures ok <==> !(debug && Clashes(old(classTable), hash, image, imageLookupRequired, klass))
      ensures existing == old(Find(classTable, hash, klass.descriptor, klass.loader)) && TableOk(classTable, hash)
      ensures ok ==> classTable == if existing.Some? then old(classTable) else Added(old(classTable), hash, klass)
      ensures ok ==> Find(classTable, hash, klass.descriptor, klass.loader) == (if existing.Some? then existing else Some(klass))
    {
      ok := true;
      existing := LookupClassFromTableLocked(klass.descriptor, klass.loader);
      if existing.Some? {
        return;
      }
      if debug && klass.loader == BOOT && imageLookupRequired {
        var inImage := LookupClassFromImage(klass.descriptor);
        if inImage.Some? && inImage.value != klass {
          return false, None;
        }
      }
      AddedOk(classTable, hash, klass);
      FindAdded(classTable, hash, klass, klass.descriptor, klass.loader);
      classTable := Added(classTable, hash, klass);
    }

    /** `LookupClassFromImage`. */
    method LookupClassFromImage(descriptor: string) returns (r: Option<Class>)
      ensures r == FindInImage(image, descriptor)
    {
      assert image[0..] == image;
      for i := 0 to |image|
        invariant FindInImage(image, descriptor) == FindInImage(image[i..], descriptor)
      {
        assert image[i..][1..] == image[i + 1..];
        r := FindInCache(image[i], descriptor);
        if r.Some? {
          return;
        }
      }
      r := None;
    }

    /** One dex cache of `MoveImageClassesToClassTable`, when the table has grown from `t0`; it aborts exactly if
        a class of the cache is not the one in the table. */
    method MoveCache(cache: seq<Option<Class>>, ghost t0: Table) returns (ok: bool)
      requires TableOk(classTable, hash) && ImageOk(image) && Grown(t0, classTable, hash, image)
      requires forall e {:trigger e in cache} :: e in cache && e.Some? ==> InImage(image, e.value)
      modifies this`classTable
      ensures ok <==> Agrees(t0, hash, cache)
      ensures ok ==> classTable == Moved(old(classTable), hash, cache) && TableOk(classTable, hash) && Grown(t0, classTable, hash, image)
    {
      assert cache[..0] == [];
      hide TableOk, Grown, ImageOk, Agrees, Added, Find;
      assert Agrees(t0, hash, cache[..0]) by {
        NoneDisagrees(t0, hash);
      }
      for j := 0 to |cache|
        invariant TableOk(classTable, hash) && Grown(t0, classTable, hash, image) && classTable == Moved(old(classTable), hash, cache[..j])
        invariant Agrees(t0, hash, cache[..j])
      {
        assert cache[..j + 1][..j] == cache[..j];
        AgreesUpTo(t0, hash, cache, j);
        if cache[j].Some? {
          var klass := cache[j].value;
          assert cache[j] in cache;
          AgreesStays(t0, classTable, hash, image, cache[j]);
          var existing := LookupClassFromTableLocked(klass.descriptor, BOOT);
          if existing.Some? {
            if existing.value != klass {
              return false;
            }
          } else {
            AddFromImage(t0, classTable, hash, image, klass);
            classTable := Added(classTable, hash, klass);
          }
        }
      }
      assert cache[..|cache|] == cache;
      ok := true;
    }

    /** The loop over the dex caches. */
    method MoveCaches() returns (ok: bool)
      requires TableOk(classTable, hash) && ImageOk(image)
      modifies this`classTable
      ensures ok <==> Movable(old(classTable), hash, image)
      ensures ok ==> classTable == AllMoved(old(classTable), hash, image, |image|)
    {
      ghost var t0 := classTable;
      NothingMoved(t0, hash, image);
      hide TableOk, Grown, Agrees, ImageOk, Moved;
      for i := 0 to |image|
        invariant TableOk(classTable, hash) && Grown(t0, classTable, hash, image) && classTable == AllMoved(t0, hash, image, i)
        invariant forall k :: 0 <= k < i ==> Agrees(t0, hash, image[k])
      {
        assert image[i] in image;
        CacheInImage(image, i);
        ok := MoveCache(image[i], t0);
        if !ok {
          return;
        }
      }
      ok := true;
    }

    /** `MoveImageClassesToClassTable`: afterwards the image is not needed any more, and no answer has changed.
        It aborts exactly if the image is needed and the table is not consistent with it. */
    method MoveImageClassesToClassTable() returns (ok: bool)
      requires TableOk(classTable, hash) && ImageOk(image) && (!imageLookupRequired ==> Valid())
      modifies this`classTable, this`imageLookupRequired
      ensures ok <==> old(Consistent(classTable, hash, image))
      ensures ok ==> Valid() && !imageLookupRequired
      ensures ok ==> forall d, l {:trigger Answer(d, l)} :: Answer(d, l) == old(Answer(d, l))
    {
      if !imageLookupRequired {
        return true;
      }
      ghost var t0 := classTable;
      MovableExactly(t0, hash, image);
      ok := MoveCaches();
      if ok {
        imageLookupRequired := false;
        AllMovedGrows(t0, hash, image, |image|);
        AfterFlush(t0, hash, image);
        GrownConsistent(t0, classTable, hash, image);
      }
    }

    /** `LookupClass`, run without interference: it answers what it should, and changes no answer. */
    method LookupClass(descriptor: string, loader: nat) returns (r: Option<Class>)
      requires Valid()
      modifies this
      ensures Valid() && r == old(Answer(descriptor, loader))
      ensures forall d, l {:trigger Answer(d, l)} :: Answer(d, l) == old(Answer(d, l))
    {
      r := LookupClassFromTableLocked(descriptor, loader);
      if r.Some? {
        return;
      }
      if loader != BOOT || !imageLookupRequired {
        return None;
      }
      r := LookupClassFromImage(descriptor);
      if r.Some? {
        CacheStep(classTable, hash, image, r.value);
        ImageFindExact(image, r.value);
        var ok, _ := InsertClass(r.value);
        assert ok;
      } else {
        failedLookups := failedLookups + 1;
        if failedLookups > MAX_FAILED_LOOKUPS {
          var ok := MoveImageClassesToClassTable();
          assert ok;
        }
      }
    }
  }

  lemma StaysConsistent(t: Table, hash: Hash, image: Image, c: Class)
    requires Consistent(t, hash, image) && ImageOk(image) && InImage(image, c)
    ensures Consistent(Added(t, hash, c), hash, image)
  {
    ImageFindExact(image, c);
    forall d ensures Find(Added(t, hash, c), hash, d, BOOT).Some? && FindInImage(image, d).Some? ==> Find(Added(t, hash, c), hash, d, BOOT) == FindInImage(image, d) {
      FindAdded(t, hash, c, d, BOOT);
      assert Find(t, hash, d, BOOT) == Find(t, hash, d, BOOT);
    }
  }

  lemma AfterFlush(t: Table, hash: Hash, image: Image)
    requires TableOk(t, hash) && ImageOk(image)
    ensures var t' := AllMoved(t, hash, image, |image|);
            && (forall d, l {:trigger View(t', hash, image, false, d, l)} :: View(t', hash, image, false, d, l) == View(t, hash, image, true, d, l))
            && (forall d {:trigger FindInImage(image, d)} :: FindInImage(image, d).Some? ==> Find(t', hash, d, BOOT).Some?)
  {
    var t' := AllMoved(t, hash, image, |image|);
    forall d, l ensures View(t', hash, image, false, d, l) == View(t, hash, image, true, d, l) {
      FlushKeepsView(t, hash, image, d, l);
    }
    forall d | FindInImage(image, d).Some? ensures Find(t', hash, d, BOOT).Some? {
      FlushKeepsView(t, hash, image, d, BOOT);
    }
  }

  /** Putting a class found in the image into the table changes no answer. */
  lemma CacheStep(t: Table, hash: Hash, image: Image, c: Class)
    requires TableOk(t, hash) && ImageOk(image) && Consistent(t, hash, image) && InImage(image, c)
    ensures Consistent(Added(t, hash, c), hash, image)
    ensures forall d, l {:trigger View(Added(t, hash, c), hash, image, true, d, l)} ::
              View(Added(t, hash, c), hash, image, true, d, l) == View(t, hash, image, true, d, l)
  {
    StaysConsistent(t, hash, image, c);
    ImageFindExact(image, c);
    forall d, l ensures View(Added(t, hash, c), hash, image, true, d, l) == View(t, hash, image, true, d, l) {
      FindAdded(t, hash, c, d, l);
    }
  }
}
