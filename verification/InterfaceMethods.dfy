/** Finding implementations of interface methods, the interface method table (IMT) and miranda methods
    (runtime/class_linker.cc, LinkInterfaceMethods). */
module InterfaceMethods {
  import opened Options
  import opened Classes

  const IMT_SIZE := 64

  /** The last of the first `n` slots with the given name and signature; -1 if there is none. */
  function LastMatch(vtable: seq<ArtMethod>, key: Key, n: nat): (k: int)
    requires n <= |vtable|
    ensures -1 <= k < n && (k >= 0 ==> vtable[k].key == key)
    ensures forall i {:trigger vtable[i]} :: k < i < n ==> vtable[i].key != key
  {
    if n == 0 then -1 else if vtable[n - 1].key == key then n - 1 else LastMatch(vtable, key, n - 1)
  }

  function Found(vtable: seq<ArtMethod>, m: ArtMethod): int {
    LastMatch(vtable, m.key, |vtable|)
  }

  /** The implementation that is found may not implement an interface method. */
  predicate Hidden(vtable: seq<ArtMethod>, m: ArtMethod) {
    var k := Found(vtable, m);
    k >= 0 && !vtable[k].flags.isAbstract && !vtable[k].flags.isPublic
  }

  function ImtIndex(m: ArtMethod): (s: nat)
    ensures s < IMT_SIZE
  {
    m.dexMethodIndex % IMT_SIZE
  }

  /** Interface method `m` enters slot `s` of the IMT. */
  predicate Enters(vtable: seq<ArtMethod>, m: ArtMethod, s: nat) {
    Found(vtable, m) >= 0 && ImtIndex(m) == s
  }

  /** How many of the first `n` interface methods enter slot `s`. */
  function Entries(vtable: seq<ArtMethod>, wanted: seq<ArtMethod>, n: nat, s: nat): nat
    requires n <= |wanted|
  {
    if n == 0 then 0 else Entries(vtable, wanted, n - 1, s) + (if Enters(vtable, wanted[n - 1], s) then 1 else 0)
  }

  /** Slot `s` while the table is being filled: empty, the implementation of the one method that entered
      it, or the conflict method. */
  ghost predicate SlotHolds(vtable: seq<ArtMethod>, conflict: ArtMethod, wanted: seq<ArtMethod>, s: nat, entry: Option<ArtMethod>) {
    match Entries(vtable, wanted, |wanted|, s)
    case 0 => entry == None
    case 1 => exists q {:trigger wanted[q]} :: 0 <= q < |wanted| && Enters(vtable, wanted[q], s) && entry == Some(vtable[Found(vtable, wanted[q])])
    case _ => entry == Some(conflict)
  }

  ghost predicate ImtOk(vtable: seq<ArtMethod>, conflict: ArtMethod, wanted: seq<ArtMethod>, imt: seq<Option<ArtMethod>>) {
    |imt| == IMT_SIZE && forall s {:trigger imt[s]} :: 0 <= s < IMT_SIZE ==> SlotHolds(vtable, conflict, wanted, s, imt[s])
  }

  /** The list of mirandas: one for every interface method without an implementation, by name and signature. */
  ghost predicate MirandasOk(vtable: seq<ArtMethod>, wanted: seq<ArtMethod>, mirandas: seq<ArtMethod>) {
    && DistinctKeys(mirandas)
    && (forall x {:trigger mirandas[x]} :: 0 <= x < |mirandas| ==> IsMissing(vtable, wanted, mirandas[x].key))
    && (forall q {:trigger wanted[q]} :: 0 <= q < |wanted| && Found(vtable, wanted[q]) < 0 ==> HasKey(mirandas, wanted[q].key))
  }

  ghost predicate IsMissing(vtable: seq<ArtMethod>, wanted: seq<ArtMethod>, key: Key) {
    LastMatch(vtable, key, |vtable|) < 0 && HasKey(wanted, key)
  }

  ghost predicate HasKey(ms: seq<ArtMethod>, key: Key) {
    exists x {:trigger ms[x]} :: 0 <= x < |ms| && ms[x].key == key
  }

  /** `c` is what the method array holds for interface method `m`. */
  ghost predicate Chosen(vtable: seq<ArtMethod>, mirandas: seq<ArtMethod>, m: ArtMethod, c: ArtMethod) {
    c.key == m.key && (var k := Found(vtable, m); if k >= 0 then c == vtable[k] else c in mirandas)
  }

  // ---------- Steps ----------

  lemma {:induction false} EntriesKept(vtable: seq<ArtMethod>, wanted: seq<ArtMethod>, m: ArtMethod, n: nat, s: nat)
    requires n <= |wanted|
    ensures Entries(vtable, wanted + [m], n, s) == Entries(vtable, wanted, n, s)
    decreases n
  {
    if n > 0 {
      EntriesKept(vtable, wanted, m, n - 1, s);
    }
  }

  /** A slot after one more method: the first to enter it is written there, any later one makes it the
      conflict method. */
  lemma SlotStep(vtable: seq<ArtMethod>, conflict: ArtMethod, wanted: seq<ArtMethod>, m: ArtMethod, s: nat, entry: Option<ArtMethod>, entry': Option<ArtMethod>)
    requires SlotHolds(vtable, conflict, wanted, s, entry)
    requires if !Enters(vtable, m, s) then entry' == entry
             else if entry == None then entry' == Some(vtable[Found(vtable, m)]) else entry' == Some(conflict)
    ensures SlotHolds(vtable, conflict, wanted + [m], s, entry')
  {
    var wanted' := wanted + [m];
    EntriesKept(vtable, wanted, m, |wanted|, s);
    var n := Entries(vtable, wanted, |wanted|, s);
    assert Entries(vtable, wanted', |wanted'|, s) == n + (if Enters(vtable, m, s) then 1 else 0);
    if n == 1 && !Enters(vtable, m, s) {
      var q :| 0 <= q < |wanted| && Enters(vtable, wanted[q], s) && entry == Some(vtable[Found(vtable, wanted[q])]);
      assert wanted'[q] == wanted[q];
    } else if n == 0 && Enters(vtable, m, s) {
      assert wanted'[|wanted|] == m;
    }
  }

  /** Searches the vtable from its end. */
  method FindImplementation(vtable: seq<ArtMethod>, m: ArtMethod) returns (k: int)
    ensures k == Found(vtable, m)
  {
    k := |vtable| - 1;
    while k >= 0
      invariant -1 <= k < |vtable| && Found(vtable, m) == LastMatch(vtable, m.key, k + 1)
    {
      if m.key == vtable[k].key {
        return;
      }
      k := k - 1;
    }
  }

  /** Places an implementation in the IMT if its slot is empty, and the conflict method otherwise. */
  method EnterImt(vtable: seq<ArtMethod>, conflict: ArtMethod, ghost wanted: seq<ArtMethod>, m: ArtMethod, imt: seq<Option<ArtMethod>>)
    returns (imt': seq<Option<ArtMethod>>)
    requires Found(vtable, m) >= 0 && ImtOk(vtable, conflict, wanted, imt)
    ensures ImtOk(vtable, conflict, wanted + [m], imt')
  {
    var s := ImtIndex(m);
    var entry := if imt[s] == None then vtable[Found(vtable, m)] else conflict;
    imt' := imt[s := Some(entry)];
    forall i | 0 <= i < IMT_SIZE ensures SlotHolds(vtable, conflict, wanted + [m], i, imt'[i]) {
      SlotStep(vtable, conflict, wanted, m, i, imt[i], imt'[i]);
    }
  }

  lemma NotEntered(vtable: seq<ArtMethod>, conflict: ArtMethod, wanted: seq<ArtMethod>, m: ArtMethod, imt: seq<Option<ArtMethod>>)
    requires Found(vtable, m) < 0 && ImtOk(vtable, conflict, wanted, imt)
    ensures ImtOk(vtable, conflict, wanted + [m], imt)
  {
    forall i | 0 <= i < IMT_SIZE ensures SlotHolds(vtable, conflict, wanted + [m], i, imt[i]) {
      SlotStep(vtable, conflict, wanted, m, i, imt[i], imt[i]);
    }
  }

  lemma MirandasStep(vtable: seq<ArtMethod>, wanted: seq<ArtMethod>, m: ArtMethod, mirandas: seq<ArtMethod>, mirandas': seq<ArtMethod>)
    requires MirandasOk(vtable, wanted, mirandas)
    requires mirandas' == mirandas || (Found(vtable, m) < 0 && !HasKey(mirandas, m.key) && |mirandas'| == |mirandas| + 1 && mirandas <= mirandas' && mirandas'[|mirandas|].key == m.key)
    requires Found(vtable, m) < 0 ==> HasKey(mirandas', m.key)
    ensures MirandasOk(vtable, wanted + [m], mirandas')
  {
    var wanted' := wanted + [m];
    forall x | 0 <= x < |mirandas'| ensures IsMissing(vtable, wanted', mirandas'[x].key) {
      if x < |mirandas| {
        assert mirandas'[x] == mirandas[x] && IsMissing(vtable, wanted, mirandas[x].key);
        var q :| 0 <= q < |wanted| && wanted[q].key == mirandas[x].key;
        assert wanted'[q].key == mirandas'[x].key;
      } else {
        assert wanted'[|wanted|].key == m.key;
      }
    }
    forall q | 0 <= q < |wanted'| && Found(vtable, wanted'[q]) < 0 ensures HasKey(mirandas', wanted'[q].key) {
      if q < |wanted| {
        assert wanted'[q] == wanted[q] && HasKey(mirandas, wanted[q].key);
        var x :| 0 <= x < |mirandas| && mirandas[x].key == wanted[q].key;
        assert mirandas'[x] == mirandas[x];
      }
    }
  }

  /** The miranda for an interface method without implementation: one with the same name and signature,
      or a clone of the interface method. */
  method FindMiranda(m: ArtMethod, mirandas: seq<ArtMethod>) returns (c: ArtMethod, mirandas': seq<ArtMethod>)
    ensures c in mirandas' && c.key == m.key && mirandas <= mirandas'
    ensures if HasKey(mirandas, m.key) then mirandas' == mirandas else mirandas' == mirandas + [c] && fresh(c)
  {
    mirandas' := mirandas;
    for x := 0 to |mirandas|
      invariant forall y :: 0 <= y < x ==> mirandas[y].key != m.key
    {
      if m.key == mirandas[x].key {
        return mirandas[x], mirandas;
      }
    }
    c := new ArtMethod(m.key, m.declaringClass, m.flags, m.dexMethodIndex, m.methodIndex);
    mirandas' := mirandas + [c];
  }

  /** One interface method. */
  method LinkInterfaceMethod(vtable: seq<ArtMethod>, conflict: ArtMethod, ghost wanted: seq<ArtMethod>, m: ArtMethod, imt: seq<Option<ArtMethod>>, mirandas: seq<ArtMethod>)
    returns (ok: bool, c: ArtMethod, imt': seq<Option<ArtMethod>>, mirandas': seq<ArtMethod>)
    requires ImtOk(vtable, conflict, wanted, imt) && MirandasOk(vtable, wanted, mirandas)
    ensures ok <==> !Hidden(vtable, m)
    ensures mirandas <= mirandas' && forall x {:trigger mirandas'[x]} :: |mirandas| <= x < |mirandas'| ==> fresh(mirandas'[x])
    ensures ok ==> Chosen(vtable, mirandas', m, c)
    ensures ok ==> ImtOk(vtable, conflict, wanted + [m], imt') && MirandasOk(vtable, wanted + [m], mirandas')
  {
    ok, c, imt', mirandas' := true, m, imt, mirandas;
    var k := FindImplementation(vtable, m);
    if k >= 0 {
      if !vtable[k].flags.isAbstract && !vtable[k].flags.isPublic {
        ok := false;
        return;
      }
      c := vtable[k];
      imt' := EnterImt(vtable, conflict, wanted, m, imt);
    } else {
      c, mirandas' := FindMiranda(m, mirandas);
      NotEntered(vtable, conflict, wanted, m, imt);
    }
    assert HasKey(mirandas', c.key) || k >= 0;
    MirandasStep(vtable, wanted, m, mirandas, mirandas');
  }
}
