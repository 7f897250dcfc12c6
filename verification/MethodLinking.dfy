/** Linking the methods of a class (runtime/class_linker.cc, LinkMethods and LinkInterfaceMethods). */
module MethodLinking {
  import opened Options
  import opened Classes
  import opened VirtualMethods
  import opened InterfaceTables
  import opened InterfaceMethods

  /** The methods of the first `n` interfaces, in the order in which they are linked. */
  function AllMethods(ifaces: seq<Class>, n: nat): seq<ArtMethod>
    requires n <= |ifaces|
    reads ifaces
  {
    if n == 0 then [] else AllMethods(ifaces, n - 1) + ifaces[n - 1].virtualMethods
  }

  /** The rows of an interface table: for every method of the interface, what was chosen for it. */
  ghost predicate RowsOk(vtable: seq<ArtMethod>, mirandas: seq<ArtMethod>, ifaces: seq<Class>, entries: seq<IfEntry>, n: nat)
    reads ifaces
  {
    && n <= |ifaces| && |entries| == n
    && forall i {:trigger entries[i]} :: 0 <= i < n ==>
         entries[i].iface == ifaces[i] && RowOk(vtable, mirandas, ifaces[i].virtualMethods, entries[i].methods)
  }

  ghost predicate RowOk(vtable: seq<ArtMethod>, mirandas: seq<ArtMethod>, wanted: seq<ArtMethod>, methods: seq<ArtMethod>) {
    |methods| == |wanted| && forall j {:trigger methods[j]} :: 0 <= j < |methods| ==> Chosen(vtable, mirandas, wanted[j], methods[j])
  }

  lemma RowsKept(vtable: seq<ArtMethod>, mirandas: seq<ArtMethod>, mirandas': seq<ArtMethod>, ifaces: seq<Class>, entries: seq<IfEntry>, n: nat)
    requires RowsOk(vtable, mirandas, ifaces, entries, n) && mirandas <= mirandas'
    ensures RowsOk(vtable, mirandas', ifaces, entries, n)
  {
    forall i | 0 <= i < n ensures RowOk(vtable, mirandas', ifaces[i].virtualMethods, entries[i].methods) {
      assert RowOk(vtable, mirandas, ifaces[i].virtualMethods, entries[i].methods);
    }
  }

  ghost predicate NoneHidden(vtable: seq<ArtMethod>, wanted: seq<ArtMethod>) {
    forall q {:trigger wanted[q]} :: 0 <= q < |wanted| ==> !Hidden(vtable, wanted[q])
  }

  /** The methods of one interface, behind those of `before`. */
  method LinkRow(vtable: seq<ArtMethod>, conflict: ArtMethod, ghost before: seq<ArtMethod>, wanted: seq<ArtMethod>, imt0: seq<Option<ArtMethod>>, mirandas0: seq<ArtMethod>)
    returns (ok: bool, methods: seq<ArtMethod>, imt: seq<Option<ArtMethod>>, mirandas: seq<ArtMethod>)
    requires ImtOk(vtable, conflict, before, imt0) && MirandasOk(vtable, before, mirandas0)
    ensures ok <==> NoneHidden(vtable, wanted)
    ensures mirandas0 <= mirandas && forall x {:trigger mirandas[x]} :: |mirandas0| <= x < |mirandas| ==> fresh(mirandas[x])
    ensures ok ==> RowOk(vtable, mirandas, wanted, methods)
    ensures ok ==> ImtOk(vtable, conflict, before + wanted, imt) && MirandasOk(vtable, before + wanted, mirandas)
  {
    ok, methods, imt, mirandas := true, [], imt0, mirandas0;
    assert before + wanted[..0] == before;
    for j := 0 to |wanted|
      invariant ok && NoneHidden(vtable, wanted[..j])
      invariant mirandas0 <= mirandas && forall x {:trigger mirandas[x]} :: |mirandas0| <= x < |mirandas| ==> fresh(mirandas[x])
      invariant RowOk(vtable, mirandas, wanted[..j], methods)
      invariant ImtOk(vtable, conflict, before + wanted[..j], imt) && MirandasOk(vtable, before + wanted[..j], mirandas)
    {
      hide ImtOk, MirandasOk, Chosen, Hidden;
      ghost var mirandasBefore := mirandas;
      var c;
      ok, c, imt, mirandas := LinkInterfaceMethod(vtable, conflict, before + wanted[..j], wanted[j], imt, mirandas);
      if !ok {
        return;
      }
      assert wanted[..j + 1] == wanted[..j] + [wanted[j]];
      assert before + wanted[..j + 1] == before + wanted[..j] + [wanted[j]];
      RowGrows(vtable, mirandasBefore, mirandas, wanted, methods, j, c);
      methods := methods + [c];
    }
    assert wanted[..|wanted|] == wanted;
  }

  lemma RowGrows(vtable: seq<ArtMethod>, mirandas: seq<ArtMethod>, mirandas': seq<ArtMethod>, wanted: seq<ArtMethod>, methods: seq<ArtMethod>, j: nat, c: ArtMethod)
    requires j < |wanted| && RowOk(vtable, mirandas, wanted[..j], methods) && mirandas <= mirandas' && Chosen(vtable, mirandas', wanted[j], c)
    ensures RowOk(vtable, mirandas', wanted[..j + 1], methods + [c])
  {
    forall i | 0 <= i <= j ensures Chosen(vtable, mirandas', wanted[..j + 1][i], (methods + [c])[i]) {
      assert i < j ==> Chosen(vtable, mirandas, wanted[..j][i], methods[i]);
    }
  }

  /** All interfaces of a class.  It fails exactly when an implementation that is found is neither
      abstract nor public. */
  method LinkRows(vtable: seq<ArtMethod>, conflict: ArtMethod, ifaces: seq<Class>)
    returns (ok: bool, entries: seq<IfEntry>, imt: seq<Option<ArtMethod>>, mirandas: seq<ArtMethod>)
    ensures ok <==> NoneHidden(vtable, AllMethods(ifaces, |ifaces|))
    ensures forall x {:trigger mirandas[x]} :: 0 <= x < |mirandas| ==> fresh(mirandas[x])
    ensures ok ==> RowsOk(vtable, mirandas, ifaces, entries, |ifaces|)
    ensures ok ==> ImtOk(vtable, conflict, AllMethods(ifaces, |ifaces|), imt) && MirandasOk(vtable, AllMethods(ifaces, |ifaces|), mirandas)
  {
    ok, entries, imt, mirandas := true, [], seq(IMT_SIZE, _ => None), [];
    for i := 0 to |ifaces|
      invariant ok && NoneHidden(vtable, AllMethods(ifaces, i))
      invariant forall x {:trigger mirandas[x]} :: 0 <= x < |mirandas| ==> fresh(mirandas[x])
      invariant RowsOk(vtable, mirandas, ifaces, entries, i)
      invariant ImtOk(vtable, conflict, AllMethods(ifaces, i), imt) && MirandasOk(vtable, AllMethods(ifaces, i), mirandas)
    {
      hide ImtOk, MirandasOk, Chosen, Hidden, RowOk;
      ghost var before, mirandasBefore := AllMethods(ifaces, i), mirandas;
      var wanted, methods := ifaces[i].virtualMethods, [];
      ok, methods, imt, mirandas := LinkRow(vtable, conflict, before, wanted, imt, mirandas);
      NoneHiddenJoin(vtable, before, wanted);
      AllMethodsPrefix(ifaces, i + 1, |ifaces|);
      NoneHiddenPrefix(vtable, before + wanted, AllMethods(ifaces, |ifaces|));
      if !ok {
        return;
      }
      RowsKept(vtable, mirandasBefore, mirandas, ifaces, entries, i);
      entries := entries + [IfEntry(ifaces[i], methods)];
    }
  }

  lemma NoneHiddenJoin(vtable: seq<ArtMethod>, a: seq<ArtMethod>, b: seq<ArtMethod>)
    ensures NoneHidden(vtable, a + b) <==> NoneHidden(vtable, a) && NoneHidden(vtable, b)
  {
    if NoneHidden(vtable, a + b) {
      forall q | 0 <= q < |a| ensures !Hidden(vtable, a[q]) {
        assert (a + b)[q] == a[q];
      }
      forall q | 0 <= q < |b| ensures !Hidden(vtable, b[q]) {
        assert (a + b)[|a| + q] == b[q];
      }
    }
  }

  lemma NoneHiddenPrefix(vtable: seq<ArtMethod>, a: seq<ArtMethod>, b: seq<ArtMethod>)
    requires a <= b
    ensures NoneHidden(vtable, b) ==> NoneHidden(vtable, a)
  {
    NoneHiddenJoin(vtable, a, b[|a|..]);
    assert a + b[|a|..] == b;
  }

  lemma {:induction false} AllMethodsPrefix(ifaces: seq<Class>, i: nat, j: nat)
    requires i <= j <= |ifaces|
    ensures AllMethods(ifaces, i) <= AllMethods(ifaces, j)
    decreases j - i
  {
    if i < j {
      AllMethodsPrefix(ifaces, i, j - 1);
    }
  }

  // ---------- Installing the results ----------

  /** The finished IMT: the implementation of the only method that enters a slot, and otherwise the
      conflict method. */
  ghost predicate ImtFinal(vtable: seq<ArtMethod>, conflict: ArtMethod, wanted: seq<ArtMethod>, imTable: seq<ArtMethod>) {
    |imTable| == IMT_SIZE && forall s {:trigger imTable[s]} :: 0 <= s < IMT_SIZE ==> SlotFinal(vtable, conflict, wanted, s, imTable[s])
  }

  ghost predicate SlotFinal(vtable: seq<ArtMethod>, conflict: ArtMethod, wanted: seq<ArtMethod>, s: nat, entry: ArtMethod) {
    match Entries(vtable, wanted, |wanted|, s)
    case 1 => exists q {:trigger wanted[q]} :: 0 <= q < |wanted| && Enters(vtable, wanted[q], s) && entry == vtable[Found(vtable, wanted[q])]
    case _ => entry == conflict
  }

  /** Fills the empty entries with the conflict method; a table in which nothing was placed stays the
      default table of conflicts. */
  method FinishImt(vtable: seq<ArtMethod>, conflict: ArtMethod, ghost wanted: seq<ArtMethod>, imt: seq<Option<ArtMethod>>) returns (imTable: seq<ArtMethod>)
    requires ImtOk(vtable, conflict, wanted, imt)
    ensures ImtFinal(vtable, conflict, wanted, imTable)
  {
    imTable := [];
    for s := 0 to IMT_SIZE
      invariant |imTable| == s && forall i {:trigger imTable[i]} :: 0 <= i < s ==> SlotFinal(vtable, conflict, wanted, i, imTable[i])
    {
      assert SlotHolds(vtable, conflict, wanted, s, imt[s]);
      imTable := imTable + [if imt[s] == None then conflict else imt[s].value];
    }
  }

  /** Mirandas go behind the virtual methods and behind the vtable, and are marked.  The method index has
      16 bits. */
  method InstallMirandas(klass: Class, mirandas: seq<ArtMethod>)
    requires forall x, y {:trigger mirandas[x], mirandas[y]} :: 0 <= x < y < |mirandas| ==> mirandas[x] != mirandas[y]
    modifies klass`virtualMethods, klass`vtable, mirandas
    ensures klass.vtable == old(klass.vtable) + mirandas && klass.virtualMethods == old(klass.virtualMethods) + mirandas
    ensures forall x {:trigger mirandas[x]} :: 0 <= x < |mirandas| ==>
              mirandas[x].isMiranda && mirandas[x].methodIndex == (|old(klass.vtable)| + x) % 0x1_0000
  {
    var oldVtableCount := |klass.vtable|;
    for i := 0 to |mirandas|
      invariant klass.vtable == old(klass.vtable) + mirandas[..i] && klass.virtualMethods == old(klass.virtualMethods) + mirandas[..i]
      invariant forall x {:trigger mirandas[x]} :: 0 <= x < i ==> mirandas[x].isMiranda && mirandas[x].methodIndex == (oldVtableCount + x) % 0x1_0000
    {
      var m := mirandas[i];
      m.isMiranda := true;
      m.methodIndex := (oldVtableCount + i) % 0x1_0000;
      klass.virtualMethods := klass.virtualMethods + [m];
      klass.vtable := klass.vtable + [m];
      assert mirandas[..i + 1] == mirandas[..i] + [m];
    }
    assert mirandas[..|mirandas|] == mirandas;
  }

  /** With mirandas the vtable is still indexed exactly if it fits 16-bit indexes. */
  lemma IndexedExactly(base: seq<ArtMethod>, mirandas: seq<ArtMethod>)
    requires Indexed(base) && |base| <= MAX_UINT16
    requires forall x {:trigger mirandas[x]} :: 0 <= x < |mirandas| ==> mirandas[x].methodIndex == (|base| + x) % 0x1_0000
    ensures Indexed(base + mirandas) <==> |base + mirandas| <= 0x1_0000
  {
    var all := base + mirandas;
    if |all| <= 0x1_0000 {
      forall j | 0 <= j < |all| ensures all[j].methodIndex == j {
        if j >= |base| {
          assert all[j] == mirandas[j - |base|];
        }
      }
    } else {
      assert all[0x1_0000] == mirandas[0x1_0000 - |base|];
    }
  }

  // ---------- Interface methods ----------

  ghost function InheritedIfaces(klass: Class): seq<Class>
    reads klass.superclasses
  {
    if klass.HasSuperClass() then Ifaces(klass.superclasses[0]) else []
  }

  /** `t` is the flattened interface table. */
  ghost predicate Flattened(inherited: seq<Class>, direct: seq<Class>, t: seq<Class>)
    reads direct, t
  {
    && Distinct(t) && Closed(t) && inherited <= t && |t| <= Room(|inherited|, direct, |direct|)
    && (forall x {:trigger x in t} :: x in t ==> Wanted(inherited, direct, |direct|, x))
    && (forall d {:trigger Ifaces(d)} :: d in direct ==> d in t && forall y {:trigger y in t} :: y in Ifaces(d) ==> y in t)
  }

  /** The interface tables that are inherited belong to linked classes, all among `world`, and `klass` is
      not one of them. */
  ghost predicate SupersLinked(klass: Class, world: set<Class>)
    reads world
  {
    && klass !in world && (forall c :: c in klass.superclasses ==> c in world) && (forall d :: d in klass.directInterfaces ==> d in world)
    && (forall c {:trigger Ifaces(c)} :: c in world ==> forall y {:trigger y in world} :: y in Ifaces(c) ==> y in world)
    && Distinct(InheritedIfaces(klass)) && Closed(InheritedIfaces(klass))
    && (forall d {:trigger Ifaces(d)} :: d in klass.directInterfaces ==> Closed(Ifaces(d)))
    && (klass.HasSuperClass() ==> RowsSized(klass.superclasses[0], world))
  }

  /** The rows of a linked class have a method for every method of the interface. */
  ghost predicate RowsSized(c: Class, world: set<Class>)
    reads c, world
  {
    forall i {:trigger c.ifTable[i]} :: 0 <= i < |c.ifTable| ==>
      c.ifTable[i].iface in world && |c.ifTable[i].methods| == |c.ifTable[i].iface.virtualMethods|
  }

  /** Rows, IMT and mirandas of a class with the given interfaces. */
  ghost predicate InterfacesLinked(klass: Class, conflict: ArtMethod, base: seq<ArtMethod>, virtuals: seq<ArtMethod>, ifaces: seq<Class>, mirandas: seq<ArtMethod>)
    reads klass, ifaces, mirandas
  {
    && klass.vtable == base + mirandas && klass.virtualMethods == virtuals + mirandas
    && RowsOk(base, mirandas, ifaces, klass.ifTable, |ifaces|)
    && MirandasOk(base, AllMethods(ifaces, |ifaces|), mirandas)
    && ImtFinal(base, conflict, AllMethods(ifaces, |ifaces|), klass.imTable)
    && (forall x {:trigger mirandas[x]} :: 0 <= x < |mirandas| ==> mirandas[x].isMiranda && mirandas[x].methodIndex == (|base| + x) % 0x1_0000)
  }

  method LinkClassInterfaces(klass: Class, conflict: ArtMethod, ifaces: seq<Class>) returns (ok: bool, ghost mirandas: seq<ArtMethod>)
    requires klass !in ifaces && ImtFinal(klass.vtable, conflict, [], klass.imTable)
    modifies klass
    ensures ok <==> NoneHidden(old(klass.vtable), old(AllMethods(ifaces, |ifaces|)))
    ensures ok ==> InterfacesLinked(klass, conflict, old(klass.vtable), old(klass.virtualMethods), ifaces, mirandas)
    ensures ok ==> Ifaces(klass) == ifaces
    ensures forall x {:trigger mirandas[x]} :: 0 <= x < |mirandas| ==> fresh(mirandas[x])
  {
    ghost var wanted := AllMethods(ifaces, |ifaces|);
    var vtable := klass.vtable;
    var entries, imt, list;
    ok, entries, imt, list := LinkRows(vtable, conflict, ifaces);
    mirandas := list;
    if ok {
      klass.ifTable := entries;
      var imTable := FinishImt(vtable, conflict, wanted, imt);
      klass.imTable := imTable;
      MirandasApart(vtable, wanted, list);
      InstallMirandas(klass, list);
    }
  }

  lemma MirandasApart(vtable: seq<ArtMethod>, wanted: seq<ArtMethod>, mirandas: seq<ArtMethod>)
    requires MirandasOk(vtable, wanted, mirandas)
    ensures forall x, y {:trigger mirandas[x], mirandas[y]} :: 0 <= x < y < |mirandas| ==> mirandas[x] != mirandas[y]
  {
    forall x, y | 0 <= x < y < |mirandas| ensures mirandas[x] != mirandas[y] {
      assert mirandas[x].key != mirandas[y].key;
    }
  }

  /** What linking the interfaces of `klass` results in: `r`, the flattened interfaces, and the mirandas. */
  ghost predicate InterfaceOutcome(klass: Class, conflict: ArtMethod, base: seq<ArtMethod>, virtuals: seq<ArtMethod>, r: LinkResult, ifaces: seq<Class>, mirandas: seq<ArtMethod>)
    reads klass, ifaces, mirandas
  {
    && (r == NotPublic <==> !klass.isInterface && !NoneHidden(base, AllMethods(ifaces, |ifaces|)))
    && (r == Linked ==> Ifaces(klass) == ifaces)
    && (r == Linked && !klass.isInterface ==> InterfacesLinked(klass, conflict, base, virtuals, ifaces, mirandas))
    && (r == Linked && klass.isInterface ==> klass.vtable == base && klass.virtualMethods == virtuals)
  }

  /** `LinkInterfaceMethods`.  It fails exactly when a direct interface is a class, or an implementation of
      an interface method is not accessible. */
  method LinkInterfaceMethods(klass: Class, conflict: ArtMethod, ghost world: set<Class>) returns (r: LinkResult, ghost ifaces: seq<Class>, ghost mirandas: seq<ArtMethod>)
    requires klass !in world && SupersLinked(klass, world) && klass.ifTable == []
    modifies klass
    ensures r in {Linked, NotAnInterface, NotPublic}
    ensures r == NotAnInterface <==> exists d :: d in klass.directInterfaces && !d.isInterface
    ensures r != NotAnInterface ==> Flattened(InheritedIfaces(klass), klass.directInterfaces, ifaces) && klass !in ifaces
    ensures r != NotAnInterface ==> InterfaceOutcome(klass, conflict, old(klass.vtable), old(klass.virtualMethods), r, ifaces, mirandas)
    ensures forall x {:trigger mirandas[x]} :: 0 <= x < |mirandas| ==> fresh(mirandas[x])
  {
    hide InterfaceOutcome, Flattened, SupersLinked, ImtFinal;
    SupersInWorld(klass, world);
    // All conflicts by default.
    klass.imTable := seq(IMT_SIZE, _ => conflict);
    NothingEntered(klass.vtable, conflict, klass.imTable);
    var done := TakeOverMarkers(klass, conflict, world);
    if done {
      r, ifaces, mirandas := Linked, InheritedIfaces(klass), [];
    } else {
      r, ifaces, mirandas := LinkOwnInterfaces(klass, conflict, world);
    }
  }

  /** A class without interfaces of its own takes over the table of its superclass if no interface in it
      has methods. */
  method TakeOverMarkers(klass: Class, conflict: ArtMethod, ghost world: set<Class>) returns (done: bool)
    requires klass !in world && SupersLinked(klass, world) && klass.ifTable == [] && ImtFinal(klass.vtable, conflict, [], klass.imTable)
    modifies klass`ifTable
    ensures !done ==> klass.ifTable == []
    ensures done ==> klass.directInterfaces == [] && klass !in InheritedIfaces(klass) && Flattened(InheritedIfaces(klass), [], InheritedIfaces(klass))
    ensures done ==> InterfaceOutcome(klass, conflict, klass.vtable, klass.virtualMethods, Linked, InheritedIfaces(klass), [])
  {
    SupersInWorld(klass, world);
    done := false;
    var superIfcount := if klass.HasSuperClass() then |klass.superclasses[0].ifTable| else 0;
    var ifcount := CountInterfaces(superIfcount, klass.directInterfaces);
    if ifcount == superIfcount {
      var markers := OnlyMarkers(klass);
      if markers {
        hide SupersLinked, ImtFinal, Flattened, InterfacesLinked, NoneHidden;
        if klass.HasSuperClass() {
          klass.ifTable := klass.superclasses[0].ifTable;
        }
        MarkersLinked(klass, conflict, world);
        done := true;
      }
    }
  }

  method LinkOwnInterfaces(klass: Class, conflict: ArtMethod, ghost world: set<Class>) returns (r: LinkResult, ghost ifaces: seq<Class>, ghost mirandas: seq<ArtMethod>)
    requires klass !in world && SupersLinked(klass, world) && ImtFinal(klass.vtable, conflict, [], klass.imTable)
    modifies klass
    ensures r in {Linked, NotAnInterface, NotPublic}
    ensures r == NotAnInterface <==> exists d :: d in klass.directInterfaces && !d.isInterface
    ensures r != NotAnInterface ==> Flattened(InheritedIfaces(klass), klass.directInterfaces, ifaces) && klass !in ifaces
    ensures r != NotAnInterface ==> InterfaceOutcome(klass, conflict, old(klass.vtable), old(klass.virtualMethods), r, ifaces, mirandas)
    ensures forall x {:trigger mirandas[x]} :: 0 <= x < |mirandas| ==> fresh(mirandas[x])
  {
    hide InterfacesLinked, Flattened, SupersLinked, ImtFinal, NoneHidden;
    SupersInWorld(klass, world);
    mirandas := [];
    var inherited := if klass.HasSuperClass() then Ifaces(klass.superclasses[0]) else [];
    var ok, t := FlattenInterfaces(klass, inherited, world);
    ifaces := t;
    if !ok {
      return NotAnInterface, ifaces, mirandas;
    }
    ghost var wanted := AllMethods(ifaces, |ifaces|);
    if klass.isInterface {
      klass.ifTable := seq(|t|, i requires 0 <= i < |t| => IfEntry(t[i], []));
      r := Linked;
    } else {
      ok, mirandas := LinkClassInterfaces(klass, conflict, t);
      r := if ok then Linked else NotPublic;
      assert AllMethods(ifaces, |ifaces|) == wanted;
      assert ok ==> Ifaces(klass) == ifaces;
    }
  }

  lemma SupersInWorld(klass: Class, world: set<Class>)
    requires SupersLinked(klass, world)
    ensures forall c :: c in klass.superclasses ==> c in world
    ensures forall d :: d in klass.directInterfaces ==> d in world
  {
  }

  method FlattenInterfaces(klass: Class, inherited: seq<Class>, ghost world: set<Class>) returns (ok: bool, t: seq<Class>)
    requires SupersLinked(klass, world) && inherited == InheritedIfaces(klass)
    ensures ok <==> forall d :: d in klass.directInterfaces ==> d.isInterface
    ensures ok ==> Flattened(inherited, klass.directInterfaces, t) && klass !in t
  {
    ok, t := Flatten(inherited, klass.directInterfaces);
  }

  /** Whether no inherited interface has methods. */
  method OnlyMarkers(klass: Class) returns (b: bool)
    ensures b <==> (klass.HasSuperClass() ==> forall i {:trigger klass.superclasses[0].ifTable[i]} ::
                      0 <= i < |klass.superclasses[0].ifTable| ==> klass.superclasses[0].ifTable[i].methods == [])
  {
    if !klass.HasSuperClass() {
      return true;
    }
    var t := klass.superclasses[0].ifTable;
    for i := 0 to |t|
      invariant forall j :: 0 <= j < i ==> t[j].methods == []
    {
      if |t[i].methods| > 0 {
        return false;
      }
    }
    b := true;
  }

  /** Taking over a table of interfaces without methods links the class. */
  lemma MarkersLinked(klass: Class, conflict: ArtMethod, world: set<Class>)
    requires SupersLinked(klass, world) && klass.directInterfaces == [] && ImtFinal(klass.vtable, conflict, [], klass.imTable)
    requires klass.ifTable == if klass.HasSuperClass() then klass.superclasses[0].ifTable else []
    requires forall i {:trigger klass.ifTable[i]} :: 0 <= i < |klass.ifTable| ==> klass.ifTable[i].methods == []
    ensures var ifaces := InheritedIfaces(klass);
            && Flattened(ifaces, [], ifaces) && klass !in ifaces && Ifaces(klass) == ifaces
            && NoneHidden(klass.vtable, AllMethods(ifaces, |ifaces|))
            && InterfacesLinked(klass, conflict, klass.vtable, klass.virtualMethods, ifaces, [])
  {
    var ifaces := InheritedIfaces(klass);
    forall i | 0 <= i < |ifaces| ensures ifaces[i] in world && ifaces[i].virtualMethods == [] {
      assert klass.superclasses[0].ifTable[i].iface == ifaces[i] && klass.ifTable[i].methods == [];
    }
    NoMethods(ifaces, |ifaces|);
  }

  lemma {:induction false} NoMethods(ifaces: seq<Class>, n: nat)
    requires n <= |ifaces| && forall i {:trigger ifaces[i]} :: 0 <= i < |ifaces| ==> ifaces[i].virtualMethods == []
    ensures AllMethods(ifaces, n) == []
    decreases n
  {
    if n > 0 {
      NoMethods(ifaces, n - 1);
    }
  }

  lemma NothingEntered(vtable: seq<ArtMethod>, conflict: ArtMethod, imTable: seq<ArtMethod>)
    requires imTable == seq(IMT_SIZE, _ => conflict)
    ensures ImtFinal(vtable, conflict, [], imTable)
  {
  }

  /** The room set aside for the interface table. */
  method CountInterfaces(superIfcount: nat, direct: seq<Class>) returns (ifcount: nat)
    ensures ifcount == Room(superIfcount, direct, |direct|) && superIfcount + |direct| <= ifcount
  {
    ifcount := superIfcount;
    for i := 0 to |direct|
      invariant ifcount == Room(superIfcount, direct, i) && superIfcount + i <= ifcount
    {
      ifcount := ifcount + 1 + |direct[i].ifTable|;
    }
  }

  // ---------- What a linked class promises ----------

  /** Every entry of a method array has the name and signature of the interface method and is in the final
      vtable at its own method index, provided the vtable fits 16-bit indexes. */
  lemma ArraysInVtable(klass: Class, conflict: ArtMethod, base: seq<ArtMethod>, virtuals: seq<ArtMethod>, ifaces: seq<Class>, mirandas: seq<ArtMethod>, i: nat, j: nat)
    requires InterfacesLinked(klass, conflict, base, virtuals, ifaces, mirandas) && Indexed(base) && |base| <= MAX_UINT16
    requires |klass.vtable| <= 0x1_0000 && i < |ifaces| && j < |klass.ifTable[i].methods|
    ensures klass.ifTable[i].iface == ifaces[i] && |klass.ifTable[i].methods| == |ifaces[i].virtualMethods|
    ensures var m := klass.ifTable[i].methods[j];
            m.key == ifaces[i].virtualMethods[j].key && m.methodIndex < |klass.vtable| && klass.vtable[m.methodIndex] == m
  {
    var m := klass.ifTable[i].methods[j];
    assert RowOk(base, mirandas, ifaces[i].virtualMethods, klass.ifTable[i].methods);
    assert Chosen(base, mirandas, ifaces[i].virtualMethods[j], m);
    IndexedExactly(base, mirandas);
    assert m in klass.vtable;
    var k :| 0 <= k < |klass.vtable| && klass.vtable[k] == m;
  }

  /** At most one method enters a slot that has one entry. */
  lemma {:induction false} OnlyEntry(vtable: seq<ArtMethod>, wanted: seq<ArtMethod>, n: nat, s: nat, p: nat)
    requires n <= |wanted| && p < n && Enters(vtable, wanted[p], s)
    ensures Entries(vtable, wanted, n, s) >= 1
    ensures Entries(vtable, wanted, n, s) == 1 ==> forall q {:trigger wanted[q]} :: 0 <= q < n && Enters(vtable, wanted[q], s) ==> q == p
    decreases n
  {
    if p < n - 1 {
      OnlyEntry(vtable, wanted, n - 1, s, p);
    } else if Entries(vtable, wanted, n, s) == 1 {
      NoEntry(vtable, wanted, n - 1, s);
    }
  }

  lemma {:induction false} NoEntry(vtable: seq<ArtMethod>, wanted: seq<ArtMethod>, n: nat, s: nat)
    requires n <= |wanted| && Entries(vtable, wanted, n, s) == 0
    ensures forall q {:trigger wanted[q]} :: 0 <= q < n ==> !Enters(vtable, wanted[q], s)
    decreases n
  {
    if n > 0 {
      NoEntry(vtable, wanted, n - 1, s);
    }
  }

  /** The IMT slot of an interface method that is implemented holds the implementation or the conflict method. */
  lemma ImtSound(vtable: seq<ArtMethod>, conflict: ArtMethod, wanted: seq<ArtMethod>, imTable: seq<ArtMethod>, p: nat)
    requires ImtFinal(vtable, conflict, wanted, imTable) && p < |wanted| && Found(vtable, wanted[p]) >= 0
    ensures var entry := imTable[ImtIndex(wanted[p])]; entry == vtable[Found(vtable, wanted[p])] || entry == conflict
  {
    var s := ImtIndex(wanted[p]);
    OnlyEntry(vtable, wanted, |wanted|, s, p);
    assert SlotFinal(vtable, conflict, wanted, s, imTable[s]);
  }

  /** The IMT slot of an interface method that becomes a miranda is the conflict method exactly if not one
      implemented method alone enters it; then it holds a method with another name or signature. */
  lemma MirandaImtSlot(vtable: seq<ArtMethod>, conflict: ArtMethod, wanted: seq<ArtMethod>, imTable: seq<ArtMethod>, p: nat)
    requires ImtFinal(vtable, conflict, wanted, imTable) && p < |wanted| && Found(vtable, wanted[p]) < 0 && conflict !in vtable
    ensures var s := ImtIndex(wanted[p]);
            && (imTable[s] == conflict <==> Entries(vtable, wanted, |wanted|, s) != 1)
            && (imTable[s] != conflict ==> imTable[s] in vtable && imTable[s].key != wanted[p].key)
  {
    var s := ImtIndex(wanted[p]);
    assert SlotFinal(vtable, conflict, wanted, s, imTable[s]);
  }

  /** Two interface methods that share a slot, only one of them implemented: calling the other through
      the IMT reaches the first one's implementation. */
  lemma MirandaMisdirected(vtable: seq<ArtMethod>, conflict: ArtMethod, a: ArtMethod, b: ArtMethod, imTable: seq<ArtMethod>)
    requires ImtFinal(vtable, conflict, [a, b], imTable) && ImtIndex(a) == ImtIndex(b)
    requires Found(vtable, a) >= 0 && Found(vtable, b) < 0
    ensures imTable[ImtIndex(b)] == vtable[Found(vtable, a)] && imTable[ImtIndex(b)].key != b.key
  {
    var wanted, s := [a, b], ImtIndex(b);
    assert Entries(vtable, wanted, 2, s) == Entries(vtable, wanted, 1, s);
    assert Entries(vtable, wanted, 1, s) == 1 by {
      assert Entries(vtable, wanted, 0, s) == 0;
    }
    assert SlotFinal(vtable, conflict, wanted, s, imTable[s]);
  }

  // ---------- Linking a class ----------

  /** `LinkMethods` of a class: `own` is the vtable before mirandas.  Each way to fail has its exact condition. */
  method LinkClassMethods(klass: Class, conflict: ArtMethod, ghost world: set<Class>)
    returns (r: LinkResult, ghost own: seq<ArtMethod>, ghost ifaces: seq<Class>, ghost mirandas: seq<ArtMethod>)
    requires !klass.isInterface && klass !in world && SupersLinked(klass, world) && klass.ifTable == [] && klass !in klass.superclasses
    requires DistinctKeys(klass.virtualMethods) && forall m :: m in klass.virtualMethods ==> m !in Inherited(klass)
    modifies klass, klass.virtualMethods`methodIndex
    ensures r == OverridesFinal <==> OverridesAFinal(klass, old(Inherited(klass)), old(klass.virtualMethods))
    ensures r == TooManyMethods <==> r != OverridesFinal && OutgrowsIndexes(klass, old(Inherited(klass)), old(klass.virtualMethods))
    ensures r !in {OverridesFinal, TooManyMethods} ==> Extends(klass, Inherited(klass), old(klass.virtualMethods), own)
    ensures r !in {OverridesFinal, TooManyMethods} && old(Indexed(Inherited(klass))) ==> Indexed(own)
    ensures r == NotAnInterface <==> r !in {OverridesFinal, TooManyMethods} && exists d :: d in klass.directInterfaces && !d.isInterface
    ensures r in {Linked, NotPublic} ==> Flattened(InheritedIfaces(klass), klass.directInterfaces, ifaces)
    ensures r in {Linked, NotPublic} ==> (r == NotPublic <==> !NoneHidden(own, AllMethods(ifaces, |ifaces|)))
    ensures r == Linked ==> InterfacesLinked(klass, conflict, own, old(klass.virtualMethods), ifaces, mirandas)
  {
    hide Flattened, SupersLinked, InterfacesLinked, InterfaceOutcome, Extends, Indexed, DistinctKeys, NoneHidden, OverridesAFinal, OutgrowsIndexes;
    SupersInWorld(klass, world);
    own, ifaces, mirandas := [], [], [];
    r := LinkVirtualMethods(klass);
    if r == Linked {
      own := klass.vtable;
      r, ifaces, mirandas := LinkInterfaceMethods(klass, conflict, world);
      if r != NotAnInterface {
        OutcomeLinked(klass, conflict, own, old(klass.virtualMethods), r, ifaces, mirandas);
      }
    }
  }

  lemma OutcomeLinked(klass: Class, conflict: ArtMethod, base: seq<ArtMethod>, virtuals: seq<ArtMethod>, r: LinkResult, ifaces: seq<Class>, mirandas: seq<ArtMethod>)
    requires InterfaceOutcome(klass, conflict, base, virtuals, r, ifaces, mirandas) && !klass.isInterface
    ensures r == Linked ==> InterfacesLinked(klass, conflict, base, virtuals, ifaces, mirandas)
    ensures r == NotPublic <==> !NoneHidden(base, AllMethods(ifaces, |ifaces|))
  {
  }

  /** `LinkMethods` of an interface: its methods are numbered, and only the table of interfaces is built. */
  method LinkInterfaceClass(klass: Class, conflict: ArtMethod, ghost world: set<Class>) returns (r: LinkResult, ghost ifaces: seq<Class>)
    requires klass.isInterface && klass !in world && SupersLinked(klass, world) && klass.ifTable == []
    requires forall i, j {:trigger klass.virtualMethods[i], klass.virtualMethods[j]} :: 0 <= i < j < |klass.virtualMethods| ==> klass.virtualMethods[i] != klass.virtualMethods[j]
    modifies klass, klass.virtualMethods`methodIndex
    ensures r in {Linked, TooManyMethods, NotAnInterface}
    ensures r == TooManyMethods <==> |old(klass.virtualMethods)| > MAX_UINT16
    ensures r == NotAnInterface <==> r != TooManyMethods && exists d :: d in klass.directInterfaces && !d.isInterface
    ensures r == Linked ==> Flattened(InheritedIfaces(klass), klass.directInterfaces, ifaces) && Ifaces(klass) == ifaces
    ensures r == Linked ==> klass.virtualMethods == old(klass.virtualMethods) && Indexed(klass.virtualMethods)
  {
    hide Flattened, SupersLinked, Indexed;
    SupersInWorld(klass, world);
    ifaces := [];
    var ms := klass.virtualMethods;
    if |ms| > MAX_UINT16 {
      return TooManyMethods, ifaces;
    }
    NumberMethods(ms);
    ghost var mirandas;
    r, ifaces, mirandas := LinkInterfaceMethods(klass, conflict, world);
  }

  method NumberMethods(ms: seq<ArtMethod>)
    requires forall i, j {:trigger ms[i], ms[j]} :: 0 <= i < j < |ms| ==> ms[i] != ms[j]
    modifies ms`methodIndex
    ensures Indexed(ms)
  {
    for i := 0 to |ms|
      invariant forall q {:trigger ms[q]} :: 0 <= q < i ==> ms[q].methodIndex == q
    {
      ms[i].methodIndex := i;
    }
  }

  /** The final vtable, mirandas included, is indexed exactly if it fits 16-bit indexes. */
  lemma LinkedIndexes(klass: Class, conflict: ArtMethod, base: seq<ArtMethod>, virtuals: seq<ArtMethod>, ifaces: seq<Class>, mirandas: seq<ArtMethod>)
    requires InterfacesLinked(klass, conflict, base, virtuals, ifaces, mirandas) && Indexed(base) && |base| <= MAX_UINT16
    ensures Indexed(klass.vtable) <==> |klass.vtable| <= 0x1_0000
  {
    IndexedExactly(base, mirandas);
  }

  /** The interfaces of a linked class are among the classes its own supers were linked from. */
  lemma IfacesInWorld(klass: Class, ifaces: seq<Class>, world: set<Class>, x: Class)
    requires SupersLinked(klass, world) && Flattened(InheritedIfaces(klass), klass.directInterfaces, ifaces) && x in ifaces
    ensures x in world
  {
    SupersInWorld(klass, world);
    assert Wanted(InheritedIfaces(klass), klass.directInterfaces, |klass.directInterfaces|, x);
    if x in InheritedIfaces(klass) {
      assert x in Ifaces(klass.superclasses[0]);
    }
  }

  /** A linked class is what linking a subclass of it asks for: classes are linked one after the other,
      superclasses and interfaces first. */
  lemma SubclassMayLink(klass: Class, conflict: ArtMethod, own: seq<ArtMethod>, virtuals: seq<ArtMethod>, ifaces: seq<Class>, mirandas: seq<ArtMethod>, world: set<Class>, sub: Class)
    requires SupersLinked(klass, world) && Flattened(InheritedIfaces(klass), klass.directInterfaces, ifaces)
    requires InterfacesLinked(klass, conflict, own, virtuals, ifaces, mirandas) && Indexed(own) && |own| <= MAX_UINT16
    requires sub !in world && sub != klass && sub.superclasses == [klass] + klass.superclasses
    requires (forall d :: d in sub.directInterfaces ==> d in world) && forall d {:trigger Ifaces(d)} :: d in sub.directInterfaces ==> Closed(Ifaces(d))
    ensures SupersLinked(sub, world + {klass})
    ensures Indexed(Inherited(sub)) <==> |klass.vtable| <= 0x1_0000
  {
    SupersInWorld(klass, world);
    forall x | x in ifaces ensures x in world {
      IfacesInWorld(klass, ifaces, world, x);
    }
    assert Ifaces(klass) == ifaces == InheritedIfaces(sub);
    LinkedIndexes(klass, conflict, own, virtuals, ifaces, mirandas);
    assert Inherited(sub) == klass.vtable;
    assert forall i {:trigger klass.ifTable[i]} :: 0 <= i < |klass.ifTable| ==> ifaces[i] in world;
  }

  /** A linked interface may be a direct interface of a class that is linked after it. */
  lemma InterfaceMayJoin(klass: Class, ifaces: seq<Class>, world: set<Class>, sub: Class)
    requires SupersLinked(klass, world) && Flattened(InheritedIfaces(klass), klass.directInterfaces, ifaces) && Ifaces(klass) == ifaces
    requires sub !in world && sub != klass && (forall c :: c in sub.superclasses ==> c in world)
    requires Distinct(InheritedIfaces(sub)) && Closed(InheritedIfaces(sub)) && (sub.HasSuperClass() ==> RowsSized(sub.superclasses[0], world))
    requires forall d {:trigger Ifaces(d)} :: d in sub.directInterfaces ==> d == klass || (d in world && Closed(Ifaces(d)))
    ensures SupersLinked(sub, world + {klass})
  {
    forall x | x in ifaces ensures x in world {
      IfacesInWorld(klass, ifaces, world, x);
    }
    forall d | d in sub.directInterfaces ensures d in world + {klass} && Closed(Ifaces(d)) {
      if d != klass {
        assert Closed(Ifaces(d));
      }
    }
  }
}
