/** Building the vtable of a class (runtime/class_linker.cc, LinkVirtualMethods). */
module VirtualMethods {
  import opened Classes

  /** `m`, a method of `klass`, overrides what is in the slot of `s`. */
  predicate Matches(klass: Class, s: ArtMethod, m: ArtMethod) {
    m.key == s.key && klass.CanAccessMember(s.declaringClass, s.flags)
  }

  /** The first slot at or behind `j` that `m` overrides; the length of the table if there is none. */
  function FirstMatch(klass: Class, vtable: seq<ArtMethod>, m: ArtMethod, j: nat): (r: nat)
    requires j <= |vtable|
    ensures j <= r <= |vtable|
    ensures r < |vtable| ==> Matches(klass, vtable[r], m)
    ensures forall i {:trigger vtable[i]} :: j <= i < r ==> !Matches(klass, vtable[i], m)
    decreases |vtable| - j
  {
    if j == |vtable| || Matches(klass, vtable[j], m) then j else FirstMatch(klass, vtable, m, j + 1)
  }

  function Target(klass: Class, base: seq<ArtMethod>, m: ArtMethod): (r: nat)
    ensures r <= |base|
  {
    FirstMatch(klass, base, m, 0)
  }

  /** How many of the first `n` methods override nothing. */
  function NewSlots(klass: Class, base: seq<ArtMethod>, ms: seq<ArtMethod>, n: nat): (r: nat)
    requires n <= |ms|
    ensures r <= n
  {
    if n == 0 then 0 else NewSlots(klass, base, ms, n - 1) + (if Target(klass, base, ms[n - 1]) == |base| then 1 else 0)
  }

  /** Method `m` may not override the slot it would. */
  predicate HitsFinal(klass: Class, base: seq<ArtMethod>, m: ArtMethod) {
    var j := Target(klass, base, m);
    j < |base| && base[j].flags.isFinal
  }

  ghost predicate OverridesAFinal(klass: Class, base: seq<ArtMethod>, ms: seq<ArtMethod>) {
    exists q {:trigger ms[q]} :: 0 <= q < |ms| && HitsFinal(klass, base, ms[q])
  }

  /** The vtable would have more slots than a 16-bit index can name. */
  predicate OutgrowsIndexes(klass: Class, base: seq<ArtMethod>, ms: seq<ArtMethod>) {
    |base| + NewSlots(klass, base, ms, |ms|) > MAX_UINT16
  }

  /** After the first `n` methods: `slots` says where each of them is. */
  ghost predicate Built(klass: Class, base: seq<ArtMethod>, ms: seq<ArtMethod>, n: nat, vtable: seq<ArtMethod>, slots: seq<nat>) {
    && n <= |ms| && |slots| == n && |vtable| == |base| + NewSlots(klass, base, ms, n)
    && (forall q {:trigger slots[q]} :: 0 <= q < n ==> Placed(klass, base, ms[q], vtable, slots[q]))
    && (forall j {:trigger vtable[j]} {:trigger SlotOrigin(klass, base, ms, n, vtable, slots, j)} :: 0 <= j < |vtable| ==> SlotOrigin(klass, base, ms, n, vtable, slots, j))
  }

  /** `m` is in the first slot it overrides, which was not final, or in a new one if it overrides nothing. */
  ghost predicate Placed(klass: Class, base: seq<ArtMethod>, m: ArtMethod, vtable: seq<ArtMethod>, slot: nat) {
    && slot < |vtable| && vtable[slot] == m
    && var t := Target(klass, base, m);
       if t < |base| then slot == t && !base[t].flags.isFinal else slot >= |base|
  }

  /** A slot holds what the superclass has there, or one of the first `n` methods. */
  ghost predicate SlotOrigin(klass: Class, base: seq<ArtMethod>, ms: seq<ArtMethod>, n: nat, vtable: seq<ArtMethod>, slots: seq<nat>, j: nat)
    requires n <= |ms| && |slots| == n && j < |vtable|
  {
    || (j < |base| && vtable[j] == base[j])
    || (exists q {:trigger slots[q]} :: 0 <= q < n && slots[q] == j && vtable[j] == ms[q])
  }

  /** Slots that differ from the superclass hold methods with other keys than the next method has. */
  lemma NextTarget(klass: Class, base: seq<ArtMethod>, ms: seq<ArtMethod>, n: nat, vtable: seq<ArtMethod>, slots: seq<nat>)
    requires Built(klass, base, ms, n, vtable, slots) && n < |ms| && DistinctKeys(ms) && |base| <= |vtable|
    ensures var t, s := Target(klass, base, ms[n]), FirstMatch(klass, vtable, ms[n], 0);
            if t < |base| then s == t && vtable[t] == base[t] else s == |vtable|
  {
    var m, t, s := ms[n], Target(klass, base, ms[n]), FirstMatch(klass, vtable, ms[n], 0);
    forall j | 0 <= j < |vtable| ensures vtable[j].key == m.key ==> j < |base| && vtable[j] == base[j] {
      assert SlotOrigin(klass, base, ms, n, vtable, slots, j);
    }
    forall j | 0 <= j < |base| ensures Matches(klass, vtable[j], m) <==> Matches(klass, base[j], m) {
      SameKey(klass, base, ms, n, vtable, slots, j);
    }
    forall j | 0 <= j < t ensures !Matches(klass, vtable[j], m) {
      assert !Matches(klass, base[j], m);
    }
    assert t < |base| ==> Matches(klass, vtable[t], m);
  }

  /** Overriding keeps the name and signature of a slot. */
  lemma SameKey(klass: Class, base: seq<ArtMethod>, ms: seq<ArtMethod>, n: nat, vtable: seq<ArtMethod>, slots: seq<nat>, j: nat)
    requires Built(klass, base, ms, n, vtable, slots) && j < |base| <= |vtable|
    ensures vtable[j].key == base[j].key
  {
    assert SlotOrigin(klass, base, ms, n, vtable, slots, j);
    if vtable[j] != base[j] {
      var q :| 0 <= q < n && slots[q] == j && vtable[j] == ms[q];
      assert Placed(klass, base, ms[q], vtable, slots[q]);
    }
  }

  lemma NothingBuilt(klass: Class, base: seq<ArtMethod>, ms: seq<ArtMethod>)
    ensures Built(klass, base, ms, 0, base, [])
  {
    forall j | 0 <= j < |base| ensures SlotOrigin(klass, base, ms, 0, base, [], j) {
    }
  }

  lemma FinalExactly(klass: Class, base: seq<ArtMethod>, m: ArtMethod)
    ensures HitsFinal(klass, base, m) <==> var t := Target(klass, base, m); t < |base| && base[t].flags.isFinal
  {
  }

  lemma BuiltLength(klass: Class, base: seq<ArtMethod>, ms: seq<ArtMethod>, n: nat, vtable: seq<ArtMethod>, slots: seq<nat>)
    requires Built(klass, base, ms, n, vtable, slots)
    ensures n <= |ms| && |slots| == n && |vtable| == |base| + NewSlots(klass, base, ms, n)
  {
  }

  lemma OverrideStep(klass: Class, base: seq<ArtMethod>, ms: seq<ArtMethod>, n: nat, vtable: seq<ArtMethod>, slots: seq<nat>)
    requires Built(klass, base, ms, n, vtable, slots) && n < |ms| && DistinctKeys(ms) && |base| <= |vtable|
    requires Target(klass, base, ms[n]) < |base| && !HitsFinal(klass, base, ms[n])
    ensures var t := Target(klass, base, ms[n]); Built(klass, base, ms, n + 1, vtable[t := ms[n]], slots + [t])
  {
    var t := Target(klass, base, ms[n]);
    NextTarget(klass, base, ms, n, vtable, slots);
    var vtable', slots', n' := vtable[t := ms[n]], slots + [t], n + 1;
    forall q | 0 <= q < n + 1 ensures Placed(klass, base, ms[q], vtable', slots'[q]) {
      if q < n {
        assert Placed(klass, base, ms[q], vtable, slots[q]);
        assert ms[q].key != ms[n].key;
      }
    }
    forall j | 0 <= j < |vtable'| ensures SlotOrigin(klass, base, ms, n', vtable', slots', j) {
      OriginKept(klass, base, ms, n, vtable, vtable', slots, slots', j);
    }
  }

  lemma AppendStep(klass: Class, base: seq<ArtMethod>, ms: seq<ArtMethod>, n: nat, vtable: seq<ArtMethod>, slots: seq<nat>)
    requires Built(klass, base, ms, n, vtable, slots) && n < |ms| && DistinctKeys(ms) && |base| <= |vtable|
    requires Target(klass, base, ms[n]) == |base|
    ensures Built(klass, base, ms, n + 1, vtable + [ms[n]], slots + [|vtable|])
  {
    var vtable', slots', n' := vtable + [ms[n]], slots + [|vtable|], n + 1;
    forall q | 0 <= q < n + 1 ensures Placed(klass, base, ms[q], vtable', slots'[q]) {
      if q < n {
        assert Placed(klass, base, ms[q], vtable, slots[q]);
      }
    }
    forall j | 0 <= j < |vtable'| ensures SlotOrigin(klass, base, ms, n', vtable', slots', j) {
      OriginKept(klass, base, ms, n, vtable, vtable', slots, slots', j);
    }
  }

  lemma OriginKept(klass: Class, base: seq<ArtMethod>, ms: seq<ArtMethod>, n: nat, vtable: seq<ArtMethod>, vtable': seq<ArtMethod>, slots: seq<nat>, slots': seq<nat>, j: nat)
    requires Built(klass, base, ms, n, vtable, slots) && n < |ms| && |slots'| == n + 1 && slots == slots'[..n] && j < |vtable'|
    requires slots'[n] < |vtable'| && vtable'[slots'[n]] == ms[n] && (j != slots'[n] ==> j < |vtable| && vtable'[j] == vtable[j])
    ensures SlotOrigin(klass, base, ms, n + 1, vtable', slots', j)
  {
    if j == slots'[n] {
      assert vtable'[j] == ms[n];
    } else {
      assert SlotOrigin(klass, base, ms, n, vtable, slots, j);
      if !(j < |base| && vtable[j] == base[j]) {
        var q :| 0 <= q < n && slots[q] == j && vtable[j] == ms[q];
        assert slots'[q] == slots[q];
      }
    }
  }

  /** A method that is new in the class is in one slot only. */
  lemma OneSlot(klass: Class, base: seq<ArtMethod>, ms: seq<ArtMethod>, vtable: seq<ArtMethod>, slots: seq<nat>, q: nat, j: nat)
    requires Built(klass, base, ms, |ms|, vtable, slots) && DistinctKeys(ms) && q < |ms| && ms[q] !in base && j < |vtable| && vtable[j] == ms[q]
    ensures j == slots[q]
  {
    assert SlotOrigin(klass, base, ms, |ms|, vtable, slots, j);
    var p :| 0 <= p < |ms| && slots[p] == j && vtable[j] == ms[p];
    assert ms[p].key == ms[q].key;
  }

  // ---------- Linking ----------

  /** The loop over the slots of the table built so far. */
  method FindOverridden(klass: Class, vtable: seq<ArtMethod>, m: ArtMethod) returns (j: nat)
    ensures j == FirstMatch(klass, vtable, m, 0)
  {
    j := 0;
    while j < |vtable|
      invariant j <= |vtable| && FirstMatch(klass, vtable, m, 0) == FirstMatch(klass, vtable, m, j)
    {
      var superMethod := vtable[j];
      if m.key == superMethod.key && klass.CanAccessMember(superMethod.declaringClass, superMethod.flags) {
        return;
      }
      j := j + 1;
    }
  }

  /** The table of a class with a superclass.  It fails exactly when a method overrides a final one, or
      the table does not fit 16 bits. */
  method BuildVtable(klass: Class, base: seq<ArtMethod>, ms: seq<ArtMethod>) returns (r: LinkResult, vtable: seq<ArtMethod>, ghost slots: seq<nat>)
    requires DistinctKeys(ms)
    modifies ms`methodIndex
    ensures r == OverridesFinal <==> OverridesAFinal(klass, base, ms)
    ensures r == TooManyMethods <==> r != OverridesFinal && OutgrowsIndexes(klass, base, ms)
    ensures r in {Linked, OverridesFinal, TooManyMethods}
    ensures r == Linked ==> Built(klass, base, ms, |ms|, vtable, slots)
    ensures r == Linked ==> forall q {:trigger ms[q]} :: 0 <= q < |ms| ==> ms[q].methodIndex == slots[q]
  {
    vtable, slots := base, [];
    NothingBuilt(klass, base, ms);
    hide Built, HitsFinal;
    for i := 0 to |ms|
      invariant |slots| == i && Built(klass, base, ms, i, vtable, slots)
      invariant forall q {:trigger ms[q]} :: 0 <= q < i ==> ms[q].methodIndex == slots[q] && !HitsFinal(klass, base, ms[q])
    {
      var localMethod := ms[i];
      BuiltLength(klass, base, ms, i, vtable, slots);
      NextTarget(klass, base, ms, i, vtable, slots);
      assert forall q :: 0 <= q < i ==> ms[q].key != localMethod.key;
      var j := FindOverridden(klass, vtable, localMethod);
      FinalExactly(klass, base, localMethod);
      if j < |vtable| {
        if vtable[j].flags.isFinal {
          return OverridesFinal, vtable, slots;
        }
        OverrideStep(klass, base, ms, i, vtable, slots);
        vtable := vtable[j := localMethod];
        localMethod.methodIndex := j;
        slots := slots + [j];
      } else {
        AppendStep(klass, base, ms, i, vtable, slots);
        localMethod.methodIndex := |vtable|;
        slots := slots + [|vtable|];
        vtable := vtable + [localMethod];
      }
    }
    BuiltLength(klass, base, ms, |ms|, vtable, slots);
    r := if |vtable| > MAX_UINT16 then TooManyMethods else Linked;
  }

  /** What a new vtable promises, given the superclass's: every slot of the superclass keeps its index
      and its name and signature, and holds the same method or a method of the class that may override
      it; every method of the class is in the one slot its method index names, the first one it
      overrides or one behind the superclass's if it overrides none. */
  ghost predicate Extends(klass: Class, base: seq<ArtMethod>, ms: seq<ArtMethod>, vtable: seq<ArtMethod>)
    reads ms, vtable
  {
    && |base| <= |vtable| <= MAX_UINT16
    && (forall j {:trigger vtable[j]} :: 0 <= j < |base| ==>
          vtable[j].key == base[j].key && (vtable[j] == base[j] || (vtable[j] in ms && Matches(klass, base[j], vtable[j]) && !base[j].flags.isFinal)))
    && (forall j {:trigger vtable[j]} :: |base| <= j < |vtable| ==> vtable[j] in ms)
    && (forall q {:trigger ms[q]} :: 0 <= q < |ms| ==>
          && ms[q].methodIndex < |vtable| && vtable[ms[q].methodIndex] == ms[q]
          && (if Target(klass, base, ms[q]) < |base| then ms[q].methodIndex == Target(klass, base, ms[q]) else ms[q].methodIndex >= |base|))
    && (forall q, j {:trigger ms[q], vtable[j]} :: 0 <= q < |ms| && 0 <= j < |vtable| && vtable[j] == ms[q] ==> j == ms[q].methodIndex)
  }

  lemma BuiltExtends(klass: Class, base: seq<ArtMethod>, ms: seq<ArtMethod>, vtable: seq<ArtMethod>, slots: seq<nat>)
    requires Built(klass, base, ms, |ms|, vtable, slots) && DistinctKeys(ms) && |vtable| <= MAX_UINT16
    requires forall q {:trigger ms[q]} :: 0 <= q < |ms| ==> ms[q].methodIndex == slots[q] && ms[q] !in base
    ensures Extends(klass, base, ms, vtable)
  {
    forall j | 0 <= j < |vtable|
      ensures j < |base| ==> vtable[j].key == base[j].key && (vtable[j] == base[j] || (vtable[j] in ms && Matches(klass, base[j], vtable[j]) && !base[j].flags.isFinal))
      ensures j >= |base| ==> vtable[j] in ms
    {
      assert SlotOrigin(klass, base, ms, |ms|, vtable, slots, j);
      if !(j < |base| && vtable[j] == base[j]) {
        var q :| 0 <= q < |ms| && slots[q] == j && vtable[j] == ms[q];
        assert Placed(klass, base, ms[q], vtable, slots[q]);
      }
    }
    forall q | 0 <= q < |ms| ensures Placed(klass, base, ms[q], vtable, ms[q].methodIndex) {
      assert Placed(klass, base, ms[q], vtable, slots[q]);
    }
    forall q, j | 0 <= q < |ms| && 0 <= j < |vtable| && vtable[j] == ms[q] ensures j == ms[q].methodIndex {
      OneSlot(klass, base, ms, vtable, slots, q, j);
    }
  }

  /** Every method of the table, inherited or not, is in the slot its method index names. */
  lemma StaysIndexed(klass: Class, base: seq<ArtMethod>, ms: seq<ArtMethod>, vtable: seq<ArtMethod>)
    requires Extends(klass, base, ms, vtable) && Indexed(base)
    ensures Indexed(vtable)
  {
    forall j | 0 <= j < |vtable| ensures vtable[j].methodIndex == j {
      if vtable[j] in ms {
        var q :| 0 <= q < |ms| && ms[q] == vtable[j];
        assert vtable[j] == ms[q];
      } else {
        assert vtable[j] == base[j];
      }
    }
  }

  /** The methods of the superclass's vtable, none for the root class. */
  ghost function Inherited(klass: Class): seq<ArtMethod>
    reads klass.superclasses
  {
    if klass.HasSuperClass() then klass.superclasses[0].vtable else []
  }

  /** `LinkVirtualMethods`. */
  method LinkVirtualMethods(klass: Class) returns (r: LinkResult)
    requires DistinctKeys(klass.virtualMethods) && klass !in klass.superclasses
    requires forall m :: m in klass.virtualMethods ==> m !in Inherited(klass)
    modifies klass`vtable, klass.virtualMethods`methodIndex
    ensures var base, ms := old(Inherited(klass)), klass.virtualMethods;
            && (r == OverridesFinal <==> OverridesAFinal(klass, base, ms))
            && (r == TooManyMethods <==> r != OverridesFinal && OutgrowsIndexes(klass, base, ms))
            && (r == Linked ==> Extends(klass, base, ms, klass.vtable) && (old(Indexed(Inherited(klass))) ==> Indexed(klass.vtable)))
    ensures r in {Linked, OverridesFinal, TooManyMethods} && Inherited(klass) == old(Inherited(klass))
  {
    hide Built, Extends, HitsFinal;
    ghost var base := Inherited(klass);
    var ms := klass.virtualMethods;
    ghost var slots;
    if klass.HasSuperClass() {
      var vtable;
      r, vtable, slots := BuildVtable(klass, klass.superclasses[0].vtable, ms);
      if r != Linked {
        return;
      }
      klass.vtable := vtable;
    } else {
      AllNew(klass, ms, |ms|);
      if |ms| > MAX_UINT16 {
        return TooManyMethods;
      }
      slots := RootVtable(klass, ms);
      r := Linked;
    }
    BuiltLength(klass, base, ms, |ms|, klass.vtable, slots);
    BuiltExtends(klass, base, ms, klass.vtable, slots);
    if old(Indexed(Inherited(klass))) {
      StaysIndexed(klass, base, ms, klass.vtable);
    }
  }

  /** The root class has no method to override. */
  lemma {:induction false} AllNew(klass: Class, ms: seq<ArtMethod>, n: nat)
    requires n <= |ms|
    ensures NewSlots(klass, [], ms, n) == n && forall q {:trigger ms[q]} :: 0 <= q < n ==> !HitsFinal(klass, [], ms[q])
    decreases n
  {
    if n > 0 {
      AllNew(klass, ms, n - 1);
    }
  }

  method RootVtable(klass: Class, ms: seq<ArtMethod>) returns (ghost slots: seq<nat>)
    requires DistinctKeys(ms) && |ms| <= MAX_UINT16
    modifies klass`vtable, ms`methodIndex
    ensures Built(klass, [], ms, |ms|, klass.vtable, slots)
    ensures forall q {:trigger ms[q]} :: 0 <= q < |ms| ==> ms[q].methodIndex == slots[q]
  {
    slots := [];
    var vtable: seq<ArtMethod> := [];
    for i := 0 to |ms|
      invariant Built(klass, [], ms, i, vtable, slots) && |vtable| == i
      invariant forall q {:trigger ms[q]} :: 0 <= q < i ==> ms[q].methodIndex == slots[q]
    {
      assert forall q :: 0 <= q < i ==> ms[q].key != ms[i].key;
      AppendStep(klass, [], ms, i, vtable, slots);
      slots := slots + [i];
      vtable := vtable + [ms[i]];
      ms[i].methodIndex := i % 0x1_0000;
    }
    klass.vtable := vtable;
  }
}
