/** Methods and classes as the class linker sees them while linking (runtime/mirror/class.h,
    runtime/mirror/art_method.h). */
module Classes {
  /** What two methods share when they have the same name and signature. */
  type Key = string

  datatype Flags = Flags(isPublic: bool, isPrivate: bool, isProtected: bool, isFinal: bool, isAbstract: bool)

  class ArtMethod {
    const key: Key
    const declaringClass: Class
    const flags: Flags
    const dexMethodIndex: nat
    var methodIndex: nat
    var isMiranda: bool

    constructor (key: Key, declaringClass: Class, flags: Flags, dexMethodIndex: nat, methodIndex: nat)
      ensures this.key == key && this.declaringClass == declaringClass && this.flags == flags && this.dexMethodIndex == dexMethodIndex
      ensures this.methodIndex == methodIndex && !isMiranda
    {
      this.key, this.declaringClass, this.flags, this.dexMethodIndex := key, declaringClass, flags, dexMethodIndex;
      this.methodIndex, isMiranda := methodIndex, false;
    }
  }

  /** A row of an interface table: an interface and the methods that implement its methods. */
  datatype IfEntry = IfEntry(iface: Class, methods: seq<ArtMethod>)

  class Class {
    const isInterface: bool
    const package: nat
    /** The superclass, its superclass, and so on. */
    const superclasses: seq<Class>
    const directInterfaces: seq<Class>
    var virtualMethods: seq<ArtMethod>
    var vtable: seq<ArtMethod>
    var ifTable: seq<IfEntry>
    var imTable: seq<ArtMethod>

    constructor (isInterface: bool, package: nat, superclasses: seq<Class>, directInterfaces: seq<Class>, virtualMethods: seq<ArtMethod>)
      ensures this.isInterface == isInterface && this.package == package && this.superclasses == superclasses
      ensures this.directInterfaces == directInterfaces && this.virtualMethods == virtualMethods
      ensures vtable == [] && ifTable == [] && imTable == []
    {
      this.isInterface, this.package, this.superclasses := isInterface, package, superclasses;
      this.directInterfaces, this.virtualMethods := directInterfaces, virtualMethods;
      vtable, ifTable, imTable := [], [], [];
    }

    predicate HasSuperClass() { |superclasses| > 0 }

    predicate IsSubClass(c: Class) { c == this || c in superclasses }

    /** Whether this class may access a member of `accessTo` with the given flags. */
    predicate CanAccessMember(accessTo: Class, flags: Flags) {
      || this == accessTo
      || flags.isPublic
      || (!flags.isPrivate && ((flags.isProtected && IsSubClass(accessTo)) || package == accessTo.package))
    }
  }

  datatype LinkResult = Linked | OverridesFinal | TooManyMethods | NotAnInterface | NotPublic

  const MAX_UINT16 := 0xFFFF

  /** No two methods have the same name and signature. */
  ghost predicate DistinctKeys(ms: seq<ArtMethod>) {
    forall i, j {:trigger ms[i].key, ms[j].key} :: 0 <= i < j < |ms| ==> ms[i].key != ms[j].key
  }

  /** Every method of a vtable is in the slot its method index names. */
  ghost predicate Indexed(vtable: seq<ArtMethod>)
    reads vtable
  {
    forall j {:trigger vtable[j]} :: 0 <= j < |vtable| ==> vtable[j].methodIndex == j
  }
}
