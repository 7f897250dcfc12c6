/** Flattening the interfaces of a class (runtime/class_linker.cc, LinkInterfaceMethods). */
module InterfaceTables {
  import opened Classes

  /** The interfaces in the table of `c`. */
  function Ifaces(c: Class): (r: seq<Class>)
    reads c
    ensures |r| == |c.ifTable|
  {
    TableIfaces(c.ifTable)
  }

  function TableIfaces(t: seq<IfEntry>): (r: seq<Class>)
    ensures |r| == |t|
  {
    seq(|t|, i requires 0 <= i < |t| => t[i].iface)
  }

  ghost predicate Distinct(t: seq<Class>) {
    forall i, j {:trigger t[i], t[j]} :: 0 <= i < j < |t| ==> t[i] != t[j]
  }

  /** With an interface, a table holds everything in the table of that interface. */
  ghost predicate Closed(t: seq<Class>)
    reads t
  {
    forall x, y {:trigger y in Ifaces(x)} :: x in t && y in Ifaces(x) ==> y in t
  }

  method Contains(t: seq<Class>, c: Class) returns (b: bool)
    ensures b <==> c in t
  {
    b := false;
    for j := 0 to |t|
      invariant !b && c !in t[..j]
    {
      if t[j] == c {
        return true;
      }
    }
  }

  /** Adds an interface that is not in the table, and those of its own table that are not. */
  method AddInterface(t: seq<Class>, iface: Class) returns (t': seq<Class>)
    requires Distinct(t) && iface !in t
    ensures Distinct(t') && t + [iface] <= t' && |t'| <= |t| + 1 + |Ifaces(iface)|
    ensures forall x {:trigger x in t'} :: x in t' <==> x in t || x == iface || x in Ifaces(iface)
  {
    t' := t + [iface];
    for j := 0 to |iface.ifTable|
      invariant Distinct(t') && t + [iface] <= t' && |t'| <= |t| + 1 + j
      invariant forall x {:trigger x in t'} :: x in t' <==> x in t || x == iface || x in Ifaces(iface)[..j]
    {
      var superInterface := iface.ifTable[j].iface;
      assert Ifaces(iface)[..j + 1] == Ifaces(iface)[..j] + [superInterface];
      var superDuplicate := Contains(t', superInterface);
      if !superDuplicate {
        t' := t' + [superInterface];
      }
    }
    assert Ifaces(iface)[..|iface.ifTable|] == Ifaces(iface);
  }

  /** The room that is set aside: the inherited interfaces, the direct ones and those in their tables. */
  function Room(inherited: nat, direct: seq<Class>, n: nat): nat
    requires n <= |direct|
    reads direct
  {
    if n == 0 then inherited else Room(inherited, direct, n - 1) + 1 + |Ifaces(direct[n - 1])|
  }

  /** `x` is inherited, or one of the first `n` direct interfaces, or in the table of one of them. */
  ghost predicate Wanted(inherited: seq<Class>, direct: seq<Class>, n: nat, x: Class)
    requires n <= |direct|
    reads direct
  {
    x in inherited || x in direct[..n] || exists d {:trigger Ifaces(d)} :: d in direct[..n] && x in Ifaces(d)
  }

  lemma WantedStep(inherited: seq<Class>, direct: seq<Class>, n: nat, x: Class)
    requires n < |direct|
    ensures Wanted(inherited, direct, n + 1, x) <==> Wanted(inherited, direct, n, x) || x == direct[n] || x in Ifaces(direct[n])
  {
    assert direct[..n + 1] == direct[..n] + [direct[n]];
    if x in Ifaces(direct[n]) {
      assert direct[n] in direct[..n + 1];
    }
  }

  lemma AlreadyThere(t: seq<Class>, iface: Class)
    requires Closed(t) && iface in t
    ensures forall y {:trigger y in t} :: y in Ifaces(iface) ==> y in t
  {
  }

  /** A table stays closed when an interface comes with its table. */
  lemma StaysClosed(t: seq<Class>, iface: Class, t': seq<Class>)
    requires Closed(t) && Closed(Ifaces(iface))
    requires forall x {:trigger x in t'} :: x in t' <==> x in t || x == iface || x in Ifaces(iface)
    ensures Closed(t')
  {
    forall x, y | x in t' && y in Ifaces(x) ensures y in t' {
      assert x in t ==> y in t;
      assert x in Ifaces(iface) ==> y in Ifaces(iface);
    }
  }

  /** The flattened table: the inherited interfaces first, then every direct interface and everything in
      its table, each once.  An interface already in the table is skipped with its table, which is there
      too.  It fails exactly when a direct interface is a class. */
  method Flatten(inherited: seq<Class>, direct: seq<Class>) returns (ok: bool, t: seq<Class>)
    requires Distinct(inherited) && Closed(inherited)
    requires forall d {:trigger Ifaces(d)} :: d in direct ==> Closed(Ifaces(d))
    ensures ok <==> forall d :: d in direct ==> d.isInterface
    ensures ok ==> Distinct(t) && Closed(t) && inherited <= t && |t| <= Room(|inherited|, direct, |direct|)
    ensures ok ==> forall x {:trigger x in t} :: x in t <==> Wanted(inherited, direct, |direct|, x)
  {
    ok, t := true, inherited;
    hide Closed, Distinct;
    for i := 0 to |direct|
      invariant ok && forall d :: d in direct[..i] ==> d.isInterface
      invariant Distinct(t) && Closed(t) && inherited <= t && |t| <= Room(|inherited|, direct, i)
      invariant forall x {:trigger x in t} :: x in t <==> Wanted(inherited, direct, i, x)
    {
      var iface := direct[i];
      assert direct[..i + 1] == direct[..i] + [iface];
      if !iface.isInterface {
        return false, t;
      }
      forall x ensures Wanted(inherited, direct, i + 1, x) <==> Wanted(inherited, direct, i, x) || x == iface || x in Ifaces(iface) {
        WantedStep(inherited, direct, i, x);
      }
      var duplicate := Contains(t, iface);
      if !duplicate {
        var t' := AddInterface(t, iface);
        assert Closed(Ifaces(iface));
        StaysClosed(t, iface, t');
        t := t';
      } else {
        AlreadyThere(t, iface);
      }
    }
    assert direct[..|direct|] == direct;
  }
}
