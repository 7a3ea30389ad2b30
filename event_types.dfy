/**
 * `lookupAllEventTypes` / `addInterfaces`: the event types an event is
 * delivered as when event inheritance is on, which are its class, each
 * superclass, and every interface any of them implements, directly or
 * through super-interfaces.
 */
module EventTypes {
  import opened JavaTypes

  /** No class occurs twice. */
  predicate NoDup(s: seq<ClassName>) {
    forall i, j | 0 <= i < j < |s| :: s[i] != s[j]
  }

  /** `ifs` are interfaces of the hierarchy whose depth is below `bound`. */
  ghost predicate InterfacesBelow(h: Hierarchy, ifs: seq<ClassName>, bound: nat) {
    forall i | i in ifs :: i in h && h[i].isInterface && h[i].depth < bound
  }

  /**
   * `addInterfaces(acc, ifs)`: each interface not yet listed is appended and
   * followed, depth first, by its own super-interfaces. `bound` exceeds the
   * depth of every interface in `ifs`; it only orders the recursion.
   */
  ghost function AddInterfacesSpec(h: Hierarchy, acc: seq<ClassName>, ifs: seq<ClassName>, bound: nat): seq<ClassName>
    requires WellFormed(h) && InterfacesBelow(h, ifs, bound)
    decreases bound, |ifs|
  {
    if ifs == [] then acc
    else if ifs[0] in acc then AddInterfacesSpec(h, acc, ifs[1..], bound)
    else
      assert ClassOk(h, ifs[0]);
      var acc' := AddInterfacesSpec(h, acc + [ifs[0]], h[ifs[0]].interfaces, h[ifs[0]].depth);
      AddInterfacesSpec(h, acc', ifs[1..], bound)
  }

  /**
   * The list `lookupAllEventTypes` builds from `acc` at class `cls`: `cls`,
   * its interfaces, then the same for its superclass.
   */
  ghost function CollectChain(h: Hierarchy, acc: seq<ClassName>, cls: ClassName): seq<ClassName>
    requires WellFormed(h) && cls in h
    decreases h[cls].depth
  {
    assert ClassOk(h, cls);
    var acc' := AddInterfacesSpec(h, acc + [cls], h[cls].interfaces, h[cls].depth);
    match h[cls].superclass
    case None => acc'
    case Some(s) => CollectChain(h, acc', s)
  }

  /** All event types of `eventClass`, in the order `lookupAllEventTypes` lists them. */
  ghost function AllEventTypes(h: Hierarchy, eventClass: ClassName): seq<ClassName>
    requires WellFormed(h) && eventClass in h
  {
    CollectChain(h, [], eventClass)
  }

  /** `addInterfaces`: the recursive list walk, appending to a copy of `eventTypes`. */
  method AddInterfaces(h: Hierarchy, eventTypes: seq<ClassName>, interfaces: seq<ClassName>, ghost bound: nat)
    returns (result: seq<ClassName>)
    requires WellFormed(h) && InterfacesBelow(h, interfaces, bound)
    ensures result == AddInterfacesSpec(h, eventTypes, interfaces, bound)
    decreases bound, |interfaces|
  {
    result := eventTypes;
    for k := 0 to |interfaces|
      invariant AddInterfacesSpec(h, result, interfaces[k..], bound) == AddInterfacesSpec(h, eventTypes, interfaces, bound)
    {
      var interfaceClass := interfaces[k];
      assert interfaces[k..][1..] == interfaces[k + 1..];
      if interfaceClass !in result {
        result := result + [interfaceClass];
        assert ClassOk(h, interfaceClass);
        result := AddInterfaces(h, result, h[interfaceClass].interfaces, h[interfaceClass].depth);
      }
    }
  }

  /** `addInterfaces` only appends to the list it is given. */
  lemma {:induction false} AddInterfacesPrefix(h: Hierarchy, acc: seq<ClassName>, ifs: seq<ClassName>, bound: nat)
    requires WellFormed(h) && InterfacesBelow(h, ifs, bound)
    ensures acc <= AddInterfacesSpec(h, acc, ifs, bound)
    decreases bound, |ifs|
  {
    if ifs == [] {
    } else if ifs[0] in acc {
      AddInterfacesPrefix(h, acc, ifs[1..], bound);
    } else {
      var i := ifs[0];
      assert ClassOk(h, i);
      AddInterfacesPrefix(h, acc + [i], h[i].interfaces, h[i].depth);
      AddInterfacesPrefix(h, AddInterfacesSpec(h, acc + [i], h[i].interfaces, h[i].depth), ifs[1..], bound);
    }
  }

  /** Every interface handed to `addInterfaces` ends up listed. */
  lemma {:induction false} AddInterfacesCovers(h: Hierarchy, acc: seq<ClassName>, ifs: seq<ClassName>, bound: nat)
    requires WellFormed(h) && InterfacesBelow(h, ifs, bound)
    ensures forall i | i in ifs :: i in AddInterfacesSpec(h, acc, ifs, bound)
    decreases bound, |ifs|
  {
    if ifs != [] {
      var r := AddInterfacesSpec(h, acc, ifs, bound);
      if ifs[0] in acc {
        AddInterfacesCovers(h, acc, ifs[1..], bound);
        AddInterfacesPrefix(h, acc, ifs[1..], bound);
      } else {
        var i := ifs[0];
        assert ClassOk(h, i);
        var acc2 := AddInterfacesSpec(h, acc + [i], h[i].interfaces, h[i].depth);
        AddInterfacesPrefix(h, acc + [i], h[i].interfaces, h[i].depth);
        AddInterfacesPrefix(h, acc2, ifs[1..], bound);
        AddInterfacesCovers(h, acc2, ifs[1..], bound);
        assert i in acc2 by {
          assert (acc + [i])[|acc|] == i;
        }
      }
      assert ifs == [ifs[0]] + ifs[1..];
    }
  }

  /** Each entry `addInterfaces` appends is an interface whose super-interfaces are listed too. */
  lemma {:induction false} AddInterfacesClosed(h: Hierarchy, acc: seq<ClassName>, ifs: seq<ClassName>, bound: nat)
    requires WellFormed(h) && InterfacesBelow(h, ifs, bound)
    ensures var r := AddInterfacesSpec(h, acc, ifs, bound);
      forall y | y in r && y !in acc :: y in h && h[y].isInterface && forall j | j in h[y].interfaces :: j in r
    decreases bound, |ifs|
  {
    if ifs == [] {
    } else if ifs[0] in acc {
      AddInterfacesClosed(h, acc, ifs[1..], bound);
    } else {
      var i := ifs[0];
      assert ClassOk(h, i);
      var acc1 := acc + [i];
      var acc2 := AddInterfacesSpec(h, acc1, h[i].interfaces, h[i].depth);
      var r := AddInterfacesSpec(h, acc2, ifs[1..], bound);
      AddInterfacesClosed(h, acc1, h[i].interfaces, h[i].depth);
      AddInterfacesCovers(h, acc1, h[i].interfaces, h[i].depth);
      AddInterfacesClosed(h, acc2, ifs[1..], bound);
      AddInterfacesPrefix(h, acc2, ifs[1..], bound);
      forall y | y in r && y !in acc
        ensures y in h && h[y].isInterface && forall j | j in h[y].interfaces :: j in r
      {
        if y !in acc2 {
        } else if y == i {
        } else {
          assert y !in acc1;
        }
      }
    }
  }

  /** `addInterfaces` never lists an interface twice. */
  lemma {:induction false} AddInterfacesNoDup(h: Hierarchy, acc: seq<ClassName>, ifs: seq<ClassName>, bound: nat)
    requires WellFormed(h) && InterfacesBelow(h, ifs, bound) && NoDup(acc)
    ensures NoDup(AddInterfacesSpec(h, acc, ifs, bound))
    decreases bound, |ifs|
  {
    if ifs == [] {
    } else if ifs[0] in acc {
      AddInterfacesNoDup(h, acc, ifs[1..], bound);
    } else {
      var i := ifs[0];
      assert ClassOk(h, i);
      assert NoDup(acc + [i]);
      AddInterfacesNoDup(h, acc + [i], h[i].interfaces, h[i].depth);
      AddInterfacesNoDup(h, AddInterfacesSpec(h, acc + [i], h[i].interfaces, h[i].depth), ifs[1..], bound);
    }
  }

  /** Everything `addInterfaces` appends is a supertype of `c` when the inputs are. */
  lemma {:induction false} AddInterfacesSound(h: Hierarchy, acc: seq<ClassName>, ifs: seq<ClassName>, bound: nat, c: ClassName)
    requires WellFormed(h) && InterfacesBelow(h, ifs, bound) && c in h
    requires forall y | y in acc + ifs :: IsAssignableFrom(h, y, c)
    ensures forall y | y in AddInterfacesSpec(h, acc, ifs, bound) :: IsAssignableFrom(h, y, c)
    decreases bound, |ifs|
  {
    if ifs == [] {
    } else if ifs[0] in acc {
      AddInterfacesSound(h, acc, ifs[1..], bound, c);
    } else {
      var i := ifs[0];
      assert ClassOk(h, i);
      assert IsAssignableFrom(h, i, c);
      forall j | j in h[i].interfaces ensures IsAssignableFrom(h, j, c) {
        assert IsAssignableFrom(h, j, i);
        AssignableTransitive(h, j, i, c);
      }
      AddInterfacesSound(h, acc + [i], h[i].interfaces, h[i].depth, c);
      AddInterfacesSound(h, AddInterfacesSpec(h, acc + [i], h[i].interfaces, h[i].depth), ifs[1..], bound, c);
    }
  }

  /** The walk up the superclass chain only appends, starting with `cls`. */
  lemma {:induction false} ChainPrefix(h: Hierarchy, acc: seq<ClassName>, cls: ClassName)
    requires WellFormed(h) && cls in h
    ensures acc + [cls] <= CollectChain(h, acc, cls)
    decreases h[cls].depth
  {
    assert ClassOk(h, cls);
    var acc' := AddInterfacesSpec(h, acc + [cls], h[cls].interfaces, h[cls].depth);
    AddInterfacesPrefix(h, acc + [cls], h[cls].interfaces, h[cls].depth);
    if h[cls].superclass.Some? {
      ChainPrefix(h, acc', h[cls].superclass.value);
    }
  }

  /**
   * Every entry the walk appends has its interfaces and its superclass
   * listed as well.
   */
  lemma {:induction false} ChainClosed(h: Hierarchy, acc: seq<ClassName>, cls: ClassName)
    requires WellFormed(h) && cls in h
    ensures var r := CollectChain(h, acc, cls);
      forall y | y in r && y !in acc ::
        && y in h
        && (forall j | j in h[y].interfaces :: j in r)
        && (h[y].superclass.Some? ==> h[y].superclass.value in r)
    decreases h[cls].depth
  {
    assert ClassOk(h, cls);
    var acc1 := acc + [cls];
    var acc' := AddInterfacesSpec(h, acc1, h[cls].interfaces, h[cls].depth);
    var r := CollectChain(h, acc, cls);
    AddInterfacesClosed(h, acc1, h[cls].interfaces, h[cls].depth);
    AddInterfacesCovers(h, acc1, h[cls].interfaces, h[cls].depth);
    AddInterfacesPrefix(h, acc1, h[cls].interfaces, h[cls].depth);
    if h[cls].superclass.Some? {
      var s := h[cls].superclass.value;
      ChainClosed(h, acc', s);
      ChainPrefix(h, acc', s);
      assert s in r by {
        assert (acc' + [s])[|acc'|] == s;
      }
    }
    forall z | z in acc' ensures z in r {
      var k :| 0 <= k < |acc'| && acc'[k] == z;
      assert r[k] == z;
    }
    forall y | y in r && y !in acc
      ensures && y in h
              && (forall j | j in h[y].interfaces :: j in r)
              && (h[y].superclass.Some? ==> h[y].superclass.value in r)
    {
      if y !in acc' {
      } else if y == cls {
      } else {
        assert y !in acc1;
        assert ClassOk(h, y);
      }
    }
  }

  /**
   * The walk lists no class twice, given that what is already listed holds
   * only interfaces and classes deeper than `cls`.
   */
  lemma {:induction false} ChainNoDup(h: Hierarchy, acc: seq<ClassName>, cls: ClassName)
    requires WellFormed(h) && cls in h && NoDup(acc) && cls !in acc
    requires forall y | y in acc :: y in h && (h[y].isInterface || h[y].depth > h[cls].depth)
    ensures NoDup(CollectChain(h, acc, cls))
    decreases h[cls].depth
  {
    assert ClassOk(h, cls);
    var acc1 := acc + [cls];
    assert NoDup(acc1);
    var acc' := AddInterfacesSpec(h, acc1, h[cls].interfaces, h[cls].depth);
    AddInterfacesNoDup(h, acc1, h[cls].interfaces, h[cls].depth);
    if h[cls].superclass.Some? {
      var s := h[cls].superclass.value;
      AddInterfacesClosed(h, acc1, h[cls].interfaces, h[cls].depth);
      forall y | y in acc' ensures y in h && (h[y].isInterface || h[y].depth > h[s].depth) {
        if y !in acc1 {
        } else if y == cls {
        } else {
          assert y in acc;
        }
      }
      ChainNoDup(h, acc', s);
    }
  }

  /** Everything the walk lists is a supertype of `c` when its inputs are. */
  lemma {:induction false} ChainSound(h: Hierarchy, acc: seq<ClassName>, cls: ClassName, c: ClassName)
    requires WellFormed(h) && cls in h && c in h
    requires forall y | y in acc :: IsAssignableFrom(h, y, c)
    requires IsAssignableFrom(h, cls, c)
    ensures forall y | y in CollectChain(h, acc, cls) :: IsAssignableFrom(h, y, c)
    decreases h[cls].depth
  {
    assert ClassOk(h, cls);
    var acc1 := acc + [cls];
    forall y | y in acc1 + h[cls].interfaces ensures IsAssignableFrom(h, y, c) {
      if y in h[cls].interfaces {
        assert IsAssignableFrom(h, y, cls);
        AssignableTransitive(h, y, cls, c);
      }
    }
    AddInterfacesSound(h, acc1, h[cls].interfaces, h[cls].depth, c);
    if h[cls].superclass.Some? {
      var s := h[cls].superclass.value;
      assert IsAssignableFrom(h, s, cls);
      AssignableTransitive(h, s, cls, c);
      ChainSound(h, AddInterfacesSpec(h, acc1, h[cls].interfaces, h[cls].depth), s, c);
    }
  }

  /** A list closed under superclass and interfaces holds every supertype of its members. */
  lemma {:induction false} ClosedHoldsSupertypes(h: Hierarchy, r: seq<ClassName>, sub: ClassName, x: ClassName)
    requires WellFormed(h) && sub in h && sub in r
    requires forall y | y in r ::
      && y in h
      && (forall j | j in h[y].interfaces :: j in r)
      && (h[y].superclass.Some? ==> h[y].superclass.value in r)
    requires IsAssignableFrom(h, x, sub)
    ensures x in r
    decreases h[sub].depth
  {
    assert ClassOk(h, sub);
    if x == sub {
    } else if h[sub].superclass.Some? && IsAssignableFrom(h, x, h[sub].superclass.value) {
      ClosedHoldsSupertypes(h, r, h[sub].superclass.value, x);
    } else {
      var i :| i in h[sub].interfaces && IsAssignableFrom(h, x, i);
      ClosedHoldsSupertypes(h, r, i, x);
    }
  }

  /** `lookupAllEventTypes` lists the event class itself first. */
  lemma AllEventTypesFirst(h: Hierarchy, eventClass: ClassName)
    requires WellFormed(h) && eventClass in h
    ensures var r := AllEventTypes(h, eventClass); |r| > 0 && r[0] == eventClass
  {
    ChainPrefix(h, [], eventClass);
  }

  /** `lookupAllEventTypes` lists no type twice. */
  lemma AllEventTypesNoDup(h: Hierarchy, eventClass: ClassName)
    requires WellFormed(h) && eventClass in h
    ensures NoDup(AllEventTypes(h, eventClass))
  {
    ChainNoDup(h, [], eventClass);
  }

  /**
   * `lookupAllEventTypes` lists exactly the types `eventClass` is assignable
   * to: its class, its superclasses and all their interfaces.
   */
  lemma AllEventTypesExact(h: Hierarchy, eventClass: ClassName)
    requires WellFormed(h) && eventClass in h
    ensures forall x :: x in AllEventTypes(h, eventClass) <==> IsAssignableFrom(h, x, eventClass)
  {
    var r := AllEventTypes(h, eventClass);
    ChainSound(h, [], eventClass, eventClass);
    ChainClosed(h, [], eventClass);
    ChainPrefix(h, [], eventClass);
    assert eventClass in r by {
      assert [] + [eventClass] == [eventClass];
      assert r[0] == eventClass;
    }
    forall x | IsAssignableFrom(h, x, eventClass) ensures x in r {
      ClosedHoldsSupertypes(h, r, eventClass, x);
    }
  }
}
