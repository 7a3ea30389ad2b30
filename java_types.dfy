/**
 * The part of Java's runtime type information the dispatcher consults: a finite
 * class hierarchy in which every class has an optional superclass, a list of
 * directly implemented interfaces and its declared methods.
 */
module JavaTypes {
  import opened Wrappers

  /** A class is identified by its fully qualified binary name. */
  type ClassName = string

  /**
   * Java binary names and method names never contain '#', '(' or '>', the
   * separators the dispatcher uses to build its method keys.
   */
  predicate ValidName(s: string) {
    '#' !in s && '(' !in s && '>' !in s
  }

  /** The `threadMode` of a `@Subscribe` annotation. */
  datatype ThreadMode = POSTING | MAIN | MAIN_ORDERED | BACKGROUND | ASYNC

  /** The values of a `@Subscribe` annotation. */
  datatype Subscribe = Subscribe(threadMode: ThreadMode, priority: int, sticky: bool)

  /** Modifier bits as `java.lang.reflect.Modifier` and the class-file format define them. */
  type Modifiers = bv32
  const PUBLIC: Modifiers := 0x1
  const STATIC: Modifiers := 0x8
  const BRIDGE: Modifiers := 0x40
  const ABSTRACT: Modifiers := 0x400
  const SYNTHETIC: Modifiers := 0x1000

  /** A declared method as reflection reports it. */
  datatype MethodInfo = MethodInfo(
    name: string,
    declaringClass: ClassName,
    modifiers: Modifiers,
    parameterTypes: seq<ClassName>,
    annotation: Option<Subscribe>)

  /**
   * One class of the hierarchy. `depth` is a rank that strictly decreases
   * from a class to its superclass and to its interfaces (every acyclic
   * hierarchy has one); it only serves to prove that walks terminate.
   */
  datatype ClassInfo = ClassInfo(
    superclass: Option<ClassName>,
    interfaces: seq<ClassName>,
    isInterface: bool,
    declaredMethods: seq<MethodInfo>,
    depth: nat)

  type Hierarchy = map<ClassName, ClassInfo>

  /** The conditions Java's class model guarantees for one class `c`. */
  predicate ClassOk(h: Hierarchy, c: ClassName)
    requires c in h
  {
    var info := h[c];
    && ValidName(c)
    && (info.superclass.Some? ==>
          && info.superclass.value in h
          && !h[info.superclass.value].isInterface
          && h[info.superclass.value].depth < info.depth)
    && (info.isInterface ==> info.superclass.None?)
    && (forall i | i in info.interfaces ::
          i in h && h[i].isInterface && h[i].depth < info.depth)
    && (forall m | m in info.declaredMethods ::
          m.declaringClass == c && ValidName(m.name)
          && forall p | p in m.parameterTypes :: p in h)
  }

  predicate WellFormed(h: Hierarchy) {
    forall c {:trigger ClassOk(h, c)} | c in h :: ClassOk(h, c)
  }

  /**
   * `sup.isAssignableFrom(sub)`: `sup` is `sub` itself, or is assignable from
   * the superclass of `sub` or from one of its interfaces.
   */
  predicate IsAssignableFrom(h: Hierarchy, sup: ClassName, sub: ClassName)
    requires WellFormed(h) && sub in h
    decreases h[sub].depth
  {
    assert ClassOk(h, sub);
    || sup == sub
    || (h[sub].superclass.Some? && IsAssignableFrom(h, sup, h[sub].superclass.value))
    || (exists i | i in h[sub].interfaces :: IsAssignableFrom(h, sup, i))
  }

  /** A supertype is a class of the hierarchy with a depth no larger than its subtype's. */
  lemma {:induction false} AssignableDepth(h: Hierarchy, sup: ClassName, sub: ClassName)
    requires WellFormed(h) && sub in h
    requires IsAssignableFrom(h, sup, sub)
    ensures sup in h && h[sup].depth <= h[sub].depth
    ensures sup != sub ==> h[sup].depth < h[sub].depth
    decreases h[sub].depth
  {
    assert ClassOk(h, sub);
    if sup == sub {
    } else if h[sub].superclass.Some? && IsAssignableFrom(h, sup, h[sub].superclass.value) {
      AssignableDepth(h, sup, h[sub].superclass.value);
    } else {
      var i :| i in h[sub].interfaces && IsAssignableFrom(h, sup, i);
      AssignableDepth(h, sup, i);
    }
  }

  /** Assignability is antisymmetric: the hierarchy has no cycles. */
  lemma AssignableAntisymmetric(h: Hierarchy, a: ClassName, b: ClassName)
    requires WellFormed(h) && a in h && b in h
    requires IsAssignableFrom(h, a, b) && IsAssignableFrom(h, b, a)
    ensures a == b
  {
    AssignableDepth(h, a, b);
    AssignableDepth(h, b, a);
  }

  /** Assignability is transitive. */
  lemma {:induction false} AssignableTransitive(h: Hierarchy, a: ClassName, b: ClassName, c: ClassName)
    requires WellFormed(h) && b in h && c in h
    requires IsAssignableFrom(h, a, b) && IsAssignableFrom(h, b, c)
    ensures IsAssignableFrom(h, a, c)
    decreases h[c].depth
  {
    assert ClassOk(h, c);
    if b == c {
    } else if h[c].superclass.Some? && IsAssignableFrom(h, b, h[c].superclass.value) {
      AssignableTransitive(h, a, b, h[c].superclass.value);
    } else {
      var i :| i in h[c].interfaces && IsAssignableFrom(h, b, i);
      AssignableTransitive(h, a, b, i);
    }
  }

  /** Every supertype of an interface is an interface (interfaces have no superclass). */
  lemma {:induction false} InterfaceSupertypes(h: Hierarchy, sup: ClassName, sub: ClassName)
    requires WellFormed(h) && sub in h && h[sub].isInterface
    requires IsAssignableFrom(h, sup, sub)
    ensures sup in h && h[sup].isInterface
    decreases h[sub].depth
  {
    assert ClassOk(h, sub);
    if sup != sub {
      var i :| i in h[sub].interfaces && IsAssignableFrom(h, sup, i);
      InterfaceSupertypes(h, sup, i);
    }
  }

  /**
   * Two strings built as `x + sep + y` from parts whose left part has no
   * `sep` agree exactly when their parts agree: keys joined with a separator
   * that names cannot contain are unambiguous.
   */
  lemma {:induction false} SeparatorSplit(x: string, y: string, x': string, y': string, sep: char)
    requires sep !in x && sep !in x'
    requires x + [sep] + y == x' + [sep] + y'
    ensures x == x' && y == y'
    decreases |x|
  {
    assert x != [] ==> (x + [sep] + y)[0] == x[0] != sep;
    assert x' != [] ==> (x' + [sep] + y')[0] == x'[0] != sep;
    if x == [] || x' == [] {
      assert x == [] && x' == [];
      assert y == (x + [sep] + y)[1..];
      assert y' == (x' + [sep] + y')[1..];
    } else {
      assert x + [sep] + y == [x[0]] + (x[1..] + [sep] + y);
      assert x' + [sep] + y' == [x'[0]] + (x'[1..] + [sep] + y');
      assert (x[1..] + [sep] + y) == (x + [sep] + y)[1..];
      assert (x'[1..] + [sep] + y') == (x' + [sep] + y')[1..];
      SeparatorSplit(x[1..], y, x'[1..], y', sep);
      assert x == [x[0]] + x[1..];
      assert x' == [x'[0]] + x'[1..];
    }
  }
}
