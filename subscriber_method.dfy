/**
 * Handler descriptors (`SubscriberMethod`): the resolved metadata of one
 * `@Subscribe` method, and the identity key that decides when two
 * descriptors denote the same handler.
 */
module SubscriberMethods {
  import opened Wrappers
  import opened JavaTypes

  /**
   * A handler descriptor. Everything but the lazily built `methodString`
   * is fixed at construction.
   */
  class SubscriberMethod {
    const methodInfo: MethodInfo
    const threadMode: ThreadMode
    const eventType: ClassName
    const priority: int
    const sticky: bool
    /** Cache of `Key()`, filled on the first comparison. */
    var methodString: Option<string>

    constructor (methodInfo: MethodInfo, eventType: ClassName, threadMode: ThreadMode, priority: int, sticky: bool)
      ensures this.methodInfo == methodInfo && this.eventType == eventType && this.threadMode == threadMode
      ensures this.priority == priority && this.sticky == sticky
      ensures methodString == None && Valid()
    {
      this.methodInfo := methodInfo;
      this.threadMode := threadMode;
      this.eventType := eventType;
      this.priority := priority;
      this.sticky := sticky;
      methodString := None;
    }

    /** The identity key `declaringClass#name(eventType`. */
    function Key(): string {
      methodInfo.declaringClass + "#" + methodInfo.name + "(" + eventType
    }

    /** The cache, once set, holds the key. */
    ghost predicate Valid()
      reads this
    {
      methodString.Some? ==> methodString.value == Key()
    }

    /** Builds the key at most once: an existing cached key is kept as it is. */
    method CheckMethodString()
      requires Valid()
      modifies this`methodString
      ensures Valid() && methodString == Some(Key())
      ensures old(methodString).Some? ==> methodString == old(methodString)
    {
      if methodString.None? {
        methodString := Some(methodInfo.declaringClass + "#" + methodInfo.name + "(" + eventType);
      }
    }

    /**
     * `equals(Object)`: true for the same object, false for anything that is
     * not a descriptor, and otherwise decided by the two keys.
     */
    method Equals(other: Other) returns (eq: bool)
      requires Valid()
      requires other.Descriptor? ==> other.m.Valid()
      modifies this`methodString, if other.Descriptor? then {other.m} else {}
      ensures Valid() && (other.Descriptor? ==> other.m.Valid())
      ensures eq <==> other.Descriptor? && SameMethod(this, other.m)
    {
      match other
      case NotADescriptor =>
        eq := false;
      case Descriptor(m) =>
        if m == this {
          eq := true;
        } else {
          CheckMethodString();
          m.CheckMethodString();
          eq := methodString.value == m.methodString.value;
        }
    }
  }

  /** The argument of `equals`: a descriptor, or any other object. */
  datatype Other = Descriptor(m: SubscriberMethod) | NotADescriptor

  /** Descriptor equality as `equals` decides it: equal keys. */
  predicate SameMethod(a: SubscriberMethod, b: SubscriberMethod) {
    a.Key() == b.Key()
  }

  /** Names from which a key can be built unambiguously. */
  predicate KeyableNames(m: SubscriberMethod) {
    ValidName(m.methodInfo.declaringClass) && ValidName(m.methodInfo.name) && ValidName(m.eventType)
  }

  /**
   * Two descriptors are equal exactly when their declaring classes, method
   * names and event types are; thread mode, priority and sticky flag play no
   * part, and equality is reflexive, symmetric and transitive.
   */
  lemma SameMethodIff(a: SubscriberMethod, b: SubscriberMethod)
    requires KeyableNames(a) && KeyableNames(b)
    ensures SameMethod(a, b) <==>
      && a.methodInfo.declaringClass == b.methodInfo.declaringClass
      && a.methodInfo.name == b.methodInfo.name
      && a.eventType == b.eventType
  {
    if SameMethod(a, b) {
      var ca, na, ea := a.methodInfo.declaringClass, a.methodInfo.name, a.eventType;
      var cb, nb, eb := b.methodInfo.declaringClass, b.methodInfo.name, b.eventType;
      assert a.Key() == ca + ['#'] + (na + ['('] + ea);
      assert b.Key() == cb + ['#'] + (nb + ['('] + eb);
      SeparatorSplit(ca, na + ['('] + ea, cb, nb + ['('] + eb, '#');
      SeparatorSplit(na, ea, nb, eb, '(');
    }
  }
}
