/**
 * `SubscriberMethodFinder.FindState`: the reusable scratch state of one walk
 * up a subscriber's class hierarchy.
 */
module FindStates {
  import opened Wrappers
  import opened JavaTypes
  import opened Exceptions
  import opened SubscriberMethods
  import opened CheckAdd

  /** What a generated index knows about one subscriber class. */
  datatype SubscriberInfo = SubscriberInfo(
    subscriberClass: ClassName,
    methods: seq<SubscriberMethod>,
    superSubscriberInfo: Option<SubscriberInfo>)

  /** The candidates (method, event type) a list of subscriber methods stands for. */
  function Candidates(ms: seq<SubscriberMethod>): seq<Candidate> {
    seq(|ms|, i requires 0 <= i < |ms| => Candidate(ms[i].methodInfo, ms[i].eventType))
  }

  lemma CandidatesAppend(ms: seq<SubscriberMethod>, sm: SubscriberMethod)
    ensures Candidates(ms + [sm]) == Candidates(ms) + [Candidate(sm.methodInfo, sm.eventType)]
  {
  }

  /** The packages of the platform's own classes. */
  const SystemPackages: seq<string> := ["java.", "javax.", "android.", "androidx."]

  /** Classes in one of the system packages end the walk. */
  function IsSystemClass(name: ClassName): (r: bool)
    ensures r <==> exists p | p in SystemPackages :: p <= name
  {
    assert forall p | p in SystemPackages :: p == "java." || p == "javax." || p == "android." || p == "androidx.";
    assert SystemPackages[0] in SystemPackages && SystemPackages[1] in SystemPackages;
    assert SystemPackages[2] in SystemPackages && SystemPackages[3] in SystemPackages;
    "java." <= name || "javax." <= name || "android." <= name || "androidx." <= name
  }

  class FindState {
    var subscriberMethods: seq<SubscriberMethod>
    var anyMethodByEventType: map<ClassName, AnyMethod>
    var subscriberClassByMethodKey: map<string, ClassName>
    var subscriberClass: Option<ClassName>
    var clazz: Option<ClassName>
    var skipSuperClasses: bool
    var subscriberInfo: Option<SubscriberInfo>

    /** The two maps of the duplicate filter. */
    function CheckMaps(): Maps
      reads this
    {
      Maps(anyMethodByEventType, subscriberClassByMethodKey)
    }

    /** The state of a fresh or recycled FindState. */
    ghost predicate IsClear()
      reads this
    {
      && subscriberMethods == []
      && anyMethodByEventType == map[]
      && subscriberClassByMethodKey == map[]
      && subscriberClass.None? && clazz.None?
      && !skipSuperClasses
      && subscriberInfo.None?
    }

    constructor()
      ensures IsClear()
    {
      subscriberMethods := [];
      anyMethodByEventType := map[];
      subscriberClassByMethodKey := map[];
      subscriberClass := None;
      clazz := None;
      skipSuperClasses := false;
      subscriberInfo := None;
    }

    /** `initForSubscriber`: starts a walk at `cls`; the collections are left as they are. */
    method InitForSubscriber(cls: ClassName)
      modifies this`subscriberClass, this`clazz, this`skipSuperClasses, this`subscriberInfo
      ensures subscriberClass == Some(cls) && clazz == Some(cls)
      ensures !skipSuperClasses && subscriberInfo.None?
    {
      subscriberClass := Some(cls);
      clazz := Some(cls);
      skipSuperClasses := false;
      subscriberInfo := None;
    }

    /** `recycle`: empties every collection and resets every field. */
    method Recycle()
      modifies this
      ensures IsClear()
    {
      subscriberMethods := [];
      anyMethodByEventType := map[];
      subscriberClassByMethodKey := map[];
      subscriberClass := None;
      clazz := None;
      skipSuperClasses := false;
      subscriberInfo := None;
    }

    /**
     * `checkAddWithMethodSignature`: put the declaring class under the
     * method key, and put the old class back when it is not a supertype.
     */
    method CheckAddWithMethodSignature(h: Hierarchy, m: MethodInfo, t: ClassName) returns (ok: bool)
      requires WellFormed(h) && m.declaringClass in h
      modifies this`subscriberClassByMethodKey
      ensures (ok, subscriberClassByMethodKey) == SignatureCheck(h, old(subscriberClassByMethodKey), m, t)
      ensures ok <==> MethodKey(m.name, t) !in old(subscriberClassByMethodKey)
                      || IsAssignableFrom(h, old(subscriberClassByMethodKey)[MethodKey(m.name, t)], m.declaringClass)
      ensures subscriberClassByMethodKey.Keys >= old(subscriberClassByMethodKey.Keys)
    {
      var methodKey := m.name + ">" + t;
      var methodClassOld := if methodKey in subscriberClassByMethodKey
        then Some(subscriberClassByMethodKey[methodKey]) else None;
      subscriberClassByMethodKey := subscriberClassByMethodKey[methodKey := m.declaringClass];
      if methodClassOld.None? || IsAssignableFrom(h, methodClassOld.value, m.declaringClass) {
        ok := true;
      } else {
        subscriberClassByMethodKey := subscriberClassByMethodKey[methodKey := methodClassOld.value];
        ok := false;
      }
    }

    /**
     * `checkAdd`: the first method for an event type is accepted at once;
     * from the second on, the stored method (if any) is re-checked and the
     * type is marked, and the signature check decides. The marker is written
     * on every path that reaches the signature check.
     */
    method CheckAdd(h: Hierarchy, m: MethodInfo, t: ClassName) returns (r: Result<bool, Exception>)
      requires MapsOk(h, CheckMaps()) && Checkable(h, m)
      modifies this`anyMethodByEventType, this`subscriberClassByMethodKey
      ensures
        var spec := CheckAddFixed(h, old(CheckMaps()), m, t);
        && (r.Success? <==> spec.Success?)
        && (r.Success? ==> r.value == spec.value.0 && CheckMaps() == spec.value.1)
    {
      var existing := if t in anyMethodByEventType then Some(anyMethodByEventType[t]) else None;
      anyMethodByEventType := anyMethodByEventType[t := AMethod(m)];
      if existing.None? {
        return Success(true);
      }
      if existing.value.AMethod? {
        var ok := CheckAddWithMethodSignature(h, existing.value.m, t);
        if !ok {
          return Failure(IllegalStateException);
        }
      }
      anyMethodByEventType := anyMethodByEventType[t := Marker];
      var accepted := CheckAddWithMethodSignature(h, m, t);
      return Success(accepted);
    }

    /**
     * `moveToSuperclass`: ends the walk when superclasses are skipped or the
     * superclass is a system class; a root class without a superclass makes
     * `getName()` fail on null.
     */
    method MoveToSuperclass(h: Hierarchy) returns (r: Result<(), Exception>)
      requires WellFormed(h) && clazz.Some? && clazz.value in h
      modifies this`clazz
      ensures skipSuperClasses ==> r.Success? && clazz.None?
      ensures !skipSuperClasses && h[old(clazz.value)].superclass.None? ==>
        r == Failure(NullPointerException) && clazz.None?
      ensures !skipSuperClasses && h[old(clazz.value)].superclass.Some? ==>
        var s := h[old(clazz.value)].superclass.value;
        r.Success? && clazz == (if IsSystemClass(s) then None else Some(s))
      ensures clazz.Some? ==>
        && clazz.value in h
        && h[clazz.value].depth < h[old(clazz.value)].depth
        && IsAssignableFrom(h, clazz.value, old(clazz.value))
        && !IsSystemClass(clazz.value)
    {
      if skipSuperClasses {
        clazz := None;
        return Success(());
      }
      assert ClassOk(h, clazz.value);
      clazz := h[clazz.value].superclass;
      if clazz.None? {
        return Failure(NullPointerException);
      }
      if IsSystemClass(clazz.value) {
        clazz := None;
      }
      return Success(());
    }
  }
}
