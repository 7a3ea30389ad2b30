/**
 * `SubscriberMethodFinder`: finds the subscriber methods of a class, from a
 * generated index where one knows the class and by reflection otherwise,
 * walking up the superclass chain, with a per-class result cache and a small
 * pool of reusable `FindState`s.
 */
module Finder {
  import opened Wrappers
  import opened JavaTypes
  import opened Exceptions
  import opened SubscriberMethods
  import opened CheckAdd
  import opened FindStates

  const POOL_SIZE := 4

  /** Methods with any of these modifiers are never subscriber methods. */
  const MODIFIERS_IGNORE: Modifiers := ABSTRACT | STATIC | BRIDGE | SYNTHETIC

  /** `SubscriberInfoIndex`: a generated lookup from a subscriber class to its info. */
  type SubscriberInfoIndex = map<ClassName, SubscriberInfo>

  /** Public, and neither abstract, static, bridge nor synthetic. */
  predicate ModifiersOk(m: MethodInfo) {
    (m.modifiers & PUBLIC) != 0 && (m.modifiers & MODIFIERS_IGNORE) == 0
  }

  /** What reflection accepts as a subscriber method. */
  predicate IsSubscriberMethod(m: MethodInfo) {
    ModifiersOk(m) && |m.parameterTypes| == 1 && m.annotation.Some?
  }

  /** An annotated method that strict verification refuses. */
  predicate StrictViolation(m: MethodInfo) {
    m.annotation.Some? && !(ModifiersOk(m) && |m.parameterTypes| == 1)
  }

  /** The exception strict verification throws for `m`. */
  function ViolationOf(m: MethodInfo): Exception
    requires StrictViolation(m)
  {
    if ModifiersOk(m) then WrongParameterCount(m.declaringClass, m.name, |m.parameterTypes|)
    else IllegalSubscriberMethod(m.declaringClass, m.name)
  }

  /** The exception for the first method of `ms` strict verification refuses, if any. */
  function FirstViolation(ms: seq<MethodInfo>): Option<Exception> {
    if ms == [] then None
    else if StrictViolation(ms[0]) then Some(ViolationOf(ms[0]))
    else FirstViolation(ms[1..])
  }

  /** Skipping a prefix without violations does not change the first violation. */
  lemma {:induction false} FirstViolationAfter(ms: seq<MethodInfo>, i: nat)
    requires i <= |ms| && forall j | 0 <= j < i :: !StrictViolation(ms[j])
    ensures FirstViolation(ms) == FirstViolation(ms[i..])
    ensures i < |ms| && StrictViolation(ms[i]) ==> FirstViolation(ms) == Some(ViolationOf(ms[i]))
    ensures i == |ms| ==> FirstViolation(ms) == None
  {
    if i > 0 {
      FirstViolationAfter(ms[1..], i - 1);
      assert ms[1..][i - 1..] == ms[i..];
    }
  }

  /** The subscriber method reflection builds from an annotated method. */
  predicate FromAnnotation(sm: SubscriberMethod)
    requires IsSubscriberMethod(sm.methodInfo)
  {
    var a := sm.methodInfo.annotation.value;
    && sm.eventType == sm.methodInfo.parameterTypes[0]
    && sm.threadMode == a.threadMode && sm.priority == a.priority && sm.sticky == a.sticky
  }

  /** A subscriber method `m` was kept, or dropped for an override among `found`. */
  ghost predicate Found(found: seq<Candidate>, m: MethodInfo)
    requires IsSubscriberMethod(m)
  {
    var t := m.parameterTypes[0];
    Candidate(m, t) in found || Overridden(found, m, t)
  }

  lemma FoundGrows(found: seq<Candidate>, found': seq<Candidate>, m: MethodInfo)
    requires IsSubscriberMethod(m) && Found(found, m)
    requires forall c | c in found :: c in found'
    ensures Found(found', m)
  {
    var t := m.parameterTypes[0];
    if !(Candidate(m, t) in found) {
      var c :| c in found && c.handler.name == m.name && c.eventType == t && c.handler.declaringClass != m.declaringClass;
      assert c in found';
    }
  }

  /**
   * The classes a walk from `c` visits: `c`, then each superclass up to,
   * and without, the first system class.
   */
  ghost function SuperChain(h: Hierarchy, c: ClassName): seq<ClassName>
    requires WellFormed(h) && c in h
    decreases h[c].depth
  {
    assert ClassOk(h, c);
    match h[c].superclass
    case None => [c]
    case Some(s) => if IsSystemClass(s) then [c] else [c] + SuperChain(h, s)
  }

  /**
   * The walk from `c` climbs one superclass at a time, never enters a
   * system class, and ends at a class whose superclass is absent or a
   * system class.
   */
  lemma {:induction false} SuperChainSkipsSystemClasses(h: Hierarchy, c: ClassName)
    requires WellFormed(h) && c in h
    ensures var chain := SuperChain(h, c);
      && chain[0] == c
      && (forall k | 0 <= k < |chain| :: chain[k] in h)
      && (forall k | 1 <= k < |chain| :: !IsSystemClass(chain[k]) && h[chain[k - 1]].superclass == Some(chain[k]))
      && var last := h[chain[|chain| - 1]].superclass;
         last.None? || IsSystemClass(last.value)
    decreases h[c].depth
  {
    assert ClassOk(h, c);
    var chain := SuperChain(h, c);
    match h[c].superclass
    case None =>
    case Some(s) =>
      if !IsSystemClass(s) {
        SuperChainSkipsSystemClasses(h, s);
        var rest := SuperChain(h, s);
        assert chain == [c] + rest;
        forall k | 1 <= k < |chain|
          ensures !IsSystemClass(chain[k]) && h[chain[k - 1]].superclass == Some(chain[k])
        {
          assert chain[k] == rest[k - 1];
          if k >= 2 {
            assert chain[k - 1] == rest[k - 2];
          }
        }
      }
  }

  /** Index info that agrees with the hierarchy: its methods are declared by its class. */
  ghost predicate InfoOk(h: Hierarchy, info: SubscriberInfo)
    decreases info
  {
    && info.subscriberClass in h
    && (forall sm | sm in info.methods ::
          sm.methodInfo.declaringClass == info.subscriberClass && ValidName(sm.methodInfo.name))
    && (info.superSubscriberInfo.Some? ==> InfoOk(h, info.superSubscriberInfo.value))
  }

  ghost predicate IndexesOk(h: Hierarchy, indexes: Option<seq<SubscriberInfoIndex>>) {
    indexes.Some? ==>
      forall k, c | 0 <= k < |indexes.value| && c in indexes.value[k] ::
        indexes.value[k][c].subscriberClass == c && InfoOk(h, indexes.value[k][c])
  }

  /** The info the first index that knows `c` returns. */
  function FirstInfo(indexes: seq<SubscriberInfoIndex>, c: ClassName): Option<SubscriberInfo> {
    if indexes == [] then None
    else if c in indexes[0] then Some(indexes[0][c])
    else FirstInfo(indexes[1..], c)
  }

  /** `FirstInfo` returns the entry of the first index that knows `c`, and nothing when none does. */
  lemma {:induction false} FirstInfoSpec(indexes: seq<SubscriberInfoIndex>, c: ClassName)
    ensures FirstInfo(indexes, c).None? <==> forall k | 0 <= k < |indexes| :: c !in indexes[k]
    ensures FirstInfo(indexes, c).Some? ==>
      exists k | 0 <= k < |indexes| ::
        && c in indexes[k] && FirstInfo(indexes, c).value == indexes[k][c]
        && forall j | 0 <= j < k :: c !in indexes[j]
  {
    if indexes != [] && c !in indexes[0] {
      FirstInfoSpec(indexes[1..], c);
      if FirstInfo(indexes, c).Some? {
        var k :| 0 <= k < |indexes[1..]| && c in indexes[1..][k]
          && FirstInfo(indexes[1..], c).value == indexes[1..][k][c]
          && forall j | 0 <= j < k :: c !in indexes[1..][j];
        assert c in indexes[k + 1];
      }
      forall k | 0 <= k < |indexes| && c in indexes[k] ensures FirstInfo(indexes, c).Some? {
        assert k > 0 && c in indexes[1..][k - 1];
      }
    } else if indexes != [] {
      assert c in indexes[0];
    }
  }

  /** A list of subscriber methods found for class `c`. */
  ghost predicate FoundOk(h: Hierarchy, c: ClassName, ms: seq<SubscriberMethod>)
    requires WellFormed(h) && c in h
  {
    && NoOverrideDup(Candidates(ms))
    && forall sm | sm in ms :: sm.methodInfo.declaringClass in SuperChain(h, c)
  }

  /** The index of the first occupied slot, or `|s|` when every slot is empty. */
  function FirstTaken(s: seq<FindState?>): (k: nat)
    ensures k <= |s| && (k < |s| ==> s[k] != null)
    ensures forall j | 0 <= j < k :: s[j] == null
  {
    if s == [] then 0 else if s[0] != null then 0 else 1 + FirstTaken(s[1..])
  }

  /** The index of the first empty slot, or `|s|` when every slot is occupied. */
  function FirstFree(s: seq<FindState?>): (k: nat)
    ensures k <= |s| && (k < |s| ==> s[k] == null)
    ensures forall j | 0 <= j < k :: s[j] != null
  {
    if s == [] then 0 else if s[0] == null then 0 else 1 + FirstFree(s[1..])
  }

  class SubscriberMethodFinder {
    const subscriberInfoIndexes: Option<seq<SubscriberInfoIndex>>
    const strictMethodVerification: bool
    const ignoreGeneratedIndex: bool
    /** The class hierarchy reflection reports. */
    const h: Hierarchy
    /** `METHOD_CACHE`: the methods found per subscriber class. */
    var methodCache: map<ClassName, seq<SubscriberMethod>>
    /** `FIND_STATE_POOL`: clear FindStates ready for reuse. */
    const findStatePool: array<FindState?>

    /** The pool holds distinct clear FindStates. */
    ghost predicate PoolOk()
      reads this, findStatePool, findStatePool[..]
    {
      && findStatePool.Length == POOL_SIZE
      && (forall i | 0 <= i < POOL_SIZE && findStatePool[i] != null :: findStatePool[i].IsClear())
      && (forall i, j | 0 <= i < j < POOL_SIZE && findStatePool[i] != null :: findStatePool[i] != findStatePool[j])
    }

    ghost predicate Valid()
      reads this, findStatePool, findStatePool[..]
    {
      && WellFormed(h)
      && IndexesOk(h, subscriberInfoIndexes)
      && PoolOk()
      && forall c | c in methodCache :: c in h && methodCache[c] != [] && FoundOk(h, c, methodCache[c])
    }

    constructor(subscriberInfoIndexes: Option<seq<SubscriberInfoIndex>>, strictMethodVerification: bool,
                ignoreGeneratedIndex: bool, h: Hierarchy)
      requires WellFormed(h) && IndexesOk(h, subscriberInfoIndexes)
      ensures Valid() && methodCache == map[]
      ensures this.subscriberInfoIndexes == subscriberInfoIndexes && this.h == h
      ensures this.strictMethodVerification == strictMethodVerification
      ensures this.ignoreGeneratedIndex == ignoreGeneratedIndex
      ensures fresh(findStatePool) && forall i | 0 <= i < POOL_SIZE :: findStatePool[i] == null
    {
      this.subscriberInfoIndexes := subscriberInfoIndexes;
      this.strictMethodVerification := strictMethodVerification;
      this.ignoreGeneratedIndex := ignoreGeneratedIndex;
      this.h := h;
      methodCache := map[];
      findStatePool := new FindState?[POOL_SIZE](_ => null);
    }

    /** `prepareFindState`: takes the first pooled FindState, or makes a new one. */
    method PrepareFindState() returns (fs: FindState)
      requires Valid()
      modifies findStatePool
      ensures Valid() && fs.IsClear() && fs !in findStatePool[..]
      ensures
        var k := FirstTaken(old(findStatePool[..]));
        if k < POOL_SIZE then fs == old(findStatePool[k]) && findStatePool[..] == old(findStatePool[..])[k := null]
        else fresh(fs) && findStatePool[..] == old(findStatePool[..])
    {
      for i := 0 to POOL_SIZE
        invariant forall j | 0 <= j < i :: findStatePool[j] == null
      {
        var state := findStatePool[i];
        if state != null {
          findStatePool[i] := null;
          return state;
        }
      }
      fs := new FindState();
    }

    /**
     * `getMethodsAndRelease`: copies the methods found, clears the
     * FindState and puts it in the first empty slot, if any.
     */
    method GetMethodsAndRelease(fs: FindState) returns (ms: seq<SubscriberMethod>)
      requires Valid() && fs !in findStatePool[..]
      modifies fs, findStatePool
      ensures Valid() && fs.IsClear() && ms == old(fs.subscriberMethods)
      ensures
        var k := FirstFree(old(findStatePool[..]));
        if k < POOL_SIZE then findStatePool[..] == old(findStatePool[..])[k := fs]
        else findStatePool[..] == old(findStatePool[..])
    {
      ms := fs.subscriberMethods;
      fs.Recycle();
      for i := 0 to POOL_SIZE
        invariant forall j | 0 <= j < i :: findStatePool[j] != null
        invariant findStatePool[..] == old(findStatePool[..])
      {
        if findStatePool[i] == null {
          findStatePool[i] := fs;
          return;
        }
      }
    }

    /**
     * `getSubscriberInfo`: the super info of the previous info when it is for
     * the current class, else the first index that knows the current class.
     */
    method GetSubscriberInfo(fs: FindState) returns (info: Option<SubscriberInfo>)
      requires IndexesOk(h, subscriberInfoIndexes) && fs.clazz.Some?
      requires fs.subscriberInfo.Some? ==> InfoOk(h, fs.subscriberInfo.value)
      ensures
        var prev := fs.subscriberInfo;
        info == if prev.Some? && prev.value.superSubscriberInfo.Some?
                   && prev.value.superSubscriberInfo.value.subscriberClass == fs.clazz.value
                then prev.value.superSubscriberInfo
                else if subscriberInfoIndexes.Some? then FirstInfo(subscriberInfoIndexes.value, fs.clazz.value)
                else None
      ensures info.Some? ==> info.value.subscriberClass == fs.clazz.value && InfoOk(h, info.value)
    {
      if fs.subscriberInfo.Some? && fs.subscriberInfo.value.superSubscriberInfo.Some? {
        var superclassInfo := fs.subscriberInfo.value.superSubscriberInfo.value;
        if fs.clazz.value == superclassInfo.subscriberClass {
          return Some(superclassInfo);
        }
      }
      if subscriberInfoIndexes.Some? {
        var indexes := subscriberInfoIndexes.value;
        for k := 0 to |indexes|
          invariant FirstInfo(indexes, fs.clazz.value) == FirstInfo(indexes[k..], fs.clazz.value)
        {
          assert indexes[k..][1..] == indexes[k + 1..];
          if fs.clazz.value in indexes[k] {
            return Some(indexes[k][fs.clazz.value]);
          }
        }
      }
      return None;
    }

    /** The walk state of a FindState at class `cls`. */
    ghost predicate Walking(fs: FindState, cls: ClassName)
      reads this, fs
    {
      && WellFormed(h)
      && WalkInv(h, fs.CheckMaps(), Candidates(fs.subscriberMethods), cls)
      && NoOverrideDup(Candidates(fs.subscriberMethods))
    }

    /**
     * `if (findState.checkAdd(m, t)) findState.subscriberMethods.add(sm)`:
     * during a walk the check never throws, and `sm` is kept exactly when no
     * method already kept overrides it.
     */
    method KeepIfAccepted(fs: FindState, cls: ClassName, sm: SubscriberMethod)
      requires Walking(fs, cls) && Checkable(h, sm.methodInfo) && sm.methodInfo.declaringClass == cls
      modifies fs`subscriberMethods, fs`anyMethodByEventType, fs`subscriberClassByMethodKey
      ensures Walking(fs, cls)
      ensures
        var overridden := Overridden(Candidates(old(fs.subscriberMethods)), sm.methodInfo, sm.eventType);
        if overridden then fs.subscriberMethods == old(fs.subscriberMethods)
        else fs.subscriberMethods == old(fs.subscriberMethods) + [sm]
    {
      ghost var before := fs.subscriberMethods;
      FixedStep(h, fs.CheckMaps(), Candidates(before), cls, sm.methodInfo, sm.eventType);
      var ok := fs.CheckAdd(h, sm.methodInfo, sm.eventType);
      if ok.value {
        fs.subscriberMethods := fs.subscriberMethods + [sm];
        CandidatesAppend(before, sm);
      }
    }

    /**
     * `findUsingReflectionInSingleClass`: offers every declared subscriber
     * method of the current class to `checkAdd` and keeps those accepted;
     * with strict verification, the first annotated method of the wrong shape
     * throws.
     */
    method FindUsingReflectionInSingleClass(fs: FindState) returns (r: Result<(), Exception>)
      requires fs.clazz.Some? && Walking(fs, fs.clazz.value)
      modifies fs`subscriberMethods, fs`anyMethodByEventType, fs`subscriberClassByMethodKey
      ensures
        var declared := h[fs.clazz.value].declaredMethods;
        && (r.Failure? <==> strictMethodVerification && FirstViolation(declared).Some?)
        && (r.Failure? ==> r.error == FirstViolation(declared).value)
      ensures r.Success? ==> Walking(fs, fs.clazz.value) && old(fs.subscriberMethods) <= fs.subscriberMethods
      ensures r.Success? ==>
        var declared := h[fs.clazz.value].declaredMethods;
        && (forall sm | sm in fs.subscriberMethods[|old(fs.subscriberMethods)|..] ::
              sm.methodInfo in declared && IsSubscriberMethod(sm.methodInfo) && FromAnnotation(sm))
        && (forall m | m in declared && IsSubscriberMethod(m) :: Found(Candidates(fs.subscriberMethods), m))
    {
      var cls := fs.clazz.value;
      assert ClassOk(h, cls);
      var methods := h[cls].declaredMethods;
      ghost var start := fs.subscriberMethods;
      for i := 0 to |methods|
        invariant start <= fs.subscriberMethods
        invariant Walking(fs, cls)
        invariant forall sm | sm in fs.subscriberMethods[|start|..] ::
          sm.methodInfo in methods && IsSubscriberMethod(sm.methodInfo) && FromAnnotation(sm)
        invariant forall j | 0 <= j < i && IsSubscriberMethod(methods[j]) ::
          Found(Candidates(fs.subscriberMethods), methods[j])
        invariant strictMethodVerification ==> forall j | 0 <= j < i :: !StrictViolation(methods[j])
      {
        var m := methods[i];
        if (m.modifiers & PUBLIC) != 0 && (m.modifiers & MODIFIERS_IGNORE) == 0 {
          if |m.parameterTypes| == 1 {
            if m.annotation.Some? {
              var eventType := m.parameterTypes[0];
              var a := m.annotation.value;
              var sm := new SubscriberMethod(m, eventType, a.threadMode, a.priority, a.sticky);
              ghost var before := fs.subscriberMethods;
              KeepIfAccepted(fs, cls, sm);
              KeptAfterOffer(h, before, fs.subscriberMethods, sm, start, methods, i);
            }
          } else if strictMethodVerification && m.annotation.Some? {
            FirstViolationAfter(methods, i);
            return Failure(WrongParameterCount(m.declaringClass, m.name, |m.parameterTypes|));
          }
        } else if strictMethodVerification && m.annotation.Some? {
          FirstViolationAfter(methods, i);
          return Failure(IllegalSubscriberMethod(m.declaringClass, m.name));
        }
      }
      if strictMethodVerification {
        FirstViolationAfter(methods, |methods|);
      }
      return Success(());
    }

    /**
     * `findUsingReflection`: scans every class of the walk from
     * `subscriberClass` by reflection, then releases the FindState.
     */
    method FindUsingReflection(subscriberClass: ClassName) returns (r: Result<seq<SubscriberMethod>, Exception>)
      requires Valid() && subscriberClass in h
      modifies findStatePool, findStatePool[..]
      ensures Valid() && methodCache == old(methodCache)
      ensures r.Success? ==> FoundOk(h, subscriberClass, r.value)
      ensures r.Success? ==> forall sm | sm in r.value :: Reflected(h, sm)
      ensures r.Success? ==> AllFound(h, SuperChain(h, subscriberClass), r.value)
    {
      var fs := PrepareFindState();
      fs.InitForSubscriber(subscriberClass);
      var walked := WalkByReflection(fs, subscriberClass);
      if walked.Failure? {
        return Failure(walked.error);
      }
      var ms := GetMethodsAndRelease(fs);
      return Success(ms);
    }

    /** The `while (findState.clazz != null)` loop of `findUsingReflection`. */
    method WalkByReflection(fs: FindState, subscriberClass: ClassName) returns (r: Result<(), Exception>)
      requires WellFormed(h) && subscriberClass in h
      requires fs.clazz == Some(subscriberClass) && !fs.skipSuperClasses
      requires fs.CheckMaps() == EmptyMaps && fs.subscriberMethods == []
      modifies fs`clazz, fs`subscriberMethods, fs`anyMethodByEventType, fs`subscriberClassByMethodKey
      ensures r.Success? ==>
        ReflectionWalk(h, subscriberClass, SuperChain(h, subscriberClass), None, fs.CheckMaps(), fs.subscriberMethods)
    {
      WalkStart(h, subscriberClass);
      ghost var visited: seq<ClassName> := [];
      while fs.clazz.Some?
        invariant ReflectionWalk(h, subscriberClass, visited, fs.clazz, fs.CheckMaps(), fs.subscriberMethods)
        decreases if fs.clazz.Some? then h[fs.clazz.value].depth + 1 else 0
      {
        var cls := fs.clazz.value;
        ghost var before := fs.subscriberMethods;
        ghost var maps0 := fs.CheckMaps();
        var scanned := FindUsingReflectionInSingleClass(fs);
        if scanned.Failure? {
          return Failure(scanned.error);
        }
        var moved := fs.MoveToSuperclass(h);
        if moved.Failure? {
          return Failure(moved.error);
        }
        ReflectionWalkStep(h, subscriberClass, visited, cls, maps0, fs.CheckMaps(), before, fs.subscriberMethods, fs.clazz);
        visited := visited + [cls];
      }
      return Success(());
    }

    /**
     * `findUsingInfo`: walks from `subscriberClass`; a class an index knows
     * contributes the index's methods, any other class is scanned by
     * reflection.
     */
    method FindUsingInfo(subscriberClass: ClassName) returns (r: Result<seq<SubscriberMethod>, Exception>)
      requires Valid() && subscriberClass in h
      modifies findStatePool, findStatePool[..]
      ensures Valid() && methodCache == old(methodCache)
      ensures r.Success? ==> FoundOk(h, subscriberClass, r.value)
    {
      var fs := PrepareFindState();
      fs.InitForSubscriber(subscriberClass);
      var walked := WalkUsingInfo(fs, subscriberClass);
      if walked.Failure? {
        return Failure(walked.error);
      }
      var ms := GetMethodsAndRelease(fs);
      return Success(ms);
    }

    /** The `for` loop of `findUsingInfo` over the methods an index lists for class `cls`. */
    method KeepIndexedMethods(fs: FindState, cls: ClassName, methods: seq<SubscriberMethod>)
      requires Walking(fs, cls) && cls in h
      requires forall sm | sm in methods :: sm.methodInfo.declaringClass == cls && ValidName(sm.methodInfo.name)
      modifies fs`subscriberMethods, fs`anyMethodByEventType, fs`subscriberClassByMethodKey
      ensures Walking(fs, cls) && old(fs.subscriberMethods) <= fs.subscriberMethods
      ensures forall sm | sm in fs.subscriberMethods[|old(fs.subscriberMethods)|..] :: sm in methods
      ensures forall sm | sm in methods ::
        sm in fs.subscriberMethods || Overridden(Candidates(fs.subscriberMethods), sm.methodInfo, sm.eventType)
    {
      ghost var before := fs.subscriberMethods;
      for i := 0 to |methods|
        invariant Walking(fs, cls) && before <= fs.subscriberMethods
        invariant forall sm | sm in fs.subscriberMethods[|before|..] :: sm in methods
        invariant forall j | 0 <= j < i ::
          methods[j] in fs.subscriberMethods
          || Overridden(Candidates(fs.subscriberMethods), methods[j].methodInfo, methods[j].eventType)
      {
        var subscriberMethod := methods[i];
        ghost var previous := fs.subscriberMethods;
        KeepIfAccepted(fs, cls, subscriberMethod);
        assert fs.subscriberMethods[|before|..] == previous[|before|..] + fs.subscriberMethods[|previous|..];
        forall j | 0 <= j <= i
          ensures methods[j] in fs.subscriberMethods
            || Overridden(Candidates(fs.subscriberMethods), methods[j].methodInfo, methods[j].eventType)
        {
          if j < i && methods[j] !in previous {
            OverriddenGrows(previous, fs.subscriberMethods, methods[j].methodInfo, methods[j].eventType);
          }
        }
      }
    }

    /** The `while (findState.clazz != null)` loop of `findUsingInfo`. */
    method WalkUsingInfo(fs: FindState, subscriberClass: ClassName) returns (r: Result<(), Exception>)
      requires WellFormed(h) && IndexesOk(h, subscriberInfoIndexes) && subscriberClass in h
      requires fs.clazz == Some(subscriberClass) && !fs.skipSuperClasses && fs.subscriberInfo.None?
      requires fs.CheckMaps() == EmptyMaps && fs.subscriberMethods == []
      modifies fs`clazz, fs`subscriberInfo, fs`subscriberMethods, fs`anyMethodByEventType, fs`subscriberClassByMethodKey
      ensures r.Success? ==>
        InfoWalk(h, subscriberClass, SuperChain(h, subscriberClass), None, fs.CheckMaps(), fs.subscriberMethods)
    {
      WalkStart(h, subscriberClass);
      ghost var visited: seq<ClassName> := [];
      while fs.clazz.Some?
        invariant fs.subscriberInfo.Some? ==> InfoOk(h, fs.subscriberInfo.value)
        invariant InfoWalk(h, subscriberClass, visited, fs.clazz, fs.CheckMaps(), fs.subscriberMethods)
        decreases if fs.clazz.Some? then h[fs.clazz.value].depth + 1 else 0
      {
        var cls := fs.clazz.value;
        ghost var before := fs.subscriberMethods;
        ghost var maps0 := fs.CheckMaps();
        var info := GetSubscriberInfo(fs);
        fs.subscriberInfo := info;
        if info.Some? {
          KeepIndexedMethods(fs, cls, info.value.methods);
        } else {
          var scanned := FindUsingReflectionInSingleClass(fs);
          if scanned.Failure? {
            return Failure(scanned.error);
          }
          assert ClassOk(h, cls);
        }
        var moved := fs.MoveToSuperclass(h);
        if moved.Failure? {
          return Failure(moved.error);
        }
        InfoWalkStep(h, subscriberClass, visited, cls, maps0, fs.CheckMaps(), before, fs.subscriberMethods, fs.clazz);
        visited := visited + [cls];
      }
      return Success(());
    }

    /**
     * `findSubscriberMethods`: a cached list is returned as is; otherwise
     * the methods are found (from the index unless it is ignored), an empty
     * result throws and is not cached, and a non-empty one is cached.
     */
    method FindSubscriberMethods(subscriberClass: ClassName) returns (r: Result<seq<SubscriberMethod>, Exception>)
      requires Valid() && subscriberClass in h
      modifies this`methodCache, findStatePool, findStatePool[..]
      ensures Valid()
      ensures subscriberClass in old(methodCache) ==>
        r == Success(old(methodCache)[subscriberClass]) && methodCache == old(methodCache)
      ensures subscriberClass !in old(methodCache) ==>
        methodCache == if r.Success? then old(methodCache)[subscriberClass := r.value] else old(methodCache)
      ensures r.Success? ==> r.value != [] && FoundOk(h, subscriberClass, r.value)
      ensures subscriberClass !in old(methodCache) && ignoreGeneratedIndex && r.Success? ==>
        AllFound(h, SuperChain(h, subscriberClass), r.value)
    {
      if subscriberClass in methodCache {
        return Success(methodCache[subscriberClass]);
      }
      var found;
      if ignoreGeneratedIndex {
        found := FindUsingReflection(subscriberClass);
      } else {
        found := FindUsingInfo(subscriberClass);
      }
      if found.Failure? {
        return found;
      }
      if found.value == [] {
        return Failure(NoSubscriberMethods(subscriberClass));
      }
      methodCache := methodCache[subscriberClass := found.value];
      return found;
    }

    /** `clearCaches`: forgets every cached list. */
    method ClearCaches()
      requires Valid()
      modifies this`methodCache
      ensures Valid() && methodCache == map[]
    {
      methodCache := map[];
    }
  }

  /** The loop facts of the reflection scan survive offering `methods[i]` as `sm`. */
  lemma KeptAfterOffer(h: Hierarchy, before: seq<SubscriberMethod>, after: seq<SubscriberMethod>,
                       sm: SubscriberMethod, start: seq<SubscriberMethod>, methods: seq<MethodInfo>, i: nat)
    requires i < |methods| && sm.methodInfo == methods[i] && IsSubscriberMethod(sm.methodInfo) && FromAnnotation(sm)
    requires start <= before
    requires forall x | x in before[|start|..] :: x.methodInfo in methods && IsSubscriberMethod(x.methodInfo) && FromAnnotation(x)
    requires forall j | 0 <= j < i && IsSubscriberMethod(methods[j]) :: Found(Candidates(before), methods[j])
    requires
      if Overridden(Candidates(before), sm.methodInfo, sm.eventType) then after == before
      else after == before + [sm]
    ensures start <= after
    ensures forall x | x in after[|start|..] :: x.methodInfo in methods && IsSubscriberMethod(x.methodInfo) && FromAnnotation(x)
    ensures forall j | 0 <= j <= i && IsSubscriberMethod(methods[j]) :: Found(Candidates(after), methods[j])
  {
    if after != before {
      CandidatesAppend(before, sm);
      assert after[|start|..] == before[|start|..] + [sm];
    }
    forall j | 0 <= j <= i && IsSubscriberMethod(methods[j])
      ensures Found(Candidates(after), methods[j])
    {
      if j < i {
        FoundGrows(Candidates(before), Candidates(after), methods[j]);
      }
    }
  }

  /** A subscriber method reflection built from a method its class declares. */
  ghost predicate Reflected(h: Hierarchy, sm: SubscriberMethod) {
    && sm.methodInfo.declaringClass in h
    && sm.methodInfo in h[sm.methodInfo.declaringClass].declaredMethods
    && IsSubscriberMethod(sm.methodInfo) && FromAnnotation(sm)
  }

  /** Every subscriber method of the classes `visited` was kept or dropped for an override in `ms`. */
  ghost predicate AllFound(h: Hierarchy, visited: seq<ClassName>, ms: seq<SubscriberMethod>) {
    forall v, m | v in visited && v in h && m in h[v].declaredMethods && IsSubscriberMethod(m) ::
      Found(Candidates(ms), m)
  }

  lemma CandidatesPrefix(before: seq<SubscriberMethod>, after: seq<SubscriberMethod>)
    requires before <= after
    ensures forall c | c in Candidates(before) :: c in Candidates(after)
  {
    forall c | c in Candidates(before) ensures c in Candidates(after) {
      var k :| 0 <= k < |before| && Candidates(before)[k] == c;
      assert Candidates(after)[k] == c;
    }
  }

  /** The walk facts survive the reflection scan of class `cls`. */
  lemma ScannedClass(h: Hierarchy, before: seq<SubscriberMethod>, after: seq<SubscriberMethod>,
                     visited: seq<ClassName>, cls: ClassName)
    requires WellFormed(h) && cls in h && before <= after
    requires forall sm | sm in before :: Reflected(h, sm) && sm.methodInfo.declaringClass in visited
    requires forall sm | sm in after[|before|..] ::
      sm.methodInfo in h[cls].declaredMethods && IsSubscriberMethod(sm.methodInfo) && FromAnnotation(sm)
    requires AllFound(h, visited, before)
    requires forall m | m in h[cls].declaredMethods && IsSubscriberMethod(m) :: Found(Candidates(after), m)
    ensures forall sm | sm in after :: Reflected(h, sm) && sm.methodInfo.declaringClass in visited + [cls]
    ensures AllFound(h, visited + [cls], after)
  {
    assert ClassOk(h, cls);
    forall sm | sm in after ensures Reflected(h, sm) && sm.methodInfo.declaringClass in visited + [cls] {
      if sm !in before {
        assert after == before + after[|before|..];
      }
    }
    CandidatesPrefix(before, after);
    forall v, m | v in visited + [cls] && v in h && m in h[v].declaredMethods && IsSubscriberMethod(m)
      ensures Found(Candidates(after), m)
    {
      if v != cls {
        FoundGrows(Candidates(before), Candidates(after), m);
      }
    }
  }

  /** What a reflection walk from `c` has established after visiting `visited` and reaching `clazz`. */
  ghost predicate ReflectionWalk(h: Hierarchy, c: ClassName, visited: seq<ClassName>, clazz: Option<ClassName>,
                                 maps: Maps, ms: seq<SubscriberMethod>)
  {
    && InfoWalk(h, c, visited, clazz, maps, ms)
    && (forall sm | sm in ms :: Reflected(h, sm))
    && AllFound(h, visited, ms)
  }

  /** What any walk from `c` has established after visiting `visited` and reaching `clazz`. */
  ghost predicate InfoWalk(h: Hierarchy, c: ClassName, visited: seq<ClassName>, clazz: Option<ClassName>,
                           maps: Maps, ms: seq<SubscriberMethod>)
  {
    && WellFormed(h) && c in h
    && (clazz.Some? ==>
          && clazz.value in h
          && WalkInv(h, maps, Candidates(ms), clazz.value)
          && visited + SuperChain(h, clazz.value) == SuperChain(h, c))
    && (clazz.None? ==> visited == SuperChain(h, c))
    && NoOverrideDup(Candidates(ms))
    && (forall sm | sm in ms :: sm.methodInfo.declaringClass in visited)
  }

  /** Visiting `cls` and moving to its superclass `next` (or ending the walk) extends the walk. */
  lemma InfoWalkStep(h: Hierarchy, c: ClassName, visited: seq<ClassName>, cls: ClassName, maps0: Maps, maps: Maps,
                     before: seq<SubscriberMethod>, after: seq<SubscriberMethod>, next: Option<ClassName>)
    requires InfoWalk(h, c, visited, Some(cls), maps0, before)
    requires before <= after
    requires forall sm | sm in after[|before|..] :: sm.methodInfo.declaringClass == cls
    requires WalkInv(h, maps, Candidates(after), cls) && NoOverrideDup(Candidates(after))
    requires h[cls].superclass.Some?
    requires next == if IsSystemClass(h[cls].superclass.value) then None else h[cls].superclass
    ensures InfoWalk(h, c, visited + [cls], next, maps, after)
  {
    assert ClassOk(h, cls);
    assert SuperChain(h, c) == (visited + [cls]) + SuperChain(h, cls)[1..];
    forall sm | sm in after ensures sm.methodInfo.declaringClass in visited + [cls] {
      if sm !in before {
        assert after == before + after[|before|..];
      }
    }
    if next.Some? {
      WalkMoveUp(h, maps, Candidates(after), cls, next.value);
    }
  }

  /** The same step for a reflection walk, which also keeps completeness. */
  lemma ReflectionWalkStep(h: Hierarchy, c: ClassName, visited: seq<ClassName>, cls: ClassName, maps0: Maps, maps: Maps,
                           before: seq<SubscriberMethod>, after: seq<SubscriberMethod>, next: Option<ClassName>)
    requires ReflectionWalk(h, c, visited, Some(cls), maps0, before)
    requires before <= after
    requires forall sm | sm in after[|before|..] ::
      sm.methodInfo in h[cls].declaredMethods && IsSubscriberMethod(sm.methodInfo) && FromAnnotation(sm)
    requires forall m | m in h[cls].declaredMethods && IsSubscriberMethod(m) :: Found(Candidates(after), m)
    requires WalkInv(h, maps, Candidates(after), cls) && NoOverrideDup(Candidates(after))
    requires h[cls].superclass.Some?
    requires next == if IsSystemClass(h[cls].superclass.value) then None else h[cls].superclass
    ensures ReflectionWalk(h, c, visited + [cls], next, maps, after)
  {
    assert ClassOk(h, cls);
    ScannedClass(h, before, after, visited, cls);
    InfoWalkStep(h, c, visited, cls, maps0, maps, before, after, next);
  }

  lemma OverriddenGrows(before: seq<SubscriberMethod>, after: seq<SubscriberMethod>, m: MethodInfo, t: ClassName)
    requires before <= after && Overridden(Candidates(before), m, t)
    ensures Overridden(Candidates(after), m, t)
  {
    CandidatesPrefix(before, after);
    var c :| c in Candidates(before) && c.handler.name == m.name && c.eventType == t && c.handler.declaringClass != m.declaringClass;
    assert c in Candidates(after);
  }
}
