/**
 * The duplicate filter of `SubscriberMethodFinder.FindState` as functions on
 * its two maps: `checkAdd` (by event type) and `checkAddWithMethodSignature`
 * (by the key `name>eventType`). `CheckAddAsWritten` follows the source line
 * by line; `CheckAddFixed` keeps the marker once two methods share an event
 * type, which is what the rest of the model uses.
 */
module CheckAdd {
  import opened Wrappers
  import opened JavaTypes
  import opened Exceptions

  /** A value of `anyMethodByEventType`: a method, or the FindState itself used as a marker. */
  datatype AnyMethod = AMethod(m: MethodInfo) | Marker

  /** The two maps `checkAdd` reads and writes. */
  datatype Maps = Maps(
    anyMethodByEventType: map<ClassName, AnyMethod>,
    subscriberClassByMethodKey: map<string, ClassName>)

  const EmptyMaps := Maps(map[], map[])

  /** A method offered to `checkAdd` together with the event type it handles. */
  datatype Candidate = Candidate(handler: MethodInfo, eventType: ClassName)

  /** The key of `checkAddWithMethodSignature`: `name>eventType`. */
  function MethodKey(name: string, eventType: ClassName): string {
    name + ">" + eventType
  }

  /** Keys of valid method names determine the name and the event type. */
  lemma MethodKeyInjective(n: string, t: ClassName, n': string, t': ClassName)
    requires ValidName(n) && ValidName(n')
    requires MethodKey(n, t) == MethodKey(n', t')
    ensures n == n' && t == t'
  {
    SeparatorSplit(n, t, n', t', '>');
  }

  /** What the checks need to know of a method: its class is known and its name is valid. */
  predicate Checkable(h: Hierarchy, m: MethodInfo) {
    m.declaringClass in h && ValidName(m.name)
  }

  predicate MapsOk(h: Hierarchy, maps: Maps) {
    && WellFormed(h)
    && forall t | t in maps.anyMethodByEventType && maps.anyMethodByEventType[t].AMethod? ::
         Checkable(h, maps.anyMethodByEventType[t].m)
  }

  /**
   * `checkAddWithMethodSignature`: records the declaring class under the key
   * and accepts when the key is new or the class recorded before is
   * assignable from the new one; otherwise puts the old class back and rejects.
   */
  function SignatureCheck(h: Hierarchy, keys: map<string, ClassName>, m: MethodInfo, t: ClassName)
    : (bool, map<string, ClassName>)
    requires WellFormed(h) && m.declaringClass in h
  {
    var key := MethodKey(m.name, t);
    var updated := keys[key := m.declaringClass];
    if key !in keys || IsAssignableFrom(h, keys[key], m.declaringClass) then (true, updated)
    else (false, updated[key := keys[key]])
  }

  /**
   * `checkAdd` as written: the new method always replaces the map entry; when
   * the entry was a method, that method is re-checked (a failure throws) and
   * the entry becomes the marker; when it was already the marker, the new
   * method stays in the map.
   */
  function CheckAddAsWritten(h: Hierarchy, maps: Maps, m: MethodInfo, t: ClassName)
    : (r: Result<(bool, Maps), Exception>)
    requires MapsOk(h, maps) && Checkable(h, m)
    ensures r.Success? ==> MapsOk(h, r.value.1)
  {
    var any := maps.anyMethodByEventType;
    var any' := any[t := AMethod(m)];
    if t !in any then
      Success((true, Maps(any', maps.subscriberClassByMethodKey)))
    else if any[t].AMethod? then
      var (ok, keys) := SignatureCheck(h, maps.subscriberClassByMethodKey, any[t].m, t);
      if !ok then Failure(IllegalStateException)
      else
        var (accepted, keys') := SignatureCheck(h, keys, m, t);
        Success((accepted, Maps(any'[t := Marker], keys')))
    else
      var (accepted, keys') := SignatureCheck(h, maps.subscriberClassByMethodKey, m, t);
      Success((accepted, Maps(any', keys')))
  }

  /** `checkAdd` with the marker kept once an event type has two methods. */
  function CheckAddFixed(h: Hierarchy, maps: Maps, m: MethodInfo, t: ClassName)
    : (r: Result<(bool, Maps), Exception>)
    requires MapsOk(h, maps) && Checkable(h, m)
    ensures r.Success? ==> MapsOk(h, r.value.1)
  {
    var any := maps.anyMethodByEventType;
    if t !in any then
      Success((true, Maps(any[t := AMethod(m)], maps.subscriberClassByMethodKey)))
    else
      var keys := maps.subscriberClassByMethodKey;
      var (ok, keys) := if any[t].AMethod? then SignatureCheck(h, keys, any[t].m, t) else (true, keys);
      if !ok then Failure(IllegalStateException)
      else
        var (accepted, keys') := SignatureCheck(h, keys, m, t);
        Success((accepted, Maps(any[t := Marker], keys')))
  }

  /** `A extends B`, both declaring `f(E)` and `g(E)`. */
  const ExampleHierarchy: Hierarchy := map[
    "E" := ClassInfo(None, [], false, [], 0),
    "B" := ClassInfo(None, [], false, [], 0),
    "A" := ClassInfo(Some("B"), [], false, [], 1)]

  function ExampleMethod(name: string, cls: ClassName): MethodInfo {
    MethodInfo(name, cls, PUBLIC, ["E"], Some(Subscribe(POSTING, 0, false)))
  }

  /**
   * The walk over `A` and then `B` offers A.f, A.g, B.f, B.g. As written,
   * B.f is rejected but left in the map in place of the marker, so B.g
   * re-checks B.f and throws although the subscriber is legal.
   */
  lemma AsWrittenThrowsOnOverriddenPair()
    ensures WellFormed(ExampleHierarchy)
    ensures
      var h := ExampleHierarchy;
      var r1 := CheckAddAsWritten(h, EmptyMaps, ExampleMethod("f", "A"), "E");
      r1.Success? && r1.value.0 &&
      var r2 := CheckAddAsWritten(h, r1.value.1, ExampleMethod("g", "A"), "E");
      r2.Success? && r2.value.0 &&
      var r3 := CheckAddAsWritten(h, r2.value.1, ExampleMethod("f", "B"), "E");
      r3.Success? && !r3.value.0 &&
      CheckAddAsWritten(h, r3.value.1, ExampleMethod("g", "B"), "E").Failure?
  {
    var h := ExampleHierarchy;
    assert ClassOk(h, "E") && ClassOk(h, "B") && ClassOk(h, "A");
    assert !IsAssignableFrom(h, "A", "B");
  }

  /** On the same walk the fixed check rejects both overridden methods and never throws. */
  lemma FixedAcceptsOverriddenPair()
    ensures WellFormed(ExampleHierarchy)
    ensures
      var h := ExampleHierarchy;
      var r1 := CheckAddFixed(h, EmptyMaps, ExampleMethod("f", "A"), "E");
      r1.Success? && r1.value.0 &&
      var r2 := CheckAddFixed(h, r1.value.1, ExampleMethod("g", "A"), "E");
      r2.Success? && r2.value.0 &&
      var r3 := CheckAddFixed(h, r2.value.1, ExampleMethod("f", "B"), "E");
      r3.Success? && !r3.value.0 &&
      var r4 := CheckAddFixed(h, r3.value.1, ExampleMethod("g", "B"), "E");
      r4.Success? && !r4.value.0
  {
    var h := ExampleHierarchy;
    assert ClassOk(h, "E") && ClassOk(h, "B") && ClassOk(h, "A");
    assert !IsAssignableFrom(h, "A", "B");
  }

  /**
   * The re-check that `checkAdd` as written makes of the method it left in
   * the map: the key records that method's own class, so the re-check
   * changes nothing, or the recorded class is not assignable from it, so the
   * re-check throws.
   */
  ghost predicate RecheckIdleOrThrows(h: Hierarchy, keys: map<string, ClassName>, a: AnyMethod, t: ClassName)
    requires WellFormed(h)
  {
    && a.AMethod? && Checkable(h, a.m)
    && var k := MethodKey(a.m.name, t);
       && k in keys
       && (keys[k] == a.m.declaringClass || !IsAssignableFrom(h, keys[k], a.m.declaringClass))
  }

  /**
   * The maps of `checkAdd` as written (`aw`) and of the fixed check (`fx`)
   * after the same offers: the same keys and the same event types, and where
   * the entries differ the fixed check holds the marker while the as-written
   * check holds a method whose re-check is idle or throws.
   */
  ghost predicate Agree(h: Hierarchy, aw: Maps, fx: Maps)
    requires WellFormed(h)
  {
    && aw.subscriberClassByMethodKey == fx.subscriberClassByMethodKey
    && aw.anyMethodByEventType.Keys == fx.anyMethodByEventType.Keys
    && forall t | t in aw.anyMethodByEventType && aw.anyMethodByEventType[t] != fx.anyMethodByEventType[t] ::
         && fx.anyMethodByEventType[t] == Marker
         && RecheckIdleOrThrows(h, aw.subscriberClassByMethodKey, aw.anyMethodByEventType[t], t)
  }

  /** `checkAddWithMethodSignature` leaves the keys of other event types alone. */
  lemma SignatureCheckKeepsOtherTypes(h: Hierarchy, keys: map<string, ClassName>, m: MethodInfo, t: ClassName,
                                      n: string, t': ClassName)
    requires WellFormed(h) && Checkable(h, m) && ValidName(n) && t' != t
    ensures var keys' := SignatureCheck(h, keys, m, t).1;
      var k := MethodKey(n, t');
      (k in keys' <==> k in keys) && (k in keys ==> keys'[k] == keys[k])
  {
    if MethodKey(n, t') == MethodKey(m.name, t) {
      MethodKeyInjective(n, t', m.name, t);
    }
  }

  /**
   * One offer: when `checkAdd` as written does not throw, the fixed check
   * does not either, makes the same decision, and the states still agree.
   */
  lemma AgreeStep(h: Hierarchy, aw: Maps, fx: Maps, m: MethodInfo, t: ClassName)
    requires MapsOk(h, aw) && MapsOk(h, fx) && Agree(h, aw, fx) && Checkable(h, m)
    requires CheckAddAsWritten(h, aw, m, t).Success?
    ensures CheckAddFixed(h, fx, m, t).Success?
    ensures CheckAddFixed(h, fx, m, t).value.0 == CheckAddAsWritten(h, aw, m, t).value.0
    ensures Agree(h, CheckAddAsWritten(h, aw, m, t).value.1, CheckAddFixed(h, fx, m, t).value.1)
  {
    var keys := aw.subscriberClassByMethodKey;
    var a := aw.anyMethodByEventType;
    var f := fx.anyMethodByEventType;
    var r := CheckAddAsWritten(h, aw, m, t);
    var q := CheckAddFixed(h, fx, m, t);
    if t !in a {
      assert r.value.1.anyMethodByEventType[t] == q.value.1.anyMethodByEventType[t];
    } else {
      var keys1 := if a[t].AMethod? then SignatureCheck(h, keys, a[t].m, t).1 else keys;
      if a[t] != f[t] {
        var e := a[t].m;
        assert keys[MethodKey(e.name, t)] == e.declaringClass;
        assert IsAssignableFrom(h, e.declaringClass, e.declaringClass);
        assert keys1 == keys;
      }
      var k := MethodKey(m.name, t);
      var (ok, keys') := SignatureCheck(h, keys1, m, t);
      assert r.value == (ok, r.value.1) && q.value == (ok, q.value.1);
      assert r.value.1.subscriberClassByMethodKey == keys' == q.value.1.subscriberClassByMethodKey;
      assert k in keys' && (keys'[k] == m.declaringClass || !IsAssignableFrom(h, keys'[k], m.declaringClass));
      forall t'' | t'' in r.value.1.anyMethodByEventType && t'' != t
                   && r.value.1.anyMethodByEventType[t''] != q.value.1.anyMethodByEventType[t'']
        ensures RecheckIdleOrThrows(h, keys', r.value.1.anyMethodByEventType[t''], t'')
      {
        var e := a[t''].m;
        SignatureCheckKeepsOtherTypes(h, keys1, m, t, e.name, t'');
        if a[t].AMethod? {
          SignatureCheckKeepsOtherTypes(h, keys, a[t].m, t, e.name, t'');
        }
      }
    }
  }

  /** The decisions of `checkAdd` as written on a sequence of offers, or the exception it throws. */
  function DecisionsAsWritten(h: Hierarchy, maps: Maps, offers: seq<Candidate>): (r: Result<seq<bool>, Exception>)
    requires MapsOk(h, maps) && forall i | 0 <= i < |offers| :: Checkable(h, offers[i].handler)
    ensures r.Success? ==> |r.value| == |offers|
    decreases |offers|
  {
    if offers == [] then Success([])
    else
      var step := CheckAddAsWritten(h, maps, offers[0].handler, offers[0].eventType);
      if step.Failure? then Failure(step.error)
      else
        var rest := DecisionsAsWritten(h, step.value.1, offers[1..]);
        if rest.Failure? then rest else Success([step.value.0] + rest.value)
  }

  /** The decisions of the fixed check on a sequence of offers, or the exception it throws. */
  function DecisionsFixed(h: Hierarchy, maps: Maps, offers: seq<Candidate>): (r: Result<seq<bool>, Exception>)
    requires MapsOk(h, maps) && forall i | 0 <= i < |offers| :: Checkable(h, offers[i].handler)
    ensures r.Success? ==> |r.value| == |offers|
    decreases |offers|
  {
    if offers == [] then Success([])
    else
      var step := CheckAddFixed(h, maps, offers[0].handler, offers[0].eventType);
      if step.Failure? then Failure(step.error)
      else
        var rest := DecisionsFixed(h, step.value.1, offers[1..]);
        if rest.Failure? then rest else Success([step.value.0] + rest.value)
  }

  /** From agreeing states, offers on which `checkAdd` as written does not throw get the same decisions. */
  lemma {:induction false} DecisionsAgree(h: Hierarchy, aw: Maps, fx: Maps, offers: seq<Candidate>)
    requires MapsOk(h, aw) && MapsOk(h, fx) && Agree(h, aw, fx)
    requires forall i | 0 <= i < |offers| :: Checkable(h, offers[i].handler)
    requires DecisionsAsWritten(h, aw, offers).Success?
    ensures DecisionsFixed(h, fx, offers) == DecisionsAsWritten(h, aw, offers)
    decreases |offers|
  {
    if offers != [] {
      var c := offers[0];
      AgreeStep(h, aw, fx, c.handler, c.eventType);
      DecisionsAgree(h, CheckAddAsWritten(h, aw, c.handler, c.eventType).value.1,
                     CheckAddFixed(h, fx, c.handler, c.eventType).value.1, offers[1..]);
    }
  }

  /**
   * The correction changes nothing where `checkAdd` as written does not
   * throw: from the empty maps of a new walk, every sequence of offers on
   * which the source's check succeeds gets the same accept and reject
   * decisions from the fixed check.
   */
  lemma FixedAgreesWhereAsWrittenSucceeds(h: Hierarchy, offers: seq<Candidate>)
    requires WellFormed(h) && forall i | 0 <= i < |offers| :: Checkable(h, offers[i].handler)
    ensures DecisionsAsWritten(h, EmptyMaps, offers).Success? ==>
              DecisionsFixed(h, EmptyMaps, offers) == DecisionsAsWritten(h, EmptyMaps, offers)
  {
    if DecisionsAsWritten(h, EmptyMaps, offers).Success? {
      DecisionsAgree(h, EmptyMaps, EmptyMaps, offers);
    }
  }

  /** Method keys are recorded only for event types that hold the marker. */
  ghost predicate KeysOnlyForMarked(maps: Maps) {
    forall n, t | ValidName(n) && MethodKey(n, t) in maps.subscriberClassByMethodKey ::
      t in maps.anyMethodByEventType && maps.anyMethodByEventType[t] == Marker
  }

  /** The single method stored for an event type was accepted. */
  ghost predicate SinglesAccepted(maps: Maps, accepted: seq<Candidate>) {
    forall t | t in maps.anyMethodByEventType && maps.anyMethodByEventType[t].AMethod? ::
      Candidate(maps.anyMethodByEventType[t].m, t) in accepted
  }

  /**
   * Every accepted method is recorded: as the single method of its event
   * type, or, once the type holds the marker, under its key with its class.
   */
  ghost predicate AcceptedRecorded(h: Hierarchy, maps: Maps, accepted: seq<Candidate>) {
    var any := maps.anyMethodByEventType;
    var keys := maps.subscriberClassByMethodKey;
    forall c | c in accepted ::
      && Checkable(h, c.handler)
      && c.eventType in any
      && (|| any[c.eventType] == AMethod(c.handler)
          || (&& any[c.eventType] == Marker
              && MethodKey(c.handler.name, c.eventType) in keys
              && keys[MethodKey(c.handler.name, c.eventType)] == c.handler.declaringClass))
  }

  /** The walk has reached a supertype of every class it took a method from. */
  ghost predicate AcceptedBelow(h: Hierarchy, accepted: seq<Candidate>, current: ClassName)
    requires WellFormed(h)
  {
    forall c | c in accepted && c.handler.declaringClass in h ::
      IsAssignableFrom(h, current, c.handler.declaringClass)
  }

  /** Every recorded key belongs to an accepted method. */
  ghost predicate KeysFromAccepted(maps: Maps, accepted: seq<Candidate>) {
    forall n, t | ValidName(n) && MethodKey(n, t) in maps.subscriberClassByMethodKey ::
      exists c | c in accepted :: c.handler.name == n && c.eventType == t
  }

  /**
   * The state of a walk of the fixed check that has accepted `accepted` and
   * is now at class `current`.
   */
  ghost predicate WalkInv(h: Hierarchy, maps: Maps, accepted: seq<Candidate>, current: ClassName) {
    && MapsOk(h, maps) && current in h
    && KeysOnlyForMarked(maps)
    && SinglesAccepted(maps, accepted)
    && AcceptedRecorded(h, maps, accepted)
    && AcceptedBelow(h, accepted, current)
    && KeysFromAccepted(maps, accepted)
  }

  /** No two accepted methods share name and event type unless they come from one class. */
  ghost predicate NoOverrideDup(accepted: seq<Candidate>) {
    forall i, j | 0 <= i < |accepted| && 0 <= j < |accepted| ::
      accepted[i].handler.name == accepted[j].handler.name && accepted[i].eventType == accepted[j].eventType
      ==> accepted[i].handler.declaringClass == accepted[j].handler.declaringClass
  }

  /** An accepted method with the same name and event type from another class overrides `m`. */
  ghost predicate Overridden(accepted: seq<Candidate>, m: MethodInfo, t: ClassName) {
    exists c | c in accepted ::
      c.handler.name == m.name && c.eventType == t && c.handler.declaringClass != m.declaringClass
  }

  lemma WalkStart(h: Hierarchy, subscriberClass: ClassName)
    requires WellFormed(h) && subscriberClass in h
    ensures WalkInv(h, EmptyMaps, [], subscriberClass)
  {
  }

  /**
   * What one step of the walk guarantees: the check does not throw, accepts
   * `m` exactly when no method accepted from a subclass overrides it, and
   * keeps the walk invariant and the absence of overridden duplicates.
   */
  ghost predicate StepOutcome(
    h: Hierarchy, maps: Maps, accepted: seq<Candidate>, current: ClassName,
    m: MethodInfo, t: ClassName, r: Result<(bool, Maps), Exception>)
  {
    && r.Success?
    && (r.value.0 <==> !Overridden(accepted, m, t))
    && var accepted' := if r.value.0 then accepted + [Candidate(m, t)] else accepted;
       WalkInv(h, r.value.1, accepted', current) && NoOverrideDup(accepted')
  }

  /**
   * `checkAdd` during a walk: offered a method `m` of the class `current`,
   * the fixed check behaves as `StepOutcome` says.
   */
  lemma FixedStep(h: Hierarchy, maps: Maps, accepted: seq<Candidate>, current: ClassName, m: MethodInfo, t: ClassName)
    requires WalkInv(h, maps, accepted, current) && NoOverrideDup(accepted)
    requires Checkable(h, m) && m.declaringClass == current
    ensures StepOutcome(h, maps, accepted, current, m, t, CheckAddFixed(h, maps, m, t))
  {
    var any := maps.anyMethodByEventType;
    var r := CheckAddFixed(h, maps, m, t);
    var ok := r.value.0;
    var accepted' := if ok then accepted + [Candidate(m, t)] else accepted;
    if t !in any {
      FixedStepNew(h, maps, accepted, current, m, t);
    } else if any[t].AMethod? {
      var e := any[t].m;
      SingleDecision(h, maps, accepted, current, m, t);
      SingleKeysMarked(maps, t, e, m, ok, r.value.1);
      SingleRecorded(h, maps, accepted, t, e, m, ok, r.value.1);
      SingleKeysFrom(maps, accepted, t, e, m, ok, r.value.1);
    } else {
      MarkedDecision(h, maps, accepted, current, m, t);
      MarkedKeysMarked(maps, t, m, ok, r.value.1);
      MarkedRecorded(h, maps, accepted, t, m, ok, r.value.1);
      MarkedKeysFrom(maps, accepted, t, m, ok, r.value.1);
    }
    if ok {
      AcceptedBelowAppend(h, accepted, current, m, t);
      NoOverrideDupAppend(accepted, m, t);
    }
  }

  /** First method for an event type: stored as the single method and accepted. */
  lemma FixedStepNew(h: Hierarchy, maps: Maps, accepted: seq<Candidate>, current: ClassName, m: MethodInfo, t: ClassName)
    requires WalkInv(h, maps, accepted, current)
    requires Checkable(h, m) && m.declaringClass == current
    requires t !in maps.anyMethodByEventType
    ensures
      var r := CheckAddFixed(h, maps, m, t);
      && r == Success((true, Maps(maps.anyMethodByEventType[t := AMethod(m)], maps.subscriberClassByMethodKey)))
      && !Overridden(accepted, m, t)
      && WalkInv(h, r.value.1, accepted + [Candidate(m, t)], current)
  {
    var r := CheckAddFixed(h, maps, m, t);
    var accepted' := accepted + [Candidate(m, t)];
    var keys := r.value.1.subscriberClassByMethodKey;
    forall n, t' | ValidName(n) && MethodKey(n, t') in keys
      ensures exists c | c in accepted' :: c.handler.name == n && c.eventType == t'
    {
      var c :| c in accepted && c.handler.name == n && c.eventType == t';
      assert c in accepted';
    }
    AcceptedBelowAppend(h, accepted, current, m, t);
  }

  /** The keys after re-checking the single method `e` of `t` and then checking `m`. */
  function SingleKeys(keys: map<string, ClassName>, t: ClassName, e: MethodInfo, m: MethodInfo, ok: bool)
    : map<string, ClassName>
  {
    var keys1 := keys[MethodKey(e.name, t) := e.declaringClass];
    if ok then keys1[MethodKey(m.name, t) := m.declaringClass] else keys1
  }

  /**
   * Second method for an event type: the single method is re-checked and
   * accepted, the type gets the marker, and `m` is accepted unless it is
   * overridden by the single method.
   */
  lemma SingleDecision(h: Hierarchy, maps: Maps, accepted: seq<Candidate>, current: ClassName, m: MethodInfo, t: ClassName)
    requires MapsOk(h, maps) && current in h
    requires KeysOnlyForMarked(maps) && SinglesAccepted(maps, accepted)
    requires AcceptedRecorded(h, maps, accepted) && AcceptedBelow(h, accepted, current)
    requires Checkable(h, m) && m.declaringClass == current
    requires t in maps.anyMethodByEventType && maps.anyMethodByEventType[t].AMethod?
    ensures
      var r := CheckAddFixed(h, maps, m, t);
      var e := maps.anyMethodByEventType[t].m;
      && r.Success?
      && (r.value.0 <==> !Overridden(accepted, m, t))
      && (r.value.0 && m.name == e.name ==> e.declaringClass == m.declaringClass)
      && r.value.1 == Maps(maps.anyMethodByEventType[t := Marker],
                           SingleKeys(maps.subscriberClassByMethodKey, t, e, m, r.value.0))
  {
    var any := maps.anyMethodByEventType;
    var keys := maps.subscriberClassByMethodKey;
    var e := any[t].m;
    var ke := MethodKey(e.name, t);
    var km := MethodKey(m.name, t);
    assert Checkable(h, e);
    assert ke !in keys;
    var keys1 := keys[ke := e.declaringClass];
    assert SignatureCheck(h, keys, e, t) == (true, keys1);
    var r := CheckAddFixed(h, maps, m, t);
    var ok := r.value.0;
    assert Candidate(e, t) in accepted;
    forall c | c in accepted && c.eventType == t ensures c.handler == e { }
    if m.name == e.name {
      assert km == ke;
      assert IsAssignableFrom(h, current, e.declaringClass);
      if IsAssignableFrom(h, e.declaringClass, current) {
        AssignableAntisymmetric(h, e.declaringClass, current);
      }
      assert ok <==> e.declaringClass == current;
      assert e.declaringClass != current ==> Overridden(accepted, m, t);
    } else {
      if km == ke {
        MethodKeyInjective(m.name, t, e.name, t);
      }
      assert km !in keys1;
    }
  }

  lemma SingleKeysMarked(maps: Maps, t: ClassName, e: MethodInfo, m: MethodInfo, ok: bool, maps': Maps)
    requires KeysOnlyForMarked(maps) && ValidName(e.name) && ValidName(m.name)
    requires maps'.anyMethodByEventType == maps.anyMethodByEventType[t := Marker]
    requires maps'.subscriberClassByMethodKey == SingleKeys(maps.subscriberClassByMethodKey, t, e, m, ok)
    ensures KeysOnlyForMarked(maps')
  {
    forall n, t' | ValidName(n) && MethodKey(n, t') in maps'.subscriberClassByMethodKey
      ensures t' in maps'.anyMethodByEventType && maps'.anyMethodByEventType[t'] == Marker
    {
      if MethodKey(n, t') == MethodKey(e.name, t) { MethodKeyInjective(n, t', e.name, t); }
      if MethodKey(n, t') == MethodKey(m.name, t) { MethodKeyInjective(n, t', m.name, t); }
    }
  }

  lemma SingleRecorded(h: Hierarchy, maps: Maps, accepted: seq<Candidate>, t: ClassName, e: MethodInfo,
                       m: MethodInfo, ok: bool, maps': Maps)
    requires AcceptedRecorded(h, maps, accepted) && Checkable(h, m) && ValidName(e.name)
    requires t in maps.anyMethodByEventType && maps.anyMethodByEventType[t] == AMethod(e)
    requires ok && m.name == e.name ==> e.declaringClass == m.declaringClass
    requires maps'.anyMethodByEventType == maps.anyMethodByEventType[t := Marker]
    requires maps'.subscriberClassByMethodKey == SingleKeys(maps.subscriberClassByMethodKey, t, e, m, ok)
    ensures AcceptedRecorded(h, maps', if ok then accepted + [Candidate(m, t)] else accepted)
  {
    var accepted' := if ok then accepted + [Candidate(m, t)] else accepted;
    var keys2 := maps'.subscriberClassByMethodKey;
    forall c | c in accepted'
      ensures c.eventType in maps'.anyMethodByEventType
      ensures c.eventType == t ==>
        MethodKey(c.handler.name, t) in keys2 && keys2[MethodKey(c.handler.name, t)] == c.handler.declaringClass
      ensures c.eventType != t ==>
        MethodKey(c.handler.name, c.eventType) !in {MethodKey(e.name, t), MethodKey(m.name, t)}
    {
      if c.eventType != t {
        if MethodKey(c.handler.name, c.eventType) == MethodKey(e.name, t) {
          MethodKeyInjective(c.handler.name, c.eventType, e.name, t);
        }
        if MethodKey(c.handler.name, c.eventType) == MethodKey(m.name, t) {
          MethodKeyInjective(c.handler.name, c.eventType, m.name, t);
        }
      } else if c in accepted {
        assert c.handler == e;
        if ok && MethodKey(m.name, t) == MethodKey(e.name, t) {
          MethodKeyInjective(m.name, t, e.name, t);
        }
      }
    }
  }

  lemma SingleKeysFrom(maps: Maps, accepted: seq<Candidate>, t: ClassName, e: MethodInfo,
                       m: MethodInfo, ok: bool, maps': Maps)
    requires KeysFromAccepted(maps, accepted) && ValidName(e.name) && ValidName(m.name)
    requires Candidate(e, t) in accepted
    requires maps'.subscriberClassByMethodKey == SingleKeys(maps.subscriberClassByMethodKey, t, e, m, ok)
    ensures KeysFromAccepted(maps', if ok then accepted + [Candidate(m, t)] else accepted)
  {
    var accepted' := if ok then accepted + [Candidate(m, t)] else accepted;
    forall n, t' | ValidName(n) && MethodKey(n, t') in maps'.subscriberClassByMethodKey
      ensures exists c | c in accepted' :: c.handler.name == n && c.eventType == t'
    {
      if MethodKey(n, t') == MethodKey(e.name, t) {
        MethodKeyInjective(n, t', e.name, t);
        assert Candidate(e, t) in accepted';
      } else if ok && MethodKey(n, t') == MethodKey(m.name, t) {
        MethodKeyInjective(n, t', m.name, t);
        assert Candidate(m, t) in accepted';
      } else {
        var c :| c in accepted && c.handler.name == n && c.eventType == t';
        assert c in accepted';
      }
    }
  }

  /** Later methods for an event type: the signature check alone decides. */
  lemma MarkedDecision(h: Hierarchy, maps: Maps, accepted: seq<Candidate>, current: ClassName, m: MethodInfo, t: ClassName)
    requires MapsOk(h, maps) && current in h
    requires AcceptedRecorded(h, maps, accepted) && AcceptedBelow(h, accepted, current)
    requires KeysFromAccepted(maps, accepted)
    requires Checkable(h, m) && m.declaringClass == current
    requires t in maps.anyMethodByEventType && maps.anyMethodByEventType[t] == Marker
    ensures
      var r := CheckAddFixed(h, maps, m, t);
      var keys := maps.subscriberClassByMethodKey;
      && r.Success?
      && (r.value.0 <==> !Overridden(accepted, m, t))
      && r.value.1 == Maps(maps.anyMethodByEventType,
                           if r.value.0 then keys[MethodKey(m.name, t) := current] else keys)
  {
    var any := maps.anyMethodByEventType;
    var keys := maps.subscriberClassByMethodKey;
    var km := MethodKey(m.name, t);
    var r := CheckAddFixed(h, maps, m, t);
    var ok := r.value.0;
    assert any[t := Marker] == any;
    forall c | c in accepted && c.handler.name == m.name && c.eventType == t
      ensures km in keys && keys[km] == c.handler.declaringClass
    {
    }
    if km in keys {
      var c :| c in accepted && c.handler.name == m.name && c.eventType == t;
      var k := keys[km];
      assert IsAssignableFrom(h, current, k);
      if IsAssignableFrom(h, k, current) {
        AssignableAntisymmetric(h, k, current);
      }
      assert ok <==> k == current;
      assert keys[km := m.declaringClass][km := keys[km]] == keys;
    }
  }

  lemma MarkedKeysMarked(maps: Maps, t: ClassName, m: MethodInfo, ok: bool, maps': Maps)
    requires KeysOnlyForMarked(maps) && ValidName(m.name)
    requires t in maps.anyMethodByEventType && maps.anyMethodByEventType[t] == Marker
    requires maps'.anyMethodByEventType == maps.anyMethodByEventType
    requires
      var keys := maps.subscriberClassByMethodKey;
      maps'.subscriberClassByMethodKey == if ok then keys[MethodKey(m.name, t) := m.declaringClass] else keys
    ensures KeysOnlyForMarked(maps')
  {
    forall n, t' | ValidName(n) && MethodKey(n, t') in maps'.subscriberClassByMethodKey
      ensures t' in maps'.anyMethodByEventType && maps'.anyMethodByEventType[t'] == Marker
    {
      if MethodKey(n, t') == MethodKey(m.name, t) { MethodKeyInjective(n, t', m.name, t); }
    }
  }

  lemma MarkedRecorded(h: Hierarchy, maps: Maps, accepted: seq<Candidate>, t: ClassName,
                       m: MethodInfo, ok: bool, maps': Maps)
    requires AcceptedRecorded(h, maps, accepted) && Checkable(h, m)
    requires t in maps.anyMethodByEventType && maps.anyMethodByEventType[t] == Marker
    requires ok ==> !Overridden(accepted, m, t)
    requires maps'.anyMethodByEventType == maps.anyMethodByEventType
    requires
      var keys := maps.subscriberClassByMethodKey;
      maps'.subscriberClassByMethodKey == if ok then keys[MethodKey(m.name, t) := m.declaringClass] else keys
    ensures AcceptedRecorded(h, maps', if ok then accepted + [Candidate(m, t)] else accepted)
  {
    var accepted' := if ok then accepted + [Candidate(m, t)] else accepted;
    var km := MethodKey(m.name, t);
    forall c | c in accepted && MethodKey(c.handler.name, c.eventType) == km
      ensures ok ==> c.handler.declaringClass == m.declaringClass
    {
      MethodKeyInjective(c.handler.name, c.eventType, m.name, t);
    }
    assert forall c | c in accepted' :: c in accepted || c == Candidate(m, t);
  }

  lemma MarkedKeysFrom(maps: Maps, accepted: seq<Candidate>, t: ClassName, m: MethodInfo, ok: bool, maps': Maps)
    requires KeysFromAccepted(maps, accepted) && ValidName(m.name)
    requires
      var keys := maps.subscriberClassByMethodKey;
      maps'.subscriberClassByMethodKey == if ok then keys[MethodKey(m.name, t) := m.declaringClass] else keys
    ensures KeysFromAccepted(maps', if ok then accepted + [Candidate(m, t)] else accepted)
  {
    var accepted' := if ok then accepted + [Candidate(m, t)] else accepted;
    forall n, t' | ValidName(n) && MethodKey(n, t') in maps'.subscriberClassByMethodKey
      ensures exists c | c in accepted' :: c.handler.name == n && c.eventType == t'
    {
      if ok && MethodKey(n, t') == MethodKey(m.name, t) {
        MethodKeyInjective(n, t', m.name, t);
        assert Candidate(m, t) in accepted';
      } else {
        var c :| c in accepted && c.handler.name == n && c.eventType == t';
        assert c in accepted';
      }
    }
  }

  lemma AcceptedBelowAppend(h: Hierarchy, accepted: seq<Candidate>, current: ClassName, m: MethodInfo, t: ClassName)
    requires WellFormed(h) && current in h && AcceptedBelow(h, accepted, current)
    requires m.declaringClass == current
    ensures AcceptedBelow(h, accepted + [Candidate(m, t)], current)
  {
    assert IsAssignableFrom(h, current, current);
    assert forall c | c in accepted + [Candidate(m, t)] :: c in accepted || c == Candidate(m, t);
  }

  /** Appending a method no accepted method overrides keeps the absence of overridden duplicates. */
  lemma NoOverrideDupAppend(accepted: seq<Candidate>, m: MethodInfo, t: ClassName)
    requires NoOverrideDup(accepted) && !Overridden(accepted, m, t)
    ensures NoOverrideDup(accepted + [Candidate(m, t)])
  {
    var accepted' := accepted + [Candidate(m, t)];
    forall i, j | 0 <= i < |accepted'| && 0 <= j < |accepted'|
      && accepted'[i].handler.name == accepted'[j].handler.name && accepted'[i].eventType == accepted'[j].eventType
      ensures accepted'[i].handler.declaringClass == accepted'[j].handler.declaringClass
    {
      if i < |accepted| && j < |accepted| {
      } else if i < |accepted| {
        assert accepted'[i] in accepted;
      } else if j < |accepted| {
        assert accepted'[j] in accepted;
      }
    }
  }

  /** Moving the walk to a supertype of `current` keeps the walk invariant. */
  lemma WalkMoveUp(h: Hierarchy, maps: Maps, accepted: seq<Candidate>, current: ClassName, next: ClassName)
    requires WalkInv(h, maps, accepted, current)
    requires next in h && IsAssignableFrom(h, next, current)
    ensures WalkInv(h, maps, accepted, next)
  {
    forall c | c in accepted && c.handler.declaringClass in h
      ensures IsAssignableFrom(h, next, c.handler.declaringClass)
    {
      AssignableTransitive(h, next, current, c.handler.declaringClass);
    }
  }
}
