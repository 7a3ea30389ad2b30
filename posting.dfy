/**
 * The meaning of one post, as values: what a handler run in place does, what
 * one delivery (`postToSubscription`), one pass over a subscription list
 * (`postSingleEventForEventType`) and the passes over all event types of an
 * event (`postSingleEvent`) deliver, consume of the handler script, queue and
 * throw. The posting methods of the bus are proved against these functions.
 */
module Posting {
  import opened Wrappers
  import opened JavaTypes
  import opened Exceptions
  import opened Subscriptions

  ghost predicate EventIn(h: Hierarchy, e: Event) {
    ClassOf(e) in h
  }

  /** Every event a script entry posts is of a class of the hierarchy. */
  ghost predicate ScriptOk(h: Hierarchy, script: seq<seq<Action>>) {
    forall i, j | 0 <= i < |script| && 0 <= j < |script[i]| && script[i][j].PostEvent? ::
      EventIn(h, script[i][j].posted)
  }

  lemma ScriptSuffix(h: Hierarchy, script: seq<seq<Action>>, k: nat)
    requires ScriptOk(h, script) && k <= |script|
    ensures ScriptOk(h, script[k..])
  {
    forall i, j | 0 <= i < |script[k..]| && 0 <= j < |script[k..][i]| && script[k..][i][j].PostEvent?
      ensures EventIn(h, script[k..][i][j].posted)
    {
      assert script[k..][i] == script[k + i];
    }
  }

  /** The subscription list of `t`, empty when there is none. */
  function ListOf(m: map<ClassName, seq<Subscription>>, t: ClassName): seq<Subscription> {
    if t in m then m[t] else []
  }

  /** Whether a handler body cancels a delivery. */
  predicate HasCancel(actions: seq<Action>) {
    exists j | 0 <= j < |actions| :: actions[j].CancelDelivery?
  }

  /**
   * The checks of `cancelEventDelivery`, in the order it makes them: the
   * exception it throws, or None when the cancel is accepted.
   */
  function CancelRefusal(isPosting: bool, target: Option<Event>, current: Option<Event>,
                         currentMode: Option<ThreadMode>): (r: Option<Exception>)
    ensures r.None? <==> isPosting && target.Some? && target == current && currentMode == Some(POSTING)
  {
    if !isPosting then Some(CancelOutsidePosting)
    else if target.None? then Some(CancelNullEvent)
    else if current != target then Some(CancelOtherEvent)
    else if currentMode != Some(POSTING) then Some(CancelFromOtherThreadMode)
    else None
  }

  /** What a handler run in place did: the events it posted, whether it canceled, what it threw. */
  datatype HandlerRun = HandlerRun(posted: seq<Event>, canceled: bool, thrown: Option<Exception>)

  /**
   * A handler body run during the delivery of `current` to a handler of
   * thread mode `mode`: posts only queue, a cancel is checked as
   * `cancelEventDelivery` checks it, and the first exception ends the body.
   */
  function RunActions(actions: seq<Action>, current: Event, mode: ThreadMode): HandlerRun {
    if actions == [] then HandlerRun([], false, None)
    else
      var rest := RunActions(actions[1..], current, mode);
      match actions[0]
      case PostEvent(e) => rest.(posted := [e] + rest.posted)
      case CancelDelivery(target) =>
        (match CancelRefusal(true, target, Some(current), Some(mode))
         case Some(ex) => HandlerRun([], false, Some(ex))
         case None => rest.(canceled := true))
      case Throw => HandlerRun([], false, Some(HandlerFailure))
  }

  /**
   * A handler body posts only the events it names, and its cancel takes
   * effect only from a POSTING handler.
   */
  lemma {:induction false} RunActionsSound(actions: seq<Action>, current: Event, mode: ThreadMode)
    ensures var run := RunActions(actions, current, mode);
      && (forall e | e in run.posted :: PostEvent(e) in actions)
      && (run.canceled ==> mode == POSTING && HasCancel(actions))
  {
    if actions != [] {
      RunActionsSound(actions[1..], current, mode);
      assert forall e | PostEvent(e) in actions[1..] :: PostEvent(e) in actions;
      if HasCancel(actions[1..]) {
        var j :| 0 <= j < |actions[1..]| && actions[1..][j].CancelDelivery?;
        assert actions[j + 1].CancelDelivery?;
      }
    }
  }

  /**
   * A handler body run in place outside a post, as far as its own posts
   * return normally: each post is made in turn, a cancel is refused because
   * no post is in progress, and the first exception ends the body.
   */
  function RunOutside(actions: seq<Action>): (run: HandlerRun)
    ensures !run.canceled
    ensures run.thrown.None? <==> forall j | 0 <= j < |actions| :: actions[j].PostEvent?
    ensures run.thrown.Some? ==> run.thrown == Some(CancelOutsidePosting) || run.thrown == Some(HandlerFailure)
    ensures forall e | e in run.posted :: PostEvent(e) in actions
  {
    if actions == [] then HandlerRun([], false, None)
    else
      match actions[0]
      case PostEvent(e) =>
        var rest := RunOutside(actions[1..]);
        assert forall j | 0 <= j < |actions[1..]| :: actions[1..][j] == actions[j + 1];
        HandlerRun([e] + rest.posted, false, rest.thrown)
      case CancelDelivery(target) => HandlerRun([], false, CancelRefusal(false, target, None, None))
      case Throw => HandlerRun([], false, Some(HandlerFailure))
  }

  /** A body run outside a post gets as far as its action `k`, a post. */
  predicate ReachesPost(actions: seq<Action>, k: int) {
    && 0 <= k < |actions| && actions[k].PostEvent?
    && forall i | 0 <= i < k :: actions[i].PostEvent?
  }

  /** A handler body's effect so far (`posted`, `canceled`) followed by `rest`. */
  function After(posted: seq<Event>, canceled: bool, rest: HandlerRun): HandlerRun {
    HandlerRun(posted + rest.posted, canceled || rest.canceled, rest.thrown)
  }

  /**
   * One action of a handler body, after `posted` and `canceled`: a post
   * queues its event, an accepted cancel sets the flag, and a refused cancel
   * or the handler's own failure ends the body with that exception.
   */
  lemma RunActionsStep(actions: seq<Action>, j: nat, current: Event, mode: ThreadMode, posted: seq<Event>,
                       canceled: bool)
    requires j < |actions|
    ensures var run := After(posted, canceled, RunActions(actions[j..], current, mode));
      var next := RunActions(actions[j + 1..], current, mode);
      match actions[j]
      case PostEvent(x) => run == After(posted + [x], canceled, next)
      case CancelDelivery(target) =>
        var refusal := CancelRefusal(true, target, Some(current), Some(mode));
        && (refusal.Some? ==> run == HandlerRun(posted, canceled, refusal))
        && (refusal.None? ==> run == After(posted, true, next))
      case Throw => run == HandlerRun(posted, canceled, Some(HandlerFailure))
  {
    assert actions[j..][1..] == actions[j + 1..];
    assert posted + [] == posted;
    if actions[j].PostEvent? {
      var next := RunActions(actions[j + 1..], current, mode);
      assert posted + ([actions[j].posted] + next.posted) == (posted + [actions[j].posted]) + next.posted;
    }
  }

  /**
   * The decision of `handleSubscriberException` for an exception `cause`
   * thrown while delivering `event`: rethrown wrapped only when
   * `throwSubscriberException` is set and the event is not itself a
   * `SubscriberExceptionEvent`; otherwise only reported.
   */
  function HandleSubscriberException(h: Hierarchy, throwSubscriberException: bool, event: Event,
                                     cause: Exception): (r: Option<Exception>)
    requires WellFormed(h) && EventIn(h, event)
    ensures r.Some? <==> throwSubscriberException && !IsAssignableFrom(h, SUBSCRIBER_EXCEPTION_EVENT, ClassOf(event))
    ensures r.Some? ==> r.value == InvokingSubscriberFailed(cause)
  {
    if IsAssignableFrom(h, SUBSCRIBER_EXCEPTION_EVENT, ClassOf(event)) then None
    else if throwSubscriberException then Some(InvokingSubscriberFailed(cause))
    else None
  }

  /**
   * What part of a post did: the deliveries made, the number of script
   * entries consumed, the events queued, whether the last delivery was
   * canceled, and the exception that ended it, if any.
   */
  datatype Step = Step(deliveries: seq<Delivery>, consumed: nat, posted: seq<Event>, canceled: bool,
                       error: Option<Exception>)

  const NoStep := Step([], 0, [], false, None)

  /** `a` followed by `b`. */
  function Then(a: Step, b: Step): Step {
    Step(a.deliveries + b.deliveries, a.consumed + b.consumed, a.posted + b.posted, b.canceled, b.error)
  }

  lemma ThenAssoc(a: Step, b: Step, c: Step)
    ensures Then(Then(a, b), c) == Then(a, Then(b, c))
  {
    assert (a.deliveries + b.deliveries) + c.deliveries == a.deliveries + (b.deliveries + c.deliveries);
    assert (a.posted + b.posted) + c.posted == a.posted + (b.posted + c.posted);
  }

  /** The parts of the bus state a post advances: trace, handler script, queue, and all events queued. */
  datatype Progress = Progress(trace: seq<Delivery>, script: seq<seq<Action>>, queue: seq<Event>, enqueued: seq<Event>)

  /** Going from `a` to `b`, the bus did `s`. */
  predicate Advanced(a: Progress, b: Progress, s: Step) {
    && s.consumed <= |a.script|
    && b.trace == a.trace + s.deliveries && b.script == a.script[s.consumed..]
    && b.queue == a.queue + s.posted && b.enqueued == a.enqueued + s.posted
  }

  lemma AdvancedNone(a: Progress)
    ensures Advanced(a, a, NoStep)
  {
    assert a.trace + [] == a.trace && a.queue + [] == a.queue && a.enqueued + [] == a.enqueued;
  }

  lemma AdvancedThen(a: Progress, b: Progress, c: Progress, s: Step, t: Step)
    requires Advanced(a, b, s) && Advanced(b, c, t)
    ensures Advanced(a, c, Then(s, t))
  {
    assert a.script[s.consumed..][t.consumed..] == a.script[s.consumed + t.consumed..];
    assert (a.trace + s.deliveries) + t.deliveries == a.trace + (s.deliveries + t.deliveries);
    assert (a.queue + s.posted) + t.posted == a.queue + (s.posted + t.posted);
    assert (a.enqueued + s.posted) + t.posted == a.enqueued + (s.posted + t.posted);
  }

  /** The end of a sequence of steps: what was done is exactly `s`. */
  lemma AdvancedNoStep(a: Progress, b: Progress, s: Step)
    requires Advanced(a, b, s)
    ensures Advanced(a, b, Then(s, NoStep))
  {
    assert s.deliveries + [] == s.deliveries && s.posted + [] == s.posted;
  }

  /** After `s`, a nested post only queued `e`. */
  lemma AdvancedQueued(a: Progress, b: Progress, c: Progress, s: Step, e: Event)
    requires Advanced(a, b, s)
    requires c == b.(queue := b.queue + [e], enqueued := b.enqueued + [e])
    ensures Advanced(a, c, s.(posted := s.posted + [e]))
  {
    assert (a.queue + s.posted) + [e] == a.queue + (s.posted + [e]);
    assert (a.enqueued + s.posted) + [e] == a.enqueued + (s.posted + [e]);
  }

  /** The outcome of a step as the method that performs it returns it. */
  function ResultOf(error: Option<Exception>): Result<(), Exception> {
    if error.Some? then Failure(error.value) else Success(())
  }

  /** A delivery after which a pass goes no further. */
  predicate Stops(s: Step) {
    s.canceled || s.error.Some?
  }

  /** The configuration and thread a post runs with. */
  datatype Env = Env(h: Hierarchy, throwSubscriberException: bool, hasMainThreadSupport: bool, isMainThread: bool)

  ghost predicate EnvOk(env: Env) {
    WellFormed(env.h) && (env.hasMainThreadSupport || env.isMainThread)
  }

  function RouteIn(env: Env, sub: Subscription): Route
    requires env.hasMainThreadSupport || env.isMainThread
  {
    RouteOf(sub.subscriberMethod.threadMode, env.isMainThread, env.hasMainThreadSupport)
  }

  /** The deliveries of `event` to each of `subs`, in order. */
  function DeliveriesOf(env: Env, subs: seq<Subscription>, event: Event): (ds: seq<Delivery>)
    requires env.hasMainThreadSupport || env.isMainThread
    ensures |ds| == |subs|
  {
    if subs == [] then [] else [DeliveryFor(RouteIn(env, subs[0]), subs[0], event)] + DeliveriesOf(env, subs[1..], event)
  }

  /**
   * `postToSubscription`: handed to a poster, or invoked in place, where the
   * handler consumes the next script entry (none when the script is spent).
   */
  function Deliver(env: Env, sub: Subscription, e: Event, script: seq<seq<Action>>): (s: Step)
    requires EnvOk(env) && EventIn(env.h, e)
    ensures s.consumed <= 1 && s.consumed <= |script|
  {
    match RouteIn(env, sub)
    case Enqueue(p) => Step([Enqueued(p, sub, e)], 0, [], false, None)
    case Inline =>
      if script == [] then Step([Invoked(sub, e)], 0, [], false, None)
      else
        var run := RunActions(script[0], e, sub.subscriberMethod.threadMode);
        Step([Invoked(sub, e)], 1, run.posted, run.canceled,
             if run.thrown.None? then None
             else HandleSubscriberException(env.h, env.throwSubscriberException, e, run.thrown.value))
  }

  /**
   * One delivery is recorded by the route its thread mode selects; it
   * consumes a script entry only when invoked in place, and only then can
   * it queue, cancel or throw; a cancel comes from a POSTING handler.
   */
  lemma DeliverShape(env: Env, sub: Subscription, e: Event, script: seq<seq<Action>>)
    requires EnvOk(env) && EventIn(env.h, e)
    ensures var s := Deliver(env, sub, e, script);
      && s.deliveries == [DeliveryFor(RouteIn(env, sub), sub, e)]
      && (s.consumed == 1 <==> RouteIn(env, sub) == Inline && script != [])
      && (s.consumed == 0 ==> s.posted == [] && !s.canceled && s.error.None?)
      && (s.canceled ==> sub.subscriberMethod.threadMode == POSTING && HasCancel(script[0]))
      && (ScriptOk(env.h, script) ==> forall x | x in s.posted :: EventIn(env.h, x))
  {
    if RouteIn(env, sub) == Inline && script != [] {
      RunActionsSound(script[0], e, sub.subscriberMethod.threadMode);
      var run := RunActions(script[0], e, sub.subscriberMethod.threadMode);
      if ScriptOk(env.h, script) {
        forall x | x in run.posted ensures EventIn(env.h, x) {
          var j :| 0 <= j < |script[0]| && script[0][j] == PostEvent(x);
        }
      }
    }
  }

  /**
   * `postSingleEventForEventType` on the list `subs`: each subscription in
   * turn, until a delivery is canceled or throws.
   */
  function Pass(env: Env, subs: seq<Subscription>, e: Event, script: seq<seq<Action>>): (s: Step)
    requires EnvOk(env) && EventIn(env.h, e)
    ensures s.consumed <= |script|
    decreases |subs|
  {
    if subs == [] then NoStep
    else
      var d := Deliver(env, subs[0], e, script);
      if Stops(d) then d
      else
        var rest := Pass(env, subs[1..], e, script[d.consumed..]);
        Step(d.deliveries + rest.deliveries, d.consumed + rest.consumed, d.posted + rest.posted, rest.canceled, rest.error)
  }

  /**
   * A pass over `subs` from `i` on, after `acc`: the delivery to `subs[i]`
   * either ends it or leaves the pass from `i + 1` on.
   */
  lemma PassStep(env: Env, subs: seq<Subscription>, i: nat, e: Event, script: seq<seq<Action>>, acc: Step, whole: Step)
    requires EnvOk(env) && EventIn(env.h, e) && i < |subs|
    requires Then(acc, Pass(env, subs[i..], e, script)) == whole
    ensures var d := Deliver(env, subs[i], e, script);
      && (Stops(d) ==> Then(acc, d) == whole)
      && (!Stops(d) ==> Then(Then(acc, d), Pass(env, subs[i + 1..], e, script[d.consumed..])) == whole)
  {
    var d := Deliver(env, subs[i], e, script);
    assert subs[i..][1..] == subs[i + 1..];
    ThenAssoc(acc, d, Pass(env, subs[i + 1..], e, script[d.consumed..]));
  }

  /** `postSingleEvent` without its fallback: a pass per event type, in order, until one throws. */
  function Passes(env: Env, m: map<ClassName, seq<Subscription>>, types: seq<ClassName>, e: Event,
                  script: seq<seq<Action>>): (s: Step)
    requires EnvOk(env) && EventIn(env.h, e)
    ensures s.consumed <= |script|
    decreases |types|
  {
    if types == [] then NoStep
    else
      var p := Pass(env, ListOf(m, types[0]), e, script);
      if p.error.Some? then p
      else
        var rest := Passes(env, m, types[1..], e, script[p.consumed..]);
        Step(p.deliveries + rest.deliveries, p.consumed + rest.consumed, p.posted + rest.posted, rest.canceled, rest.error)
  }

  /** Passes over `types` from `k` on, after `acc`: the pass of `types[k]` either throws or leaves the rest. */
  lemma PassesStep(env: Env, m: map<ClassName, seq<Subscription>>, types: seq<ClassName>, k: nat, e: Event,
                   script: seq<seq<Action>>, acc: Step, whole: Step)
    requires EnvOk(env) && EventIn(env.h, e) && k < |types|
    requires Then(acc, Passes(env, m, types[k..], e, script)) == whole
    ensures var p := Pass(env, ListOf(m, types[k]), e, script);
      && (p.error.Some? ==> Then(acc, p) == whole)
      && (p.error.None? ==> Then(Then(acc, p), Passes(env, m, types[k + 1..], e, script[p.consumed..])) == whole)
  {
    var p := Pass(env, ListOf(m, types[k]), e, script);
    assert types[k..][1..] == types[k + 1..];
    ThenAssoc(acc, p, Passes(env, m, types[k + 1..], e, script[p.consumed..]));
  }

  /** The passes over one type are that type's pass. */
  lemma PassesSingle(env: Env, m: map<ClassName, seq<Subscription>>, t: ClassName, e: Event, script: seq<seq<Action>>)
    requires EnvOk(env) && EventIn(env.h, e)
    ensures var p := Pass(env, ListOf(m, t), e, script);
      var s := Passes(env, m, [t], e, script);
      && s.error == p.error && s.deliveries == p.deliveries && s.consumed == p.consumed && s.posted == p.posted
      && (Found(m, [t]) <==> ListOf(m, t) != [])
  {
    var p := Pass(env, ListOf(m, t), e, script);
    assert [t][1..] == [];
    assert p.deliveries + [] == p.deliveries && p.posted + [] == p.posted;
    assert t in [t];
  }

  /** Advancing by a step is determined by its deliveries, consumption and queued events. */
  lemma AdvancedLike(a: Progress, b: Progress, s: Step, t: Step)
    requires Advanced(a, b, s)
    requires t.deliveries == s.deliveries && t.consumed == s.consumed && t.posted == s.posted
    ensures Advanced(a, b, t)
  {
  }

  /** Some type of `types` has a non-empty subscription list. */
  predicate Found(m: map<ClassName, seq<Subscription>>, types: seq<ClassName>) {
    exists t | t in types :: ListOf(m, t) != []
  }

  /** Whether the types up to `k` have subscriptions, one type more at a time. */
  lemma FoundPrefix(m: map<ClassName, seq<Subscription>>, types: seq<ClassName>, k: nat)
    requires k < |types|
    ensures Found(m, types[..k + 1]) <==> Found(m, types[..k]) || ListOf(m, types[k]) != []
  {
    assert types[..k + 1] == types[..k] + [types[k]];
    assert types[k] in types[..k + 1];
    assert forall u | u in types[..k] :: u in types[..k + 1];
  }

  /** Whether `postSingleEvent` posts a `NoSubscriberEvent` for `e`. */
  predicate PostsNoSubscriberEvent(sendNoSubscriberEvent: bool, found: bool, e: Event) {
    !found && sendNoSubscriberEvent && ClassOf(e) != NO_SUBSCRIBER_EVENT && ClassOf(e) != SUBSCRIBER_EXCEPTION_EVENT
  }

  /**
   * `postSingleEvent` over the event types `types`: the passes, then, when
   * no list was found and none threw, the `NoSubscriberEvent` fallback.
   */
  function PostOne(env: Env, m: map<ClassName, seq<Subscription>>, types: seq<ClassName>, e: Event,
                   script: seq<seq<Action>>, sendNoSubscriberEvent: bool): Step
    requires EnvOk(env) && EventIn(env.h, e)
  {
    var s := Passes(env, m, types, e, script);
    if s.error.None? && PostsNoSubscriberEvent(sendNoSubscriberEvent, Found(m, types), e)
    then s.(posted := s.posted + [NoSubscriberEvent(e)])
    else s
  }

  /**
   * A pass delivers to a prefix of its list, in list order, each
   * subscription by the route its thread mode selects.
   */
  lemma {:induction false} PassInOrder(env: Env, subs: seq<Subscription>, e: Event, script: seq<seq<Action>>)
    requires EnvOk(env) && EventIn(env.h, e)
    ensures var s := Pass(env, subs, e, script);
      |s.deliveries| <= |subs| && s.deliveries == DeliveriesOf(env, subs[..|s.deliveries|], e)
    decreases |subs|
  {
    if subs != [] {
      var d := Deliver(env, subs[0], e, script);
      assert subs[..1] == [subs[0]];
      if !Stops(d) {
        PassInOrder(env, subs[1..], e, script[d.consumed..]);
        var rest := Pass(env, subs[1..], e, script[d.consumed..]);
        var n := |rest.deliveries|;
        assert subs[..n + 1][1..] == subs[1..][..n];
      }
    }
  }

  /**
   * The outcome `s` of a pass over `subs`: unless it throws, it reaches the
   * end of `subs` or is canceled, and a canceled delivery is the last one
   * made: a POSTING handler invoked in place.
   */
  predicate EndsOnlyOnCancel(subs: seq<Subscription>, e: Event, s: Step) {
    && (s.error.None? && !s.canceled ==> |s.deliveries| == |subs|)
    && (s.canceled ==>
          && 0 < |s.deliveries| <= |subs|
          && var last := subs[|s.deliveries| - 1];
          && last.subscriberMethod.threadMode == POSTING
          && s.deliveries[|s.deliveries| - 1] == Invoked(last, e))
  }

  /** One delivery that does not stop the pass, followed by the pass over the rest of the list. */
  lemma EndsOnlyOnCancelThen(subs: seq<Subscription>, e: Event, d: Step, rest: Step)
    requires subs != [] && |d.deliveries| == 1 && !Stops(d)
    requires EndsOnlyOnCancel(subs[1..], e, rest)
    ensures EndsOnlyOnCancel(subs, e, Then(d, rest))
  {
    if rest.canceled {
      assert subs[|rest.deliveries|] == subs[1..][|rest.deliveries| - 1];
    }
  }

  /** A pass that throws nothing reaches the end of its list unless a delivery is canceled. */
  lemma {:induction false} PassStopsOnlyOnCancel(env: Env, subs: seq<Subscription>, e: Event, script: seq<seq<Action>>)
    requires EnvOk(env) && EventIn(env.h, e)
    ensures EndsOnlyOnCancel(subs, e, Pass(env, subs, e, script))
    decreases |subs|
  {
    if subs != [] {
      var d := Deliver(env, subs[0], e, script);
      DeliverShape(env, subs[0], e, script);
      if !Stops(d) {
        PassStopsOnlyOnCancel(env, subs[1..], e, script[d.consumed..]);
        EndsOnlyOnCancelThen(subs, e, d, Pass(env, subs[1..], e, script[d.consumed..]));
      }
    }
  }

  /** Handlers that never cancel never cut a pass short. */
  lemma {:induction false} PassWithoutCancel(env: Env, subs: seq<Subscription>, e: Event, script: seq<seq<Action>>)
    requires EnvOk(env) && EventIn(env.h, e)
    requires forall i | 0 <= i < |script| :: !HasCancel(script[i])
    ensures !Pass(env, subs, e, script).canceled
    decreases |subs|
  {
    if subs != [] {
      var d := Deliver(env, subs[0], e, script);
      DeliverShape(env, subs[0], e, script);
      if !Stops(d) {
        forall i | 0 <= i < |script[d.consumed..]| ensures !HasCancel(script[d.consumed..][i]) {
          assert script[d.consumed..][i] == script[d.consumed + i];
        }
        PassWithoutCancel(env, subs[1..], e, script[d.consumed..]);
      }
    }
  }

  /** A pass over a non-empty list delivers to its first subscription. */
  lemma PassReachesFirst(env: Env, subs: seq<Subscription>, e: Event, script: seq<seq<Action>>)
    requires EnvOk(env) && EventIn(env.h, e) && subs != []
    ensures DeliveryFor(RouteIn(env, subs[0]), subs[0], e) in Pass(env, subs, e, script).deliveries
  {
  }

  /** Every type of `types` with subscriptions has the delivery to its first subscription in `ds`. */
  predicate ReachesEveryType(env: Env, m: map<ClassName, seq<Subscription>>, types: seq<ClassName>, e: Event,
                             ds: seq<Delivery>)
    requires env.hasMainThreadSupport || env.isMainThread
  {
    forall k | 0 <= k < |types| && ListOf(m, types[k]) != [] ::
      var first := ListOf(m, types[k])[0];
      DeliveryFor(RouteIn(env, first), first, e) in ds
  }

  /** The deliveries of the pass over the first type, followed by those of the passes over the rest. */
  lemma ReachesEveryTypeThen(env: Env, m: map<ClassName, seq<Subscription>>, types: seq<ClassName>, e: Event,
                             pd: seq<Delivery>, rd: seq<Delivery>)
    requires (env.hasMainThreadSupport || env.isMainThread) && types != []
    requires ListOf(m, types[0]) != [] ==>
      DeliveryFor(RouteIn(env, ListOf(m, types[0])[0]), ListOf(m, types[0])[0], e) in pd
    requires ReachesEveryType(env, m, types[1..], e, rd)
    ensures ReachesEveryType(env, m, types, e, pd + rd)
  {
    forall k | 0 <= k < |types| && ListOf(m, types[k]) != []
      ensures DeliveryFor(RouteIn(env, ListOf(m, types[k])[0]), ListOf(m, types[k])[0], e) in pd + rd
    {
      if k > 0 {
        assert types[k] == types[1..][k - 1];
      }
    }
  }

  /**
   * A cancel ends only the pass of one event type: unless a pass throws,
   * the first subscription of every event type with subscriptions receives
   * the event.
   */
  lemma {:induction false} PassesReachEveryType(env: Env, m: map<ClassName, seq<Subscription>>, types: seq<ClassName>,
                                                e: Event, script: seq<seq<Action>>)
    requires EnvOk(env) && EventIn(env.h, e)
    ensures var s := Passes(env, m, types, e, script);
      s.error.None? ==> ReachesEveryType(env, m, types, e, s.deliveries)
    decreases |types|
  {
    if types != [] {
      var p := Pass(env, ListOf(m, types[0]), e, script);
      if p.error.None? {
        PassesReachEveryType(env, m, types[1..], e, script[p.consumed..]);
        if ListOf(m, types[0]) != [] {
          PassReachesFirst(env, ListOf(m, types[0]), e, script);
        }
        var rest := Passes(env, m, types[1..], e, script[p.consumed..]);
        if rest.error.None? {
          ReachesEveryTypeThen(env, m, types, e, p.deliveries, rest.deliveries);
        }
      }
    }
  }

  /** Passes over types that have no subscriptions do nothing. */
  lemma {:induction false} PassesNotFound(env: Env, m: map<ClassName, seq<Subscription>>, types: seq<ClassName>,
                                          e: Event, script: seq<seq<Action>>)
    requires EnvOk(env) && EventIn(env.h, e) && !Found(m, types)
    ensures Passes(env, m, types, e, script) == NoStep
    decreases |types|
  {
    if types != [] {
      assert ListOf(m, types[0]) == [];
      assert !Found(m, types[1..]) by {
        forall t | t in types[1..] ensures ListOf(m, t) == [] {
          assert t in types;
        }
      }
      PassesNotFound(env, m, types[1..], e, script);
    }
  }

  /**
   * An event nobody subscribes to reaches no handler; it is followed by one
   * `NoSubscriberEvent` wrapping it, and only when sending is enabled and
   * the event is not itself a `NoSubscriberEvent` or `SubscriberExceptionEvent`.
   */
  lemma NoSubscriberFallback(env: Env, m: map<ClassName, seq<Subscription>>, types: seq<ClassName>, e: Event,
                             script: seq<seq<Action>>, sendNoSubscriberEvent: bool)
    requires EnvOk(env) && EventIn(env.h, e) && !Found(m, types)
    ensures var s := PostOne(env, m, types, e, script, sendNoSubscriberEvent);
      && s.deliveries == [] && s.consumed == 0 && s.error.None?
      && s.posted == if sendNoSubscriberEvent && !IsLibraryEvent(e) then [NoSubscriberEvent(e)] else []
  {
    PassesNotFound(env, m, types, e, script);
    assert NoStep.posted + [NoSubscriberEvent(e)] == [NoSubscriberEvent(e)];
    assert PostsNoSubscriberEvent(sendNoSubscriberEvent, Found(m, types), e) == (sendNoSubscriberEvent && !IsLibraryEvent(e));
  }

  /** Library events never cause a `NoSubscriberEvent`: only handlers queue events after them. */
  lemma LibraryEventsNotReported(env: Env, m: map<ClassName, seq<Subscription>>, types: seq<ClassName>, e: Event,
                                 script: seq<seq<Action>>, sendNoSubscriberEvent: bool)
    requires EnvOk(env) && EventIn(env.h, e) && IsLibraryEvent(e)
    ensures PostOne(env, m, types, e, script, sendNoSubscriberEvent) == Passes(env, m, types, e, script)
  {
  }

  /** A pass that invokes no handler in place queues nothing and throws nothing. */
  lemma {:induction false} PassIdle(env: Env, subs: seq<Subscription>, e: Event, script: seq<seq<Action>>)
    requires EnvOk(env) && EventIn(env.h, e)
    ensures var s := Pass(env, subs, e, script);
      s.consumed == 0 ==> s.posted == [] && s.error.None?
    decreases |subs|
  {
    if subs != [] {
      var d := Deliver(env, subs[0], e, script);
      DeliverShape(env, subs[0], e, script);
      if !Stops(d) {
        PassIdle(env, subs[1..], e, script[d.consumed..]);
      }
    }
  }

  lemma {:induction false} PassesIdle(env: Env, m: map<ClassName, seq<Subscription>>, types: seq<ClassName>,
                                      e: Event, script: seq<seq<Action>>)
    requires EnvOk(env) && EventIn(env.h, e)
    ensures var s := Passes(env, m, types, e, script);
      s.consumed == 0 ==> s.posted == [] && s.error.None?
    decreases |types|
  {
    if types != [] {
      var p := Pass(env, ListOf(m, types[0]), e, script);
      PassIdle(env, ListOf(m, types[0]), e, script);
      if p.error.None? {
        PassesIdle(env, m, types[1..], e, script[p.consumed..]);
      }
    }
  }

  /**
   * An event whose handling consumes no script entry queues less weight
   * than it had: with a finite script, the posting loop ends in the model.
   */
  lemma PostOneShrinks(env: Env, m: map<ClassName, seq<Subscription>>, types: seq<ClassName>, e: Event,
                       script: seq<seq<Action>>, sendNoSubscriberEvent: bool)
    requires EnvOk(env) && EventIn(env.h, e)
    ensures var s := PostOne(env, m, types, e, script, sendNoSubscriberEvent);
      s.consumed <= |script| && (s.consumed == 0 ==> Weight(s.posted) < Weight([e]))
  {
    var s := PostOne(env, m, types, e, script, sendNoSubscriberEvent);
    PassesIdle(env, m, types, e, script);
    if s.consumed == 0 {
      assert Weight([e]) == (if IsLibraryEvent(e) then 1 else 2) by {
        assert [e][1..] == [];
      }
      if s.posted != [] {
        assert s.posted == [NoSubscriberEvent(e)];
        assert s.posted[1..] == [];
      }
    }
  }

  /** Being a prefix is transitive. */
  lemma PrefixTrans<T>(a: seq<T>, b: seq<T>, c: seq<T>)
    requires a <= b && b <= c
    ensures a <= c
  {
  }

  /** Queue weight: a `NoSubscriberEvent` can follow an ordinary event but never a library event. */
  function Weight(q: seq<Event>): nat {
    if q == [] then 0 else (if IsLibraryEvent(q[0]) then 1 else 2) + Weight(q[1..])
  }

  lemma {:induction false} WeightAppend(a: seq<Event>, b: seq<Event>)
    ensures Weight(a + b) == Weight(a) + Weight(b)
  {
    if a == [] {
      assert a + b == b;
    } else {
      assert (a + b)[1..] == a[1..] + b;
      WeightAppend(a[1..], b);
    }
  }
}
