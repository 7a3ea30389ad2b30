/**
 * What the dispatcher stores and delivers: events, subscribers, the
 * `Subscription` pairing a subscriber with one of its handler methods, the
 * priority-ordered subscription lists, and the thread-mode routing of a
 * delivery.
 */
module Subscriptions {
  import opened Wrappers
  import opened JavaTypes
  import opened SubscriberMethods

  /** The classes of the events the bus itself posts or reports. */
  const NO_SUBSCRIBER_EVENT: ClassName := "org.greenrobot.eventbus.NoSubscriberEvent"
  const SUBSCRIBER_EXCEPTION_EVENT: ClassName := "org.greenrobot.eventbus.SubscriberExceptionEvent"

  /**
   * A posted event. Events are values, so `==` and `equals` coincide; two
   * posts of equal events differ only through `payload`.
   */
  datatype Event =
    | Event(eventClass: ClassName, payload: nat)
      /** The `NoSubscriberEvent` the bus posts for an event nobody received. */
    | NoSubscriberEvent(originalEvent: Event)

  /** `event.getClass()`. */
  function ClassOf(e: Event): ClassName {
    match e
    case Event(c, _) => c
    case NoSubscriberEvent(_) => NO_SUBSCRIBER_EVENT
  }

  /** Events for which no `NoSubscriberEvent` is ever posted. */
  predicate IsLibraryEvent(e: Event) {
    ClassOf(e) == NO_SUBSCRIBER_EVENT || ClassOf(e) == SUBSCRIBER_EXCEPTION_EVENT
  }

  /** A subscriber object: its identity and its class. */
  datatype Subscriber = Subscriber(id: nat, subscriberClass: ClassName)

  /** A subscriber paired with one of its handler methods. */
  class Subscription {
    const subscriber: Subscriber
    const subscriberMethod: SubscriberMethod
    /** Cleared when the subscription is unregistered; pending deliveries then skip it. */
    var active: bool

    constructor (subscriber: Subscriber, subscriberMethod: SubscriberMethod)
      ensures this.subscriber == subscriber && this.subscriberMethod == subscriberMethod && active
    {
      this.subscriber := subscriber;
      this.subscriberMethod := subscriberMethod;
      active := true;
    }
  }

  /** `Subscription.equals`: the same subscriber and equal handler descriptors. */
  predicate SameSubscription(a: Subscription, b: Subscription) {
    a.subscriber == b.subscriber && SameMethod(a.subscriberMethod, b.subscriberMethod)
  }

  function Priority(x: Subscription): int {
    x.subscriberMethod.priority
  }

  /** A subscription list in delivery order: non-increasing priority. */
  predicate SortedByPriority(subs: seq<Subscription>) {
    forall i, j | 0 <= i < j < |subs| :: Priority(subs[i]) >= Priority(subs[j])
  }

  /** Where `subscribe` puts a subscription of priority `p`. */
  function InsertPosition(subs: seq<Subscription>, p: int): (k: nat)
    ensures k <= |subs|
    ensures forall j | 0 <= j < k :: Priority(subs[j]) >= p
    ensures k < |subs| ==> Priority(subs[k]) < p
  {
    if subs == [] || p > Priority(subs[0]) then 0 else 1 + InsertPosition(subs[1..], p)
  }

  /** Where the entries of `subs` sit once `x` is inserted at `k`. */
  lemma InsertedAt(subs: seq<Subscription>, x: Subscription, k: nat)
    requires k <= |subs|
    ensures var r := subs[..k] + [x] + subs[k..];
      && |r| == |subs| + 1 && r[k] == x
      && (forall j | 0 <= j < k :: r[j] == subs[j])
      && (forall j | k < j < |r| :: r[j] == subs[j - 1])
  {
  }

  /**
   * Inserting at `InsertPosition` keeps the list sorted, after every entry
   * of the same or higher priority and before every entry of lower priority.
   */
  lemma InsertSorted(subs: seq<Subscription>, x: Subscription)
    requires SortedByPriority(subs)
    ensures var k := InsertPosition(subs, Priority(x));
      var r := subs[..k] + [x] + subs[k..];
      && SortedByPriority(r)
      && r[k] == x
      && (forall j | 0 <= j < k :: Priority(r[j]) >= Priority(x))
      && (forall j | k < j < |r| :: Priority(r[j]) < Priority(x))
  {
    var k := InsertPosition(subs, Priority(x));
    var r := subs[..k] + [x] + subs[k..];
    InsertedAt(subs, x, k);
    forall j | k < j < |r| ensures Priority(r[j]) < Priority(x) {
      assert Priority(subs[j - 1]) <= Priority(subs[k]);
    }
    forall i, j | 0 <= i < j < |r| ensures Priority(r[i]) >= Priority(r[j]) {
      if j < k {
        assert Priority(subs[i]) >= Priority(subs[j]);
      } else if i > k {
        assert Priority(subs[i - 1]) >= Priority(subs[j - 1]);
      }
    }
  }

  /** The list without the subscriptions of `s`, the others in their order. */
  function Without(subs: seq<Subscription>, s: Subscriber): (r: seq<Subscription>)
    ensures |r| <= |subs|
    ensures forall x | x in subs :: x in r <==> x.subscriber != s
    ensures forall x | x in r :: x in subs
  {
    if subs == [] then []
    else (if subs[0].subscriber == s then [] else [subs[0]]) + Without(subs[1..], s)
  }

  lemma {:induction false} WithoutAppend(a: seq<Subscription>, b: seq<Subscription>, s: Subscriber)
    ensures Without(a + b, s) == Without(a, s) + Without(b, s)
  {
    if a == [] {
      assert a + b == b;
    } else {
      assert (a + b)[1..] == a[1..] + b;
      WithoutAppend(a[1..], b, s);
    }
  }

  /** A list holding nothing of `s` is left as it is. */
  lemma {:induction false} WithoutAbsent(subs: seq<Subscription>, s: Subscriber)
    requires forall x | x in subs :: x.subscriber != s
    ensures Without(subs, s) == subs
  {
    if subs != [] {
      WithoutAbsent(subs[1..], s);
    }
  }

  /** Removing entries keeps a sorted list sorted. */
  lemma {:induction false} WithoutSorted(subs: seq<Subscription>, s: Subscriber)
    requires SortedByPriority(subs)
    ensures SortedByPriority(Without(subs, s))
  {
    if subs != [] {
      WithoutSorted(subs[1..], s);
      var rest := Without(subs[1..], s);
      forall y | y in rest ensures Priority(subs[0]) >= Priority(y) {
        var j :| 0 <= j < |subs[1..]| && subs[1..][j] == y;
        assert subs[j + 1] == y;
      }
    }
  }

  /** The poster a delivery can be handed to. */
  datatype Poster = MainThreadPoster | BackgroundPoster | AsyncPoster

  /** How `postToSubscription` delivers: by invoking the handler now, or through a poster. */
  datatype Route = Inline | Enqueue(poster: Poster)

  /**
   * The routing table of `postToSubscription`. `isMainThread` is always true
   * when there is no main thread support, so a main thread poster exists
   * whenever it is needed.
   */
  function RouteOf(mode: ThreadMode, isMainThread: bool, hasMainThreadPoster: bool): (r: Route)
    requires hasMainThreadPoster || isMainThread
    ensures mode == POSTING ==> r == Inline
    ensures mode == MAIN ==> RunsOnMainThread(r, isMainThread)
    ensures mode == MAIN_ORDERED ==> (r == Enqueue(MainThreadPoster) <==> hasMainThreadPoster)
    ensures mode == BACKGROUND ==> !RunsOnMainThread(r, isMainThread)
    ensures mode == ASYNC <==> r == Enqueue(AsyncPoster)
    ensures r == Enqueue(MainThreadPoster) ==> hasMainThreadPoster && !(mode == MAIN && isMainThread)
    ensures r == Enqueue(BackgroundPoster) <==> mode == BACKGROUND && isMainThread
  {
    match mode
    case POSTING => Inline
    case MAIN => if isMainThread then Inline else Enqueue(MainThreadPoster)
    case MAIN_ORDERED => if hasMainThreadPoster then Enqueue(MainThreadPoster) else Inline
    case BACKGROUND => if isMainThread then Enqueue(BackgroundPoster) else Inline
    case ASYNC => Enqueue(AsyncPoster)
  }

  /** Whether a delivery by `route` runs the handler on the main thread. */
  predicate RunsOnMainThread(route: Route, isMainThread: bool) {
    route == Enqueue(MainThreadPoster) || (route == Inline && isMainThread)
  }

  /**
   * With main thread support every thread mode keeps its promise: POSTING
   * runs in the posting thread, MAIN on the main thread, MAIN_ORDERED always
   * through the main thread queue, BACKGROUND never on the main thread, and
   * ASYNC always on a pool thread.
   */
  lemma RouteHonoursThreadMode(mode: ThreadMode, isMainThread: bool)
    ensures var route := RouteOf(mode, isMainThread, true);
      && (mode == POSTING ==> route == Inline)
      && (mode == MAIN ==> RunsOnMainThread(route, isMainThread))
      && (mode == MAIN_ORDERED ==> route == Enqueue(MainThreadPoster))
      && (mode == BACKGROUND ==> !RunsOnMainThread(route, isMainThread))
      && (mode == ASYNC ==> route == Enqueue(AsyncPoster))
  {
  }

  /**
   * Without main thread support MAIN and MAIN_ORDERED handlers run in the
   * posting thread and BACKGROUND handlers always go to the background
   * poster.
   */
  lemma RouteWithoutMainThreadSupport(mode: ThreadMode)
    ensures var route := RouteOf(mode, true, false);
      && (mode == MAIN || mode == MAIN_ORDERED || mode == POSTING <==> route == Inline)
      && (mode == BACKGROUND <==> route == Enqueue(BackgroundPoster))
      && route != Enqueue(MainThreadPoster)
  {
  }

  /** One delivery, as the trace records it. */
  datatype Delivery =
    | Invoked(subscription: Subscription, event: Event)
    | Enqueued(poster: Poster, subscription: Subscription, event: Event)

  function DeliveryFor(route: Route, subscription: Subscription, event: Event): Delivery {
    match route
    case Inline => Invoked(subscription, event)
    case Enqueue(p) => Enqueued(p, subscription, event)
  }

  /**
   * What a handler does when invoked: post an event, cancel the delivery of
   * one, or throw an exception of its own.
   */
  datatype Action = PostEvent(posted: Event) | CancelDelivery(target: Option<Event>) | Throw
}
