/**
 * `EventBus`: the subscription registry, the sticky event store and the
 * posting loop, seen from one posting thread. Handler bodies are an input
 * script (`script`): each handler invoked in place, during a post or by a
 * sticky replay, consumes the next entry and performs its actions; every
 * delivery, in place or handed to a poster, is appended to `trace`.
 */
module Bus {
  import opened Wrappers
  import opened JavaTypes
  import opened Exceptions
  import opened SubscriberMethods
  import opened Finder
  import opened EventTypes
  import opened Subscriptions
  import opened Posting

  /** No two subscriptions of a list are equal. */
  predicate DistinctSubscriptions(subs: seq<Subscription>) {
    forall i, j | 0 <= i < j < |subs| :: !SameSubscription(subs[i], subs[j])
  }

  /**
   * `after` is `before` followed by one delivery to `subscription` by
   * `route` of the sticky event of each type in `order`, in that order.
   */
  ghost predicate Replayed(before: seq<Delivery>, after: seq<Delivery>, route: Route, subscription: Subscription,
                           sticky: map<ClassName, Event>, order: seq<ClassName>)
  {
    && |after| == |before| + |order|
    && after[..|before|] == before
    && forall i | 0 <= i < |order| ::
         order[i] in sticky && after[|before| + i] == DeliveryFor(route, subscription, sticky[order[i]])
  }

  /**
   * Whether a subscription for `eventType` replays the sticky event stored
   * under `c`: a subtype with event inheritance, the type itself without.
   */
  ghost predicate Replays(h: Hierarchy, eventInheritance: bool, sticky: map<ClassName, Event>,
                          eventType: ClassName, c: ClassName)
    requires WellFormed(h)
  {
    c in sticky && c in h &&
      if eventInheritance then IsAssignableFrom(h, eventType, c) else c == eventType
  }

  lemma NoDupAppend(s: seq<ClassName>, c: ClassName)
    requires NoDup(s) && c !in s
    ensures NoDup(s + [c])
  {
  }

  lemma ReplayedAppend(before: seq<Delivery>, after: seq<Delivery>, route: Route, subscription: Subscription,
                       sticky: map<ClassName, Event>, order: seq<ClassName>, c: ClassName)
    requires Replayed(before, after, route, subscription, sticky, order) && c in sticky
    ensures Replayed(before, after + [DeliveryFor(route, subscription, sticky[c])], route, subscription,
                     sticky, order + [c])
  {
    var after' := after + [DeliveryFor(route, subscription, sticky[c])];
    assert after'[..|before|] == after[..|before|];
  }

  /**
   * `after` extends `before` and holds, at the increasing positions `marks`
   * past `before`, one delivery to `subscription` by `route` of the sticky
   * event of each type in `order`, in that order; what the replayed
   * handlers post themselves may lie between them.
   */
  ghost predicate ReplayedWithin(before: seq<Delivery>, after: seq<Delivery>, route: Route, subscription: Subscription,
                                 sticky: map<ClassName, Event>, order: seq<ClassName>, marks: seq<int>)
  {
    && before <= after
    && |marks| == |order|
    && (forall i | 0 <= i < |marks| ::
          && |before| <= marks[i] < |after|
          && order[i] in sticky
          && after[marks[i]] == DeliveryFor(route, subscription, sticky[order[i]]))
    && (forall i, j | 0 <= i < j < |marks| :: marks[i] < marks[j])
  }

  lemma ReplayedWithinAppend(before: seq<Delivery>, after: seq<Delivery>, after': seq<Delivery>, route: Route,
                             subscription: Subscription, sticky: map<ClassName, Event>, order: seq<ClassName>,
                             marks: seq<int>, c: ClassName)
    requires ReplayedWithin(before, after, route, subscription, sticky, order, marks) && c in sticky
    requires after + [DeliveryFor(route, subscription, sticky[c])] <= after'
    ensures ReplayedWithin(before, after', route, subscription, sticky, order + [c], marks + [|after|])
  {
    forall i | 0 <= i < |marks| ensures after'[marks[i]] == after[marks[i]] {
      assert after'[..|after|] == after;
    }
  }

  /** Inserting a subscription equal to none of the list keeps its entries pairwise unequal. */
  lemma InsertDistinct(subs: seq<Subscription>, x: Subscription, k: nat)
    requires DistinctSubscriptions(subs) && k <= |subs|
    requires forall y | y in subs :: !SameSubscription(y, x)
    ensures DistinctSubscriptions(subs[..k] + [x] + subs[k..])
  {
    var r := subs[..k] + [x] + subs[k..];
    forall i, j | 0 <= i < j < |r| ensures !SameSubscription(r[i], r[j]) {
      if i == k {
        assert r[j] in subs;
      } else if j == k {
        assert r[i] in subs;
      } else {
        var i' := if i < k then i else i - 1;
        var j' := if j < k then j else j - 1;
        assert r[i] == subs[i'] && r[j] == subs[j'];
      }
    }
  }

  /**
   * The event type lists cached are those `lookupAllEventTypes` computes,
   * each sticky event is stored under its own class, and the handlers post
   * only events of known classes.
   */
  ghost predicate TypesInv(h: Hierarchy, cache: map<ClassName, seq<ClassName>>, sticky: map<ClassName, Event>,
                           script: seq<seq<Action>>)
  {
    && WellFormed(h)
    && NO_SUBSCRIBER_EVENT in h
    && (forall c | c in cache :: c in h && cache[c] == AllEventTypes(h, c))
    && (forall t | t in sticky :: t in h && ClassOf(sticky[t]) == t)
    && ScriptOk(h, script)
  }

  /**
   * Each list holds subscriptions for its own event type, sorted by
   * priority and pairwise unequal, and each of them is recorded under its
   * subscriber.
   */
  ghost predicate RegistryInv(subscriptionsByEventType: map<ClassName, seq<Subscription>>,
                              typesBySubscriber: map<Subscriber, seq<ClassName>>)
  {
    && (forall t | t in subscriptionsByEventType ::
          && SortedByPriority(subscriptionsByEventType[t])
          && DistinctSubscriptions(subscriptionsByEventType[t])
          && forall x | x in subscriptionsByEventType[t] :: x.subscriberMethod.eventType == t)
    && (forall t, x | t in subscriptionsByEventType && x in subscriptionsByEventType[t] ::
          x.subscriber in typesBySubscriber && t in typesBySubscriber[x.subscriber])
  }

  /** The event types recorded for `s`, empty when there are none. */
  function TypesOf(typesBySubscriber: map<Subscriber, seq<ClassName>>, s: Subscriber): seq<ClassName> {
    if s in typesBySubscriber then typesBySubscriber[s] else []
  }

  /** `subs` with `x` inserted where `subscribe` puts it. */
  function Inserted(subs: seq<Subscription>, x: Subscription): seq<Subscription> {
    var k := InsertPosition(subs, Priority(x));
    subs[..k] + [x] + subs[k..]
  }

  /** The list of `t` with `x` inserted is again sorted, pairwise unequal and of type `t` only. */
  lemma InsertedListOk(subs: seq<Subscription>, x: Subscription, t: ClassName)
    requires SortedByPriority(subs) && DistinctSubscriptions(subs)
    requires forall y | y in subs :: y.subscriberMethod.eventType == t
    requires x.subscriberMethod.eventType == t && forall y | y in subs :: !SameSubscription(y, x)
    ensures var r := Inserted(subs, x);
      && SortedByPriority(r) && DistinctSubscriptions(r)
      && forall y | y in r :: y.subscriberMethod.eventType == t
  {
    var k := InsertPosition(subs, Priority(x));
    InsertSorted(subs, x);
    InsertDistinct(subs, x, k);
    forall y | y in Inserted(subs, x) ensures y.subscriberMethod.eventType == t {
      if y != x {
        assert y in subs[..k] || y in subs[k..];
      }
    }
  }

  /** Every subscription of the new list is recorded under its subscriber with the type `t`. */
  lemma InsertedRecorded(m: map<ClassName, seq<Subscription>>, types: map<Subscriber, seq<ClassName>>,
                         x: Subscription, t: ClassName)
    requires forall t', y | t' in m && y in m[t'] :: y.subscriber in types && t' in types[y.subscriber]
    ensures var m' := m[t := Inserted(ListOf(m, t), x)];
      var types' := types[x.subscriber := TypesOf(types, x.subscriber) + [t]];
      forall t', y | t' in m' && y in m'[t'] :: y.subscriber in types' && t' in types'[y.subscriber]
  {
    var subs := ListOf(m, t);
    var k := InsertPosition(subs, Priority(x));
    var m' := m[t := Inserted(subs, x)];
    var types' := types[x.subscriber := TypesOf(types, x.subscriber) + [t]];
    forall t': ClassName, y: Subscription | t' in m' && y in m'[t'] ensures y.subscriber in types' && t' in types'[y.subscriber] {
      if t' == t && y != x {
        assert y in subs[..k] || y in subs[k..];
        assert t' in m && y in m[t'];
      } else if t' != t {
        assert y in m[t'];
      }
    }
  }

  /** Subscribing a subscription equal to none listed keeps the registry invariant. */
  lemma SubscribeKeepsRegistry(m: map<ClassName, seq<Subscription>>, types: map<Subscriber, seq<ClassName>>,
                               x: Subscription)
    requires RegistryInv(m, types)
    requires forall y | y in ListOf(m, x.subscriberMethod.eventType) :: !SameSubscription(y, x)
    ensures var t := x.subscriberMethod.eventType;
      RegistryInv(m[t := Inserted(ListOf(m, t), x)], types[x.subscriber := TypesOf(types, x.subscriber) + [t]])
  {
    var t := x.subscriberMethod.eventType;
    InsertedListOk(ListOf(m, t), x, t);
    InsertedRecorded(m, types, x, t);
  }

  /** Dropping entries keeps the remaining ones pairwise unequal. */
  lemma {:induction false} WithoutDistinct(subs: seq<Subscription>, s: Subscriber)
    requires DistinctSubscriptions(subs)
    ensures DistinctSubscriptions(Without(subs, s))
  {
    if subs != [] {
      WithoutDistinct(subs[1..], s);
      var rest := Without(subs[1..], s);
      forall y | y in rest ensures !SameSubscription(subs[0], y) {
        var j :| 0 <= j < |subs[1..]| && subs[1..][j] == y;
        assert subs[j + 1] == y;
      }
      if subs[0].subscriber != s {
        var r := [subs[0]] + rest;
        forall i, j | 0 <= i < j < |r| ensures !SameSubscription(r[i], r[j]) {
          if i == 0 {
            assert r[j] in rest;
          } else {
            assert r[i] == rest[i - 1] && r[j] == rest[j - 1];
          }
        }
      }
    }
  }

  /** Removing a subscriber's entries a second time changes nothing. */
  lemma WithoutTwice(subs: seq<Subscription>, s: Subscriber)
    ensures Without(Without(subs, s), s) == Without(subs, s)
  {
    WithoutAbsent(Without(subs, s), s);
  }

  /** One step of the removal loop of `unsubscribeByEventType`, on the list and its original. */
  lemma UnsubscribeStep(subs: seq<Subscription>, original: seq<Subscription>, i: nat, k: nat, s: Subscriber)
    requires i < |subs| && k < |original|
    requires subs[..i] == Without(original[..k], s) && subs[i..] == original[k..]
    ensures subs[i] == original[k]
    ensures forall x | x in original[..k + 1] :: x in original[..k] || x == original[k]
    ensures subs[i].subscriber == s ==>
      var subs' := subs[..i] + subs[i + 1..];
      subs'[..i] == Without(original[..k + 1], s) && subs'[i..] == original[k + 1..]
    ensures subs[i].subscriber != s ==>
      subs[..i + 1] == Without(original[..k + 1], s) && subs[i + 1..] == original[k + 1..]
  {
    assert original[..k + 1] == original[..k] + [original[k]];
    assert subs[i + 1..] == subs[i..][1..];
    WithoutAppend(original[..k], [original[k]], s);
    assert subs[..i + 1] == subs[..i] + [subs[i]];
    var subs' := subs[..i] + subs[i + 1..];
    assert subs'[..i] == subs[..i] && subs'[i..] == subs[i + 1..];
  }

  /**
   * One turn of the removal loop of `unsubscribeByEventType`, at index `i`
   * of the list and `k` of the original: an entry of `subscriber` is
   * marked inactive and dropped, the index and size stepping back with it.
   */
  method RemoveNext(list: seq<Subscription>, subscriber: Subscriber, subscriptions: seq<Subscription>, i: nat,
                    size: nat, ghost k: nat)
    returns (subscriptions': seq<Subscription>, i': nat, size': nat)
    requires i < size == |subscriptions| && k < |list|
    requires subscriptions[..i] == Without(list[..k], subscriber) && subscriptions[i..] == list[k..]
    modifies if list[k].subscriber == subscriber then {list[k]} else {}
    ensures i' <= size' == |subscriptions'| && size' - i' == size - i - 1
    ensures subscriptions'[..i'] == Without(list[..k + 1], subscriber) && subscriptions'[i'..] == list[k + 1..]
    ensures list[k].subscriber == subscriber ==> !list[k].active
  {
    var subscription := subscriptions[i];
    UnsubscribeStep(subscriptions, list, i, k, subscriber);
    var j: int := i;
    subscriptions', size' := subscriptions, size;
    if subscription.subscriber == subscriber {
      subscription.active := false;
      subscriptions' := subscriptions[..i] + subscriptions[i + 1..];
      j := j - 1;
      size' := size' - 1;
    }
    i' := j + 1;
  }

  /**
   * The removal loop of `unsubscribeByEventType` on one list: drops the
   * entries of `subscriber`, marking each inactive, and keeps the others in
   * their order.
   */
  method RemoveSubscriptionsOf(list: seq<Subscription>, subscriber: Subscriber) returns (subscriptions: seq<Subscription>)
    modifies set x | x in list && x.subscriber == subscriber
    ensures subscriptions == Without(list, subscriber)
    ensures forall x | x in list && x.subscriber == subscriber :: !x.active
  {
    subscriptions := list;
    ghost var k := 0;
    var size := |subscriptions|;
    var i := 0;
    while i < size
      invariant 0 <= i <= size == |subscriptions|
      invariant 0 <= k <= |list|
      invariant subscriptions[..i] == Without(list[..k], subscriber)
      invariant subscriptions[i..] == list[k..]
      invariant forall x | x in list[..k] && x.subscriber == subscriber :: !x.active
      decreases size - i
    {
      assert list[..k + 1] == list[..k] + [list[k]];
      subscriptions, i, size := RemoveNext(list, subscriber, subscriptions, i, size, k);
      k := k + 1;
    }
    assert subscriptions[..i] == subscriptions;
    assert list[..k] == list;
  }

  /** The subscriptions of `s` over all lists. */
  function Owned(m: map<ClassName, seq<Subscription>>, s: Subscriber): set<Subscription> {
    set t, x | t in m && x in m[t] && x.subscriber == s :: x
  }

  /** `after` holds the lists of `before`, each without the entries of `s`. */
  ghost predicate Unsubscribed(before: map<ClassName, seq<Subscription>>, after: map<ClassName, seq<Subscription>>,
                               s: Subscriber)
  {
    && after.Keys == before.Keys
    && forall t | t in after :: after[t] == Without(before[t], s)
  }

  /** `after` holds the lists of `before`, those of the types in `done` without the entries of `s`. */
  ghost predicate PartlyUnsubscribed(before: map<ClassName, seq<Subscription>>, after: map<ClassName, seq<Subscription>>,
                                     s: Subscriber, done: seq<ClassName>)
  {
    && after.Keys == before.Keys
    && forall t | t in after :: after[t] == if t in done then Without(before[t], s) else before[t]
  }

  /** One more event type of the loop of `unregister`. */
  lemma UnsubscribeOneMore(before: map<ClassName, seq<Subscription>>, current: map<ClassName, seq<Subscription>>,
                           s: Subscriber, done: seq<ClassName>, t: ClassName)
    requires PartlyUnsubscribed(before, current, s, done)
    ensures forall x | x in ListOf(current, t) && x.subscriber == s :: x in Owned(before, s)
    ensures t !in done ==> ListOf(current, t) == ListOf(before, t)
    ensures PartlyUnsubscribed(before, if t in current then current[t := Without(current[t], s)] else current, s,
                               done + [t])
  {
    if t in current && t in done {
      WithoutTwice(before[t], s);
    }
  }

  /** Once every recorded type is done, every list is without the entries of `s`. */
  lemma UnsubscribedAll(before: map<ClassName, seq<Subscription>>, after: map<ClassName, seq<Subscription>>,
                        s: Subscriber, types: map<Subscriber, seq<ClassName>>)
    requires RegistryInv(before, types) && s in types
    requires PartlyUnsubscribed(before, after, s, types[s])
    ensures Unsubscribed(before, after, s)
  {
    forall t | t in before && t !in types[s] ensures Without(before[t], s) == before[t] {
      WithoutAbsent(before[t], s);
    }
  }

  /**
   * Each subscription of `s` is in the list of one of the types recorded
   * for `s`, so marking the entries of those lists marks all of them.
   */
  lemma OwnedInactive(before: map<ClassName, seq<Subscription>>, types: map<Subscriber, seq<ClassName>>, s: Subscriber,
                      done: seq<ClassName>)
    requires RegistryInv(before, types) && s in types && done == types[s]
    requires forall t, x | t in done && x in ListOf(before, t) && x.subscriber == s :: !x.active
    ensures forall x | x in Owned(before, s) :: !x.active
  {
    forall x | x in Owned(before, s) ensures !x.active {
      var t :| t in before && x in before[t] && x.subscriber == s;
      assert t in done && x in ListOf(before, t);
    }
  }

  /** A subscriber with no recorded types owns no subscription. */
  lemma NoneOwned(m: map<ClassName, seq<Subscription>>, types: map<Subscriber, seq<ClassName>>, s: Subscriber)
    requires RegistryInv(m, types) && s !in types
    ensures Owned(m, s) == {}
  {
  }

  /** Unregistering keeps the registry invariant. */
  lemma UnregisterKeepsRegistry(m: map<ClassName, seq<Subscription>>, types: map<Subscriber, seq<ClassName>>,
                                s: Subscriber, m': map<ClassName, seq<Subscription>>)
    requires RegistryInv(m, types) && Unsubscribed(m, m', s)
    ensures RegistryInv(m', types - {s})
  {
    forall t | t in m' ensures SortedByPriority(m'[t]) && DistinctSubscriptions(m'[t]) {
      WithoutSorted(m[t], s);
      WithoutDistinct(m[t], s);
    }
  }

  /** The insertion loop of `subscribe`: the first index whose priority is below `p`, or the end. */
  method FindInsertPosition(subscriptions: seq<Subscription>, p: int) returns (i: nat)
    ensures i == InsertPosition(subscriptions, p)
  {
    var size := |subscriptions|;
    i := 0;
    while i < size && p <= Priority(subscriptions[i])
      invariant 0 <= i <= size
      invariant forall j | 0 <= j < i :: Priority(subscriptions[j]) >= p
    {
      i := i + 1;
    }
  }

  /** `s` holds a subscription for a method equal to `m`. */
  ghost predicate Subscribed(m: map<ClassName, seq<Subscription>>, s: Subscriber, sm: SubscriberMethod) {
    exists x | x in ListOf(m, sm.eventType) :: x.subscriber == s && SameMethod(x.subscriberMethod, sm)
  }

  /** `s` holds a subscription for a method equal to each of `methods`. */
  ghost predicate AllSubscribed(m: map<ClassName, seq<Subscription>>, s: Subscriber, methods: seq<SubscriberMethod>) {
    forall sm | sm in methods :: Subscribed(m, s, sm)
  }

  /** One turn of the loop of `register`: the methods subscribed so far stay subscribed, and `x` joins them. */
  lemma SubscribedStep(m: map<ClassName, seq<Subscription>>, x: Subscription, methods: seq<SubscriberMethod>, j: nat)
    requires j < |methods| && x.subscriberMethod == methods[j]
    requires AllSubscribed(m, x.subscriber, methods[..j])
    ensures var t := x.subscriberMethod.eventType;
      AllSubscribed(m[t := Inserted(ListOf(m, t), x)], x.subscriber, methods[..j + 1])
  {
    var t := x.subscriberMethod.eventType;
    var m' := m[t := Inserted(ListOf(m, t), x)];
    InsertedKeeps(m, x);
    forall sm | sm in methods[..j + 1] ensures Subscribed(m', x.subscriber, sm) {
      if sm in methods[..j] {
        assert Subscribed(m, x.subscriber, sm);
      } else {
        assert sm == methods[j];
        assert x in ListOf(m', sm.eventType);
      }
    }
  }

  /** Inserting a subscription adds no other one. */
  lemma InsertedAddsOnly(m: map<ClassName, seq<Subscription>>, x: Subscription)
    ensures var t := x.subscriberMethod.eventType;
      var m' := m[t := Inserted(ListOf(m, t), x)];
      forall u, y | y in ListOf(m', u) :: y in ListOf(m, u) || y == x
  {
    var t := x.subscriberMethod.eventType;
    var subs := ListOf(m, t);
    var k := InsertPosition(subs, Priority(x));
    forall y | y in Inserted(subs, x) ensures y in subs || y == x {
      assert Inserted(subs, x) == subs[..k] + [x] + subs[k..];
    }
  }

  /** Inserting a subscription keeps every listed one and adds it. */
  lemma InsertedKeeps(m: map<ClassName, seq<Subscription>>, x: Subscription)
    ensures var t := x.subscriberMethod.eventType;
      var m' := m[t := Inserted(ListOf(m, t), x)];
      && x in m'[t]
      && (forall u, y | u in m && y in m[u] :: y in ListOf(m', u))
      && (forall s, sm | Subscribed(m, s, sm) :: Subscribed(m', s, sm))
  {
    var t := x.subscriberMethod.eventType;
    var subs := ListOf(m, t);
    var k := InsertPosition(subs, Priority(x));
    assert Inserted(subs, x)[k] == x;
    var m' := m[t := Inserted(subs, x)];
    forall y | y in subs ensures y in m'[t] {
      var j :| 0 <= j < |subs| && subs[j] == y;
      if j < k {
        assert Inserted(subs, x)[j] == y;
      } else {
        assert Inserted(subs, x)[j + 1] == y;
      }
    }
    forall s, sm | Subscribed(m, s, sm) ensures Subscribed(m', s, sm) {
      var y :| y in ListOf(m, sm.eventType) && y.subscriber == s && SameMethod(y.subscriberMethod, sm);
      assert y in ListOf(m', sm.eventType);
    }
  }

  /** The per-thread posting state. */
  class PostingThreadState {
    var eventQueue: seq<Event>
    var isPosting: bool
    var isMainThread: bool
    /** The subscription and event of the delivery in progress, if any. */
    var subscription: Subscription?
    var event: Option<Event>
    var canceled: bool
    /** Every event ever queued, and every event taken off the queue, in order. */
    ghost var enqueued: seq<Event>
    ghost var dequeued: seq<Event>

    /**
     * The queue is first-in first-out; the current subscription and event
     * are set together, only while posting, and a cancel is only recorded
     * for a delivery in progress.
     */
    ghost predicate Valid()
      reads this
    {
      && dequeued + eventQueue == enqueued
      && (event.Some? <==> subscription != null)
      && (event.Some? ==> isPosting)
      && (canceled ==> event.Some?)
    }

    constructor ()
      ensures Valid() && eventQueue == [] && !isPosting && !isMainThread && !canceled && event.None?
    {
      eventQueue := [];
      isPosting := false;
      isMainThread := false;
      subscription := null;
      event := None;
      canceled := false;
      enqueued := [];
      dequeued := [];
    }

    /** The thread mode of the current subscription. */
    function CurrentMode(): Option<ThreadMode>
      reads this
    {
      if subscription == null then None else Some(subscription.subscriberMethod.threadMode)
    }
  }

  class EventBus {
    const h: Hierarchy
    const subscriberMethodFinder: SubscriberMethodFinder
    const eventInheritance: bool
    const sendNoSubscriberEvent: bool
    const throwSubscriberException: bool
    /** Whether a `MainThreadSupport`, and with it a main thread poster, exists. */
    const hasMainThreadSupport: bool
    /** The posting state of the thread this model follows. */
    const postingState: PostingThreadState

    var subscriptionsByEventType: map<ClassName, seq<Subscription>>
    var typesBySubscriber: map<Subscriber, seq<ClassName>>
    var stickyEvents: map<ClassName, Event>
    /** `eventTypesCache`: the event types found per event class. */
    var eventTypesCache: map<ClassName, seq<ClassName>>
    /** What the handlers still to be invoked in place do, one entry per handler. */
    var script: seq<seq<Action>>
    /** Every delivery made, in order. */
    var trace: seq<Delivery>

    /** The class-level caches and stores agree with the hierarchy. */
    ghost predicate TypesOk()
      reads this`eventTypesCache, this`stickyEvents, this`script
    {
      TypesInv(h, eventTypesCache, stickyEvents, script)
    }

    ghost predicate RegistryOk()
      reads this`subscriptionsByEventType, this`typesBySubscriber
    {
      RegistryInv(subscriptionsByEventType, typesBySubscriber)
    }

    /** The posting state is consistent and queues only events of known classes. */
    ghost predicate PostingOk()
      reads postingState
    {
      && postingState.Valid()
      && forall e | e in postingState.eventQueue :: EventIn(h, e)
    }

    ghost predicate Valid()
      reads this`eventTypesCache, this`stickyEvents, this`script, this`subscriptionsByEventType,
            this`typesBySubscriber, postingState, subscriberMethodFinder, subscriberMethodFinder.findStatePool,
            subscriberMethodFinder.findStatePool[..]
    {
      && TypesOk()
      && RegistryOk()
      && PostingOk()
      && subscriberMethodFinder.Valid()
      && subscriberMethodFinder.h == h
    }

    constructor (h: Hierarchy, subscriberInfoIndexes: Option<seq<SubscriberInfoIndex>>,
                 strictMethodVerification: bool, ignoreGeneratedIndex: bool, eventInheritance: bool,
                 sendNoSubscriberEvent: bool, throwSubscriberException: bool, hasMainThreadSupport: bool,
                 script: seq<seq<Action>>)
      requires WellFormed(h) && IndexesOk(h, subscriberInfoIndexes) && NO_SUBSCRIBER_EVENT in h
      requires ScriptOk(h, script)
      ensures Valid() && fresh(postingState) && fresh(subscriberMethodFinder)
      ensures subscriptionsByEventType == map[] && typesBySubscriber == map[] && stickyEvents == map[]
      ensures trace == [] && this.script == script && !postingState.isPosting && postingState.eventQueue == []
      ensures this.h == h && this.eventInheritance == eventInheritance
      ensures this.sendNoSubscriberEvent == sendNoSubscriberEvent
      ensures this.throwSubscriberException == throwSubscriberException
      ensures this.hasMainThreadSupport == hasMainThreadSupport
    {
      this.h := h;
      this.eventInheritance := eventInheritance;
      this.sendNoSubscriberEvent := sendNoSubscriberEvent;
      this.throwSubscriberException := throwSubscriberException;
      this.hasMainThreadSupport := hasMainThreadSupport;
      this.script := script;
      subscriberMethodFinder := new SubscriberMethodFinder(subscriberInfoIndexes, strictMethodVerification,
                                                           ignoreGeneratedIndex, h);
      postingState := new PostingThreadState();
      subscriptionsByEventType := map[];
      typesBySubscriber := map[];
      stickyEvents := map[];
      eventTypesCache := map[];
      trace := [];
    }

    /**
     * `isMainThread()`: true without main thread support, so MAIN handlers
     * then run in the posting thread and BACKGROUND handlers on the
     * background poster.
     */
    function IsMainThread(onMainThread: bool): (r: bool)
      ensures hasMainThreadSupport ==> r == onMainThread
      ensures !hasMainThreadSupport ==>
        && r
        && RouteOf(MAIN, r, hasMainThreadSupport) == Inline
        && RouteOf(BACKGROUND, r, hasMainThreadSupport) == Enqueue(BackgroundPoster)
    {
      !hasMainThreadSupport || onMainThread
    }

    /** `isRegistered`. */
    method IsRegistered(subscriber: Subscriber) returns (registered: bool)
      ensures registered <==> subscriber in typesBySubscriber
    {
      registered := subscriber in typesBySubscriber;
    }

    /**
     * The sticky part of `subscribe`: with event inheritance every sticky
     * event whose type is `eventType` or a subtype of it is delivered to the
     * new subscription, in the map's iteration order; without it only the
     * sticky event of exactly `eventType`. A replayed handler that throws
     * with `throwSubscriberException` set ends the replay with the
     * exception. `order` holds the types replayed, and `marks` where their
     * deliveries lie in the trace.
     */
    method ReplaySticky(subscription: Subscription, isMainThread: bool)
      returns (r: Result<(), Exception>, ghost order: seq<ClassName>, ghost marks: seq<int>)
      requires TypesOk() && PostingOk() && (hasMainThreadSupport || isMainThread)
      modifies this`trace, this`script, this`eventTypesCache, postingState
      ensures TypesOk() && PostingOk() && postingState.isPosting == old(postingState.isPosting)
      ensures NoDup(order)
      ensures forall c | c in order :: Replays(h, eventInheritance, stickyEvents, subscription.subscriberMethod.eventType, c)
      ensures r.Success? ==>
        forall c | Replays(h, eventInheritance, stickyEvents, subscription.subscriberMethod.eventType, c) :: c in order
      ensures var route := RouteOf(subscription.subscriberMethod.threadMode, isMainThread, hasMainThreadSupport);
        && ReplayedWithin(old(trace), trace, route, subscription, stickyEvents, order, marks)
        && (route != Inline ==>
              r.Success? && Replayed(old(trace), trace, route, subscription, stickyEvents, order) && script == old(script))
        && (r.Failure? ==>
              && route == Inline && throwSubscriberException && r.error.InvokingSubscriberFailed?
              && order != [] && !IsAssignableFrom(h, SUBSCRIBER_EXCEPTION_EVENT, order[|order| - 1]))
    {
      var eventType := subscription.subscriberMethod.eventType;
      ghost var route := RouteOf(subscription.subscriberMethod.threadMode, isMainThread, hasMainThreadSupport);
      r := Success(());
      order, marks := [], [];
      if eventInheritance {
        var entries := stickyEvents.Keys;
        while entries != {}
          invariant entries <= stickyEvents.Keys
          invariant TypesOk() && PostingOk() && postingState.isPosting == old(postingState.isPosting)
          invariant r.Success?
          invariant NoDup(order) && forall c | c in order :: c !in entries
          invariant forall c :: c in order <==> Replays(h, eventInheritance, stickyEvents, eventType, c) && c !in entries
          invariant ReplayedSince(old(trace), old(script), subscription, isMainThread, order, marks)
          decreases entries
        {
          var candidateEventType :| candidateEventType in entries;
          entries := entries - {candidateEventType};
          ghost var before := order;
          r, order, marks := ReplayEntry(subscription, isMainThread, candidateEventType,
                                         IsAssignableFrom(h, eventType, candidateEventType), order, marks, old(trace),
                                         old(script));
          forall c ensures c in order <==> Replays(h, eventInheritance, stickyEvents, eventType, c) && c !in entries {
            if c != candidateEventType {
              assert c in order <==> c in before;
            }
          }
          if r.Failure? {
            return;
          }
        }
      } else if eventType in stickyEvents {
        r, order, marks := ReplayEntry(subscription, isMainThread, eventType, true, [], [], trace, script);
      }
    }

    /**
     * Since `trace0` and `script0`, the sticky events of `order` have been
     * delivered to `subscription` at `marks`; when its route hands them to a
     * poster, nothing else happened.
     */
    ghost predicate ReplayedSince(trace0: seq<Delivery>, script0: seq<seq<Action>>, subscription: Subscription,
                                  isMainThread: bool, order: seq<ClassName>, marks: seq<int>)
      reads this`trace, this`script, this`stickyEvents
      requires hasMainThreadSupport || isMainThread
    {
      var route := RouteOf(subscription.subscriberMethod.threadMode, isMainThread, hasMainThreadSupport);
      && ReplayedWithin(trace0, trace, route, subscription, stickyEvents, order, marks)
      && (route != Inline ==> Replayed(trace0, trace, route, subscription, stickyEvents, order) && script == script0)
    }

    /**
     * One entry of the sticky replay: the event stored under `candidate` is
     * delivered to `subscription` when its type `matches`, after the
     * deliveries `order` made since `trace0`.
     */
    method ReplayEntry(subscription: Subscription, isMainThread: bool, candidate: ClassName, matches: bool,
                       ghost order: seq<ClassName>, ghost marks: seq<int>, ghost trace0: seq<Delivery>,
                       ghost script0: seq<seq<Action>>)
      returns (r: Result<(), Exception>, ghost order': seq<ClassName>, ghost marks': seq<int>)
      requires TypesOk() && PostingOk() && (hasMainThreadSupport || isMainThread)
      requires candidate in stickyEvents && candidate !in order && NoDup(order)
      requires ReplayedSince(trace0, script0, subscription, isMainThread, order, marks)
      modifies this`trace, this`script, this`eventTypesCache, postingState
      ensures TypesOk() && PostingOk() && postingState.isPosting == old(postingState.isPosting)
      ensures order' == if matches then order + [candidate] else order
      ensures NoDup(order')
      ensures ReplayedSince(trace0, script0, subscription, isMainThread, order', marks')
      ensures var route := RouteOf(subscription.subscriberMethod.threadMode, isMainThread, hasMainThreadSupport);
        && (route != Inline ==> r.Success?)
        && (r.Failure? ==>
              && matches && route == Inline && throwSubscriberException && r.error.InvokingSubscriberFailed?
              && !IsAssignableFrom(h, SUBSCRIBER_EXCEPTION_EVENT, candidate))
    {
      ghost var route := RouteOf(subscription.subscriberMethod.threadMode, isMainThread, hasMainThreadSupport);
      r, order', marks' := Success(()), order, marks;
      if matches {
        NoDupAppend(order, candidate);
        ghost var at := trace;
        r := CheckPostStickyEventToSubscription(subscription, stickyEvents[candidate], isMainThread);
        ReplayedWithinAppend(trace0, at, trace, route, subscription, stickyEvents, order, marks, candidate);
        if route != Inline {
          ReplayedAppend(trace0, at, route, subscription, stickyEvents, order, candidate);
        }
        order', marks' := order + [candidate], marks + [|at|];
      }
    }

    /**
     * `checkPostStickyEventToSubscription`: delivers a stored sticky event
     * by the route its thread mode selects. A handler invoked in place runs
     * the next script entry, with no delivery recorded in the posting state,
     * and an exception it ends with goes to `handleSubscriberException`.
     */
    method CheckPostStickyEventToSubscription(subscription: Subscription, stickyEvent: Event, isMainThread: bool)
      returns (r: Result<(), Exception>)
      requires TypesOk() && PostingOk() && EventIn(h, stickyEvent) && (hasMainThreadSupport || isMainThread)
      modifies this`trace, this`script, this`eventTypesCache, postingState
      ensures TypesOk() && PostingOk() && postingState.isPosting == old(postingState.isPosting)
      ensures var route := RouteOf(subscription.subscriberMethod.threadMode, isMainThread, hasMainThreadSupport);
        var runs := route == Inline && old(script) != [];
        && old(trace) + [DeliveryFor(route, subscription, stickyEvent)] <= trace
        && (!runs ==> r.Success? && trace == old(trace) + [DeliveryFor(route, subscription, stickyEvent)] && script == old(script))
        && (runs && old(postingState.isPosting) ==> trace == old(trace) + [Invoked(subscription, stickyEvent)] && script == old(script)[1..])
        && (r.Failure? ==>
              && runs && r.error.InvokingSubscriberFailed?
              && throwSubscriberException && !IsAssignableFrom(h, SUBSCRIBER_EXCEPTION_EVENT, ClassOf(stickyEvent)))
        && (runs && !old(postingState.isPosting) && RunOutside(old(script)[0]).thrown.Some?
              && throwSubscriberException && !IsAssignableFrom(h, SUBSCRIBER_EXCEPTION_EVENT, ClassOf(stickyEvent)) ==>
              r.Failure?)
    {
      var route := RouteOf(subscription.subscriberMethod.threadMode, isMainThread, hasMainThreadSupport);
      trace := trace + [DeliveryFor(route, subscription, stickyEvent)];
      if route != Inline || script == [] {
        return Success(());
      }
      ghost var delivered := trace;
      var actions := script[0];
      assert forall j | 0 <= j < |actions| && actions[j].PostEvent? :: EventIn(h, actions[j].posted) by {
        assert forall j | 0 <= j < |actions| :: actions[j] == script[0][j];
      }
      ScriptSuffix(h, script, 1);
      script := script[1..];
      var thrown := RunReplayedHandler(actions, isMainThread);
      PrefixTrans(old(trace) + [DeliveryFor(route, subscription, stickyEvent)], delivered, trace);
      if thrown.Some? {
        var rethrown := HandleSubscriberException(h, throwSubscriberException, stickyEvent, thrown.value);
        if rethrown.Some? {
          return Failure(rethrown.value);
        }
      }
      return Success(());
    }

    /**
     * A handler body run in place by `checkPostStickyEventToSubscription`:
     * each post goes through `post` and each cancel through
     * `cancelEventDelivery`, and the first exception, the handler's own or
     * one a post or a refused cancel throws, ends the body. Outside a post
     * the body ends as `RunOutside` says, unless one of its posts throws
     * first.
     */
    method RunReplayedHandler(actions: seq<Action>, isMainThread: bool) returns (thrown: Option<Exception>)
      requires TypesOk() && PostingOk()
      requires forall j | 0 <= j < |actions| && actions[j].PostEvent? :: EventIn(h, actions[j].posted)
      modifies this`trace, this`script, this`eventTypesCache, postingState
      ensures TypesOk() && PostingOk() && postingState.isPosting == old(postingState.isPosting)
      ensures old(trace) <= trace
      ensures old(postingState.isPosting) ==> trace == old(trace) && script == old(script)
      ensures !old(postingState.isPosting) ==>
        thrown == RunOutside(actions).thrown || (thrown.Some? && exists k :: ReachesPost(actions, k))
    {
      for j := 0 to |actions|
        invariant TypesOk() && PostingOk() && postingState.isPosting == old(postingState.isPosting)
        invariant old(trace) <= trace
        invariant old(postingState.isPosting) ==> trace == old(trace) && script == old(script)
        invariant !old(postingState.isPosting) ==>
          && (forall i | 0 <= i < j :: actions[i].PostEvent?)
          && RunOutside(actions[j..]).thrown == RunOutside(actions).thrown
      {
        assert actions[j..][0] == actions[j] && actions[j..][1..] == actions[j + 1..];
        match actions[j] {
          case PostEvent(x) =>
            ghost var before := trace;
            var posted := Post(x, isMainThread);
            PrefixTrans(old(trace), before, trace);
            if posted.Failure? {
              assert ReachesPost(actions, j);
              return Some(posted.error);
            }
          case CancelDelivery(target) =>
            var canceled := CancelEventDelivery(target);
            if canceled.Failure? {
              return Some(canceled.error);
            }
          case Throw =>
            return Some(HandlerFailure);
        }
      }
      return None;
    }

    /**
     * `subscribe`: refuses a subscription equal to one already listed for the
     * event type; otherwise inserts it after every subscription of the same
     * or higher priority, records the event type under the subscriber and,
     * for a sticky handler, replays the matching sticky events, which can
     * end with a replayed handler's exception.
     */
    method Subscribe(subscriber: Subscriber, subscriberMethod: SubscriberMethod, isMainThread: bool)
      returns (r: Result<(), Exception>, ghost subscription: Subscription?, ghost order: seq<ClassName>,
               ghost marks: seq<int>)
      requires TypesOk() && RegistryOk() && PostingOk() && (hasMainThreadSupport || isMainThread)
      modifies this`subscriptionsByEventType, this`typesBySubscriber, this`trace, this`script, this`eventTypesCache,
        postingState
      ensures TypesOk() && RegistryOk() && PostingOk() && postingState.isPosting == old(postingState.isPosting)
      ensures old(trace) <= trace
      ensures var t := subscriberMethod.eventType;
        (exists x | x in ListOf(old(subscriptionsByEventType), t) ::
           x.subscriber == subscriber && SameMethod(x.subscriberMethod, subscriberMethod))
        <==> subscription == null
      ensures subscription == null ==>
        && r == Failure(AlreadyRegistered(subscriber.subscriberClass, subscriberMethod.eventType))
        && subscriptionsByEventType == old(subscriptionsByEventType)
        && typesBySubscriber == old(typesBySubscriber)
        && trace == old(trace) && script == old(script)
      ensures subscription != null ==>
        && fresh(subscription) && subscription.active
        && subscription.subscriber == subscriber && subscription.subscriberMethod == subscriberMethod
        && var t := subscriberMethod.eventType;
        && subscriptionsByEventType ==
             old(subscriptionsByEventType)[t := Inserted(ListOf(old(subscriptionsByEventType), t), subscription)]
        && typesBySubscriber == old(typesBySubscriber)[subscriber := TypesOf(old(typesBySubscriber), subscriber) + [t]]
      ensures subscription != null && !subscriberMethod.sticky ==>
        r.Success? && trace == old(trace) && script == old(script)
      ensures subscription != null && subscriberMethod.sticky ==>
        && NoDup(order)
        && (forall c | c in order :: Replays(h, eventInheritance, stickyEvents, subscriberMethod.eventType, c))
        && (r.Success? ==> forall c | Replays(h, eventInheritance, stickyEvents, subscriberMethod.eventType, c) :: c in order)
        && ReplayedWithin(old(trace), trace, RouteOf(subscriberMethod.threadMode, isMainThread, hasMainThreadSupport),
                          subscription, stickyEvents, order, marks)
      ensures r.Failure? && subscription != null ==>
        subscriberMethod.sticky && throwSubscriberException && r.error.InvokingSubscriberFailed?
    {
      var eventType := subscriberMethod.eventType;
      var newSubscription := new Subscription(subscriber, subscriberMethod);
      order, marks := [], [];
      if eventType in subscriptionsByEventType {
        var subscriptions := subscriptionsByEventType[eventType];
        if exists x | x in subscriptions :: SameSubscription(x, newSubscription) {
          return Failure(AlreadyRegistered(subscriber.subscriberClass, eventType)), null, order, marks;
        }
      }
      AddSubscription(newSubscription);
      subscription := newSubscription;
      r := Success(());
      if subscriberMethod.sticky {
        r, order, marks := ReplaySticky(newSubscription, isMainThread);
      }
    }

    /** The registry updates of `subscribe` for a subscription equal to none listed. */
    method AddSubscription(newSubscription: Subscription)
      requires RegistryOk()
      requires forall y | y in ListOf(subscriptionsByEventType, newSubscription.subscriberMethod.eventType) ::
        !SameSubscription(y, newSubscription)
      modifies this`subscriptionsByEventType, this`typesBySubscriber
      ensures RegistryOk()
      ensures var t := newSubscription.subscriberMethod.eventType;
        && subscriptionsByEventType ==
             old(subscriptionsByEventType)[t := Inserted(ListOf(old(subscriptionsByEventType), t), newSubscription)]
        && typesBySubscriber ==
             old(typesBySubscriber)[newSubscription.subscriber := TypesOf(old(typesBySubscriber), newSubscription.subscriber) + [t]]
    {
      var eventType := newSubscription.subscriberMethod.eventType;
      var subscriber := newSubscription.subscriber;
      var subscriptions := ListOf(subscriptionsByEventType, eventType);
      var i := FindInsertPosition(subscriptions, Priority(newSubscription));
      SubscribeKeepsRegistry(subscriptionsByEventType, typesBySubscriber, newSubscription);
      subscriptionsByEventType := subscriptionsByEventType[eventType := subscriptions[..i] + [newSubscription] + subscriptions[i..]];
      var subscribedEvents := if subscriber in typesBySubscriber then typesBySubscriber[subscriber] else [];
      typesBySubscriber := typesBySubscriber[subscriber := subscribedEvents + [eventType]];
    }

    /**
     * `unsubscribeByEventType`: removes the subscriptions of `subscriber`
     * from the list of `eventType`, marking each inactive, and keeps the
     * others in their order. `typesBySubscriber` is left to the caller.
     */
    method UnsubscribeByEventType(subscriber: Subscriber, eventType: ClassName)
      modifies this`subscriptionsByEventType,
        set x | x in ListOf(subscriptionsByEventType, eventType) && x.subscriber == subscriber
      ensures subscriptionsByEventType ==
        if eventType in old(subscriptionsByEventType)
        then old(subscriptionsByEventType)[eventType := Without(old(subscriptionsByEventType)[eventType], subscriber)]
        else old(subscriptionsByEventType)
      ensures forall x | x in ListOf(old(subscriptionsByEventType), eventType) && x.subscriber == subscriber ::
        !x.active
    {
      if eventType in subscriptionsByEventType {
        var subscriptions := RemoveSubscriptionsOf(subscriptionsByEventType[eventType], subscriber);
        subscriptionsByEventType := subscriptionsByEventType[eventType := subscriptions];
      }
    }

    /**
     * The loop of `unregister`: `unsubscribeByEventType` for each of the
     * event types recorded for `subscriber`, in order.
     */
    method UnsubscribeEach(subscriber: Subscriber, subscribedTypes: seq<ClassName>)
      modifies this`subscriptionsByEventType, Owned(subscriptionsByEventType, subscriber)
      ensures PartlyUnsubscribed(old(subscriptionsByEventType), subscriptionsByEventType, subscriber, subscribedTypes)
      ensures forall t, x | t in subscribedTypes && x in ListOf(old(subscriptionsByEventType), t) && x.subscriber == subscriber ::
        !x.active
    {
      ghost var before := subscriptionsByEventType;
      for j := 0 to |subscribedTypes|
        invariant PartlyUnsubscribed(before, subscriptionsByEventType, subscriber, subscribedTypes[..j])
        invariant forall t, x | t in subscribedTypes[..j] && x in ListOf(before, t) && x.subscriber == subscriber ::
          !x.active
      {
        var eventType := subscribedTypes[j];
        UnsubscribeOneMore(before, subscriptionsByEventType, subscriber, subscribedTypes[..j], eventType);
        UnsubscribeByEventType(subscriber, eventType);
        assert subscribedTypes[..j + 1] == subscribedTypes[..j] + [eventType];
      }
      assert subscribedTypes[..|subscribedTypes|] == subscribedTypes;
    }

    /**
     * `unregister`: removes every subscription of `subscriber`, marking each
     * inactive, and forgets its event types; a subscriber that was never
     * registered only draws a warning (`warned`).
     */
    method Unregister(subscriber: Subscriber) returns (warned: bool)
      requires RegistryOk()
      modifies this`subscriptionsByEventType, this`typesBySubscriber, Owned(subscriptionsByEventType, subscriber)
      ensures RegistryOk()
      ensures warned <==> subscriber !in old(typesBySubscriber)
      ensures warned ==> subscriptionsByEventType == old(subscriptionsByEventType)
      ensures typesBySubscriber == old(typesBySubscriber) - {subscriber}
      ensures Unsubscribed(old(subscriptionsByEventType), subscriptionsByEventType, subscriber)
      ensures forall x | x in Owned(old(subscriptionsByEventType), subscriber) :: !x.active
    {
      ghost var before := subscriptionsByEventType;
      if subscriber !in typesBySubscriber {
        forall t | t in before ensures Without(before[t], subscriber) == before[t] {
          WithoutAbsent(before[t], subscriber);
        }
        NoneOwned(before, typesBySubscriber, subscriber);
        return true;
      }
      var subscribedTypes := typesBySubscriber[subscriber];
      UnsubscribeEach(subscriber, subscribedTypes);
      UnsubscribedAll(before, subscriptionsByEventType, subscriber, typesBySubscriber);
      OwnedInactive(before, typesBySubscriber, subscriber, subscribedTypes);
      UnregisterKeepsRegistry(before, typesBySubscriber, subscriber, subscriptionsByEventType);
      typesBySubscriber := typesBySubscriber - {subscriber};
      return false;
    }

    /**
     * `lookupAllEventTypes`: the cached list for `eventClass`, or the class,
     * its interfaces and those of each superclass in turn, which is then
     * cached.
     */
    method LookupAllEventTypes(eventClass: ClassName) returns (eventTypes: seq<ClassName>)
      requires TypesOk() && eventClass in h
      modifies this`eventTypesCache
      ensures TypesOk()
      ensures eventTypes == AllEventTypes(h, eventClass)
      ensures eventTypesCache == old(eventTypesCache)[eventClass := eventTypes]
    {
      if eventClass in eventTypesCache {
        return eventTypesCache[eventClass];
      }
      eventTypes := [];
      var clazz := Some(eventClass);
      while clazz.Some?
        invariant clazz.Some? ==> clazz.value in h && CollectChain(h, eventTypes, clazz.value) == AllEventTypes(h, eventClass)
        invariant clazz.None? ==> eventTypes == AllEventTypes(h, eventClass)
        invariant eventTypesCache == old(eventTypesCache)
        decreases if clazz.Some? then h[clazz.value].depth + 1 else 0
      {
        var c := clazz.value;
        assert ClassOk(h, c);
        eventTypes := eventTypes + [c];
        eventTypes := AddInterfaces(h, eventTypes, h[c].interfaces, h[c].depth);
        clazz := h[c].superclass;
      }
      eventTypesCache := eventTypesCache[eventClass := eventTypes];
    }

    /**
     * `hasSubscriberForEvent`: whether `eventClass` or one of its supertypes
     * has a non-empty subscription list. The supertypes are consulted
     * whether or not event inheritance is on.
     */
    method HasSubscriberForEvent(eventClass: ClassName) returns (found: bool)
      requires TypesOk() && eventClass in h
      modifies this`eventTypesCache
      ensures TypesOk() && eventTypesCache == old(eventTypesCache)[eventClass := AllEventTypes(h, eventClass)]
      ensures found <==> exists t :: IsAssignableFrom(h, t, eventClass) && ListOf(subscriptionsByEventType, t) != []
    {
      var eventTypes := LookupAllEventTypes(eventClass);
      AllEventTypesExact(h, eventClass);
      var countTypes := |eventTypes|;
      for k := 0 to countTypes
        invariant forall t | t in eventTypes[..k] :: ListOf(subscriptionsByEventType, t) == []
      {
        var clazz := eventTypes[k];
        if clazz in subscriptionsByEventType && subscriptionsByEventType[clazz] != [] {
          assert clazz in eventTypes;
          assert IsAssignableFrom(h, clazz, eventClass) && ListOf(subscriptionsByEventType, clazz) != [];
          return true;
        }
        assert eventTypes[..k + 1] == eventTypes[..k] + [clazz];
      }
      assert eventTypes[..countTypes] == eventTypes;
      return false;
    }

    /** `getStickyEvent`: the sticky event stored for `eventType`, which is of that type. */
    method GetStickyEvent(eventType: ClassName) returns (r: Option<Event>)
      requires TypesOk()
      ensures r.Some? <==> eventType in stickyEvents
      ensures r.Some? ==> r.value == stickyEvents[eventType] && ClassOf(r.value) == eventType
    {
      if eventType in stickyEvents {
        return Some(stickyEvents[eventType]);
      }
      return None;
    }

    /** `removeStickyEvent(Class)`: removes and returns the sticky event stored for `eventType`. */
    method RemoveStickyEventOfType(eventType: ClassName) returns (r: Option<Event>)
      requires TypesOk()
      modifies this`stickyEvents
      ensures TypesOk()
      ensures r.Some? <==> eventType in old(stickyEvents)
      ensures r.Some? ==> r.value == old(stickyEvents)[eventType] && ClassOf(r.value) == eventType
      ensures stickyEvents == old(stickyEvents) - {eventType}
    {
      r := None;
      if eventType in stickyEvents {
        r := Some(stickyEvents[eventType]);
      }
      stickyEvents := stickyEvents - {eventType};
    }

    /**
     * `removeStickyEvent(Object)`: removes the sticky event stored under the
     * class of `event` only when it equals `event`.
     */
    method RemoveStickyEvent(event: Event) returns (removed: bool)
      requires TypesOk()
      modifies this`stickyEvents
      ensures TypesOk()
      ensures removed <==> event in old(stickyEvents).Values
      ensures stickyEvents == if removed then old(stickyEvents) - {ClassOf(event)} else old(stickyEvents)
    {
      var eventType := ClassOf(event);
      var existingEvent := if eventType in stickyEvents then Some(stickyEvents[eventType]) else None;
      if existingEvent == Some(event) {
        stickyEvents := stickyEvents - {eventType};
        return true;
      }
      return false;
    }

    /** `removeAllStickyEvents`. */
    method RemoveAllStickyEvents()
      requires TypesOk()
      modifies this`stickyEvents
      ensures TypesOk() && stickyEvents == map[]
    {
      stickyEvents := map[];
    }

    /**
     * `register`: finds the handler methods of the subscriber's class and
     * subscribes each in turn; the first refusal, or the first exception a
     * replayed sticky handler rethrows, ends the registration. Only
     * subscriptions and event types of `subscriber` are added.
     */
    method Register(subscriber: Subscriber, onMainThread: bool) returns (r: Result<(), Exception>)
      requires Valid() && subscriber.subscriberClass in h
      modifies this`subscriptionsByEventType, this`typesBySubscriber, this`trace, this`script, this`eventTypesCache,
        postingState, subscriberMethodFinder`methodCache, subscriberMethodFinder.findStatePool,
        subscriberMethodFinder.findStatePool[..]
      ensures Valid() && postingState.isPosting == old(postingState.isPosting)
      ensures forall t, x | t in old(subscriptionsByEventType) && x in old(subscriptionsByEventType)[t] ::
        x in ListOf(subscriptionsByEventType, t)
      ensures forall t, x | x in ListOf(subscriptionsByEventType, t) ::
        x in ListOf(old(subscriptionsByEventType), t) || x.subscriber == subscriber
      ensures forall s | s != subscriber :: TypesOf(typesBySubscriber, s) == TypesOf(old(typesBySubscriber), s)
      ensures old(trace) <= trace
      ensures r.Success? ==>
        && subscriber.subscriberClass in subscriberMethodFinder.methodCache
        && subscriber in typesBySubscriber
        && AllSubscribed(subscriptionsByEventType, subscriber, subscriberMethodFinder.methodCache[subscriber.subscriberClass])
    {
      var subscriberMethods := subscriberMethodFinder.FindSubscriberMethods(subscriber.subscriberClass);
      if subscriberMethods.Failure? {
        return Failure(subscriberMethods.error);
      }
      r := SubscribeAll(subscriber, subscriberMethods.value, IsMainThread(onMainThread));
    }

    /**
     * The loop of `register`: subscribes each method in turn, stopping at
     * the first refusal or rethrown handler exception.
     */
    method SubscribeAll(subscriber: Subscriber, methods: seq<SubscriberMethod>, isMainThread: bool)
      returns (r: Result<(), Exception>)
      requires TypesOk() && RegistryOk() && PostingOk() && (hasMainThreadSupport || isMainThread)
      modifies this`subscriptionsByEventType, this`typesBySubscriber, this`trace, this`script, this`eventTypesCache,
        postingState
      ensures TypesOk() && RegistryOk() && PostingOk() && postingState.isPosting == old(postingState.isPosting)
      ensures forall t, x | t in old(subscriptionsByEventType) && x in old(subscriptionsByEventType)[t] ::
        x in ListOf(subscriptionsByEventType, t)
      ensures forall t, x | x in ListOf(subscriptionsByEventType, t) ::
        x in ListOf(old(subscriptionsByEventType), t) || x.subscriber == subscriber
      ensures forall s | s != subscriber :: TypesOf(typesBySubscriber, s) == TypesOf(old(typesBySubscriber), s)
      ensures old(trace) <= trace
      ensures (forall m | m in methods :: !m.sticky) ==> trace == old(trace) && script == old(script)
      ensures r.Success? ==>
        && (methods != [] ==> subscriber in typesBySubscriber)
        && AllSubscribed(subscriptionsByEventType, subscriber, methods)
      ensures r.Failure? ==> exists m | m in methods ::
        || r.error == AlreadyRegistered(subscriber.subscriberClass, m.eventType)
        || (m.sticky && throwSubscriberException && r.error.InvokingSubscriberFailed?)
    {
      r := Success(());
      for j := 0 to |methods|
        invariant TypesOk() && RegistryOk() && PostingOk() && postingState.isPosting == old(postingState.isPosting)
        invariant r.Success?
        invariant forall t, x | t in old(subscriptionsByEventType) && x in old(subscriptionsByEventType)[t] ::
          x in ListOf(subscriptionsByEventType, t)
        invariant forall t, x | x in ListOf(subscriptionsByEventType, t) ::
          x in ListOf(old(subscriptionsByEventType), t) || x.subscriber == subscriber
        invariant forall s | s != subscriber :: TypesOf(typesBySubscriber, s) == TypesOf(old(typesBySubscriber), s)
        invariant old(trace) <= trace
        invariant (forall m | m in methods :: !m.sticky) ==> trace == old(trace) && script == old(script)
        invariant AllSubscribed(subscriptionsByEventType, subscriber, methods[..j])
        invariant j > 0 ==> subscriber in typesBySubscriber
      {
        r := SubscribeNext(subscriber, methods, j, isMainThread);
        if r.Failure? {
          assert methods[j] in methods;
          return;
        }
      }
      assert methods[..|methods|] == methods;
    }

    /**
     * One turn of the loop of `register`: `subscribe` for `methods[j]`,
     * which adds only a subscription of `subscriber`.
     */
    method SubscribeNext(subscriber: Subscriber, methods: seq<SubscriberMethod>, j: nat, isMainThread: bool)
      returns (r: Result<(), Exception>)
      requires j < |methods| && AllSubscribed(subscriptionsByEventType, subscriber, methods[..j])
      requires TypesOk() && RegistryOk() && PostingOk() && (hasMainThreadSupport || isMainThread)
      modifies this`subscriptionsByEventType, this`typesBySubscriber, this`trace, this`script, this`eventTypesCache,
        postingState
      ensures TypesOk() && RegistryOk() && PostingOk() && postingState.isPosting == old(postingState.isPosting)
      ensures forall t, x | t in old(subscriptionsByEventType) && x in old(subscriptionsByEventType)[t] ::
        x in ListOf(subscriptionsByEventType, t)
      ensures forall t, x | x in ListOf(subscriptionsByEventType, t) ::
        x in ListOf(old(subscriptionsByEventType), t) || x.subscriber == subscriber
      ensures forall s | s != subscriber :: TypesOf(typesBySubscriber, s) == TypesOf(old(typesBySubscriber), s)
      ensures old(trace) <= trace
      ensures !methods[j].sticky ==> trace == old(trace) && script == old(script)
      ensures r.Success? ==>
        subscriber in typesBySubscriber && AllSubscribed(subscriptionsByEventType, subscriber, methods[..j + 1])
      ensures r.Failure? ==>
        || r.error == AlreadyRegistered(subscriber.subscriberClass, methods[j].eventType)
        || (methods[j].sticky && throwSubscriberException && r.error.InvokingSubscriberFailed?)
    {
      ghost var before := subscriptionsByEventType;
      ghost var subscription, order, marks;
      r, subscription, order, marks := Subscribe(subscriber, methods[j], isMainThread);
      if subscription != null {
        InsertedKeeps(before, subscription);
        InsertedAddsOnly(before, subscription);
        SubscribedStep(before, subscription, methods, j);
      }
    }

    /** The configuration of the bus, and the thread a post runs on. */
    function EnvOf(isMainThread: bool): Env {
      Env(h, throwSubscriberException, hasMainThreadSupport, isMainThread)
    }

    /** The event types `postSingleEvent` visits for an event of class `eventClass`. */
    ghost function TypesFor(eventClass: ClassName): seq<ClassName>
      requires WellFormed(h) && eventClass in h
    {
      if eventInheritance then AllEventTypes(h, eventClass) else [eventClass]
    }

    /** A delivery may start: a post is in progress and no delivery is. */
    ghost predicate ReadyToDeliver()
      reads this`eventTypesCache, this`stickyEvents, this`script, postingState
    {
      && TypesOk() && PostingOk() && postingState.isPosting
      && postingState.event.None? && !postingState.canceled
      && (hasMainThreadSupport || postingState.isMainThread)
    }

    /**
     * `cancelEventDelivery`: accepted only while posting, for the event being
     * delivered, from a POSTING handler; each refusal is a distinct exception.
     */
    method CancelEventDelivery(target: Option<Event>) returns (r: Result<(), Exception>)
      requires postingState.Valid()
      modifies postingState`canceled
      ensures postingState.Valid()
      ensures var refusal := CancelRefusal(postingState.isPosting, target, postingState.event, postingState.CurrentMode());
        && (r.Failure? <==> refusal.Some?)
        && (r.Failure? ==> r.error == refusal.value && postingState.canceled == old(postingState.canceled))
        && (r.Success? ==> postingState.canceled)
    {
      if !postingState.isPosting {
        return Failure(CancelOutsidePosting);
      } else if target.None? {
        return Failure(CancelNullEvent);
      } else if postingState.event != target {
        return Failure(CancelOtherEvent);
      } else if postingState.subscription.subscriberMethod.threadMode != POSTING {
        return Failure(CancelFromOtherThreadMode);
      }
      postingState.canceled := true;
      return Success(());
    }

    /**
     * A handler body run in place: each post goes through `post`, which only
     * queues while a post is in progress; a refused cancel or the handler's
     * own failure ends the body with that exception.
     */
    method RunHandler(actions: seq<Action>) returns (thrown: Option<Exception>)
      requires TypesOk() && PostingOk() && postingState.isPosting
      requires postingState.event.Some? && !postingState.canceled
      requires forall j | 0 <= j < |actions| && actions[j].PostEvent? :: EventIn(h, actions[j].posted)
      modifies this`trace, this`script, this`eventTypesCache, postingState
      ensures TypesOk() && PostingOk()
      ensures var run := RunActions(actions, old(postingState.event.value), old(postingState.subscription.subscriberMethod.threadMode));
        && postingState.eventQueue == old(postingState.eventQueue) + run.posted
        && postingState.enqueued == old(postingState.enqueued) + run.posted
        && postingState.canceled == run.canceled
        && thrown == run.thrown
      ensures postingState.dequeued == old(postingState.dequeued) && postingState.isPosting
      ensures postingState.isMainThread == old(postingState.isMainThread)
      ensures postingState.event == old(postingState.event) && postingState.subscription == old(postingState.subscription)
      ensures trace == old(trace) && script == old(script) && eventTypesCache == old(eventTypesCache)
      decreases 5
    {
      ghost var current := postingState.event.value;
      ghost var mode := postingState.subscription.subscriberMethod.threadMode;
      ghost var posted: seq<Event> := [];
      ghost var soFar := false;
      ghost var whole := RunActions(actions, current, mode);
      assert After([], false, whole) == whole;
      assert postingState.eventQueue == old(postingState.eventQueue) + posted;
      assert postingState.enqueued == old(postingState.enqueued) + posted;
      var j := 0;
      while j < |actions|
        invariant 0 <= j <= |actions|
        invariant TypesOk() && PostingOk() && postingState.isPosting
        invariant postingState.event == old(postingState.event) && postingState.subscription == old(postingState.subscription)
        invariant postingState.dequeued == old(postingState.dequeued)
        invariant postingState.isMainThread == old(postingState.isMainThread)
        invariant trace == old(trace) && script == old(script) && eventTypesCache == old(eventTypesCache)
        invariant postingState.eventQueue == old(postingState.eventQueue) + posted
        invariant postingState.enqueued == old(postingState.enqueued) + posted
        invariant postingState.canceled == soFar
        invariant After(posted, soFar, RunActions(actions[j..], current, mode)) == whole
      {
        thrown, posted, soFar := RunAction(actions, j, current, mode, old(postingState.eventQueue),
                                           old(postingState.enqueued), posted, soFar, whole);
        if thrown.Some? {
          return;
        }
        assert After(posted, soFar, RunActions(actions[j + 1..], current, mode)) == whole;
        j := j + 1;
      }
      assert posted + [] == posted;
      return None;
    }

    /**
     * One action of a handler body run in place, within the run `whole` of
     * which `posted` and `soFar` are done: a post goes through `post`, which
     * only queues; a cancel goes through `cancelEventDelivery`; a refused
     * cancel or the handler's own failure ends the body.
     */
    method RunAction(actions: seq<Action>, j: nat, ghost current: Event, ghost mode: ThreadMode,
                     ghost queue0: seq<Event>, ghost enqueued0: seq<Event>, ghost posted: seq<Event>,
                     ghost soFar: bool, ghost whole: HandlerRun)
      returns (thrown: Option<Exception>, ghost posted': seq<Event>, ghost soFar': bool)
      requires j < |actions| && (actions[j].PostEvent? ==> EventIn(h, actions[j].posted))
      requires TypesOk() && PostingOk() && postingState.isPosting
      requires postingState.event == Some(current) && postingState.subscription.subscriberMethod.threadMode == mode
      requires postingState.eventQueue == queue0 + posted && postingState.enqueued == enqueued0 + posted
      requires postingState.canceled == soFar
      requires After(posted, soFar, RunActions(actions[j..], current, mode)) == whole
      modifies this`trace, this`script, this`eventTypesCache, postingState
      ensures TypesOk() && PostingOk() && postingState.isPosting
      ensures postingState.event == old(postingState.event) && postingState.subscription == old(postingState.subscription)
      ensures postingState.dequeued == old(postingState.dequeued)
      ensures postingState.isMainThread == old(postingState.isMainThread)
      ensures trace == old(trace) && script == old(script) && eventTypesCache == old(eventTypesCache)
      ensures postingState.eventQueue == queue0 + posted' && postingState.enqueued == enqueued0 + posted'
      ensures postingState.canceled == soFar'
      ensures thrown.Some? ==> whole == HandlerRun(posted', soFar', thrown)
      ensures thrown.None? ==> After(posted', soFar', RunActions(actions[j + 1..], current, mode)) == whole
      decreases 4
    {
      RunActionsStep(actions, j, current, mode, posted, soFar);
      posted', soFar' := posted, soFar;
      match actions[j] {
        case PostEvent(x) =>
          var _ := Post(x, postingState.isMainThread);
          posted' := posted + [x];
          assert queue0 + posted + [x] == queue0 + posted';
          assert enqueued0 + posted + [x] == enqueued0 + posted';
          thrown := None;
        case CancelDelivery(target) =>
          var result := CancelEventDelivery(target);
          if result.Failure? {
            thrown := Some(result.error);
          } else {
            soFar' := true;
            thrown := None;
          }
        case Throw =>
          thrown := Some(HandlerFailure);
      }
    }

    /**
     * `invokeSubscriber` during a post: the handler consumes the next script
     * entry; an exception it throws goes to `handleSubscriberException`,
     * which rethrows it or only reports it.
     */
    method InvokeSubscriber(subscription: Subscription, event: Event) returns (r: Result<(), Exception>)
      requires TypesOk() && PostingOk() && postingState.isPosting && EventIn(h, event)
      requires postingState.event == Some(event) && postingState.subscription == subscription && !postingState.canceled
      requires (hasMainThreadSupport || postingState.isMainThread) && RouteIn(EnvOf(postingState.isMainThread), subscription) == Inline
      modifies this`trace, this`script, this`eventTypesCache, postingState
      ensures TypesOk() && PostingOk()
      ensures postingState.isMainThread == old(postingState.isMainThread)
      ensures var d := Deliver(old(EnvOf(postingState.isMainThread)), subscription, event, old(script));
        Advanced(old(Progress(trace, script, postingState.eventQueue, postingState.enqueued)), Progress(trace, script, postingState.eventQueue, postingState.enqueued), d) && postingState.canceled == d.canceled && r == ResultOf(d.error)
      ensures postingState.dequeued == old(postingState.dequeued) && postingState.isPosting
      ensures postingState.event == old(postingState.event) && postingState.subscription == old(postingState.subscription)
      ensures eventTypesCache == old(eventTypesCache)
      decreases 6
    {
      trace := trace + [Invoked(subscription, event)];
      var actions: seq<Action> := [];
      if script != [] {
        actions := script[0];
        assert forall j | 0 <= j < |actions| && actions[j].PostEvent? :: EventIn(h, actions[j].posted) by {
          assert forall j | 0 <= j < |actions| :: actions[j] == script[0][j];
        }
        ScriptSuffix(h, script, 1);
        script := script[1..];
      }
      var thrown := RunHandler(actions);
      if thrown.Some? {
        var rethrown := HandleSubscriberException(h, throwSubscriberException, event, thrown.value);
        if rethrown.Some? {
          return Failure(rethrown.value);
        }
      }
      return Success(());
    }

    /**
     * `postToSubscription`: the thread-mode switch; a delivery not made in
     * place is handed to the main thread, background or async poster.
     */
    method PostToSubscription(subscription: Subscription, event: Event, isMainThread: bool) returns (r: Result<(), Exception>)
      requires TypesOk() && PostingOk() && postingState.isPosting && EventIn(h, event)
      requires postingState.event == Some(event) && postingState.subscription == subscription && !postingState.canceled
      requires isMainThread == postingState.isMainThread && (hasMainThreadSupport || isMainThread)
      modifies this`trace, this`script, this`eventTypesCache, postingState
      ensures TypesOk() && PostingOk()
      ensures postingState.isMainThread == old(postingState.isMainThread)
      ensures var d := Deliver(old(EnvOf(postingState.isMainThread)), subscription, event, old(script));
        Advanced(old(Progress(trace, script, postingState.eventQueue, postingState.enqueued)), Progress(trace, script, postingState.eventQueue, postingState.enqueued), d) && postingState.canceled == d.canceled && r == ResultOf(d.error)
      ensures postingState.dequeued == old(postingState.dequeued) && postingState.isPosting
      ensures postingState.event == old(postingState.event) && postingState.subscription == old(postingState.subscription)
      ensures eventTypesCache == old(eventTypesCache)
      decreases 7
    {
      match subscription.subscriberMethod.threadMode {
        case POSTING =>
          r := InvokeSubscriber(subscription, event);
        case MAIN =>
          if isMainThread {
            r := InvokeSubscriber(subscription, event);
          } else {
            trace := trace + [Enqueued(MainThreadPoster, subscription, event)];
            r := Success(());
          }
        case MAIN_ORDERED =>
          if hasMainThreadSupport {
            trace := trace + [Enqueued(MainThreadPoster, subscription, event)];
            r := Success(());
          } else {
            r := InvokeSubscriber(subscription, event);
          }
        case BACKGROUND =>
          if isMainThread {
            trace := trace + [Enqueued(BackgroundPoster, subscription, event)];
            r := Success(());
          } else {
            r := InvokeSubscriber(subscription, event);
          }
        case ASYNC =>
          trace := trace + [Enqueued(AsyncPoster, subscription, event)];
          r := Success(());
      }
    }

    /**
     * One turn of the loop of `postSingleEventForEventType`: the delivery in
     * progress is recorded for `cancelEventDelivery`, then cleared however
     * the delivery ends; whether it was canceled.
     */
    method DeliverInProgress(subscription: Subscription, event: Event) returns (r: Result<(), Exception>, aborted: bool)
      requires ReadyToDeliver() && EventIn(h, event)
      modifies this`trace, this`script, this`eventTypesCache, postingState
      ensures ReadyToDeliver()
      ensures postingState.isMainThread == old(postingState.isMainThread)
      ensures var d := Deliver(old(EnvOf(postingState.isMainThread)), subscription, event, old(script));
        Advanced(old(Progress(trace, script, postingState.eventQueue, postingState.enqueued)), Progress(trace, script, postingState.eventQueue, postingState.enqueued), d) && aborted == d.canceled && r == ResultOf(d.error)
      ensures postingState.dequeued == old(postingState.dequeued) && eventTypesCache == old(eventTypesCache)
      decreases 8
    {
      postingState.event := Some(event);
      postingState.subscription := subscription;
      r := PostToSubscription(subscription, event, postingState.isMainThread);
      aborted := postingState.canceled;
      postingState.event := None;
      postingState.subscription := null;
      postingState.canceled := false;
    }

    /**
     * `postSingleEventForEventType`: delivers to the list of `eventClass` in
     * order and stops after a canceled delivery; whether the list was
     * non-empty.
     */
    method PostSingleEventForEventType(event: Event, eventClass: ClassName) returns (r: Result<bool, Exception>)
      requires ReadyToDeliver() && EventIn(h, event)
      modifies this`trace, this`script, this`eventTypesCache, postingState
      ensures ReadyToDeliver()
      ensures postingState.isMainThread == old(postingState.isMainThread)
      ensures var s := Pass(old(EnvOf(postingState.isMainThread)), ListOf(old(subscriptionsByEventType), eventClass), event, old(script));
        && Advanced(old(Progress(trace, script, postingState.eventQueue, postingState.enqueued)), Progress(trace, script, postingState.eventQueue, postingState.enqueued), s)
        && r == if s.error.Some? then Failure(s.error.value) else Success(ListOf(old(subscriptionsByEventType), eventClass) != [])
      ensures postingState.dequeued == old(postingState.dequeued) && eventTypesCache == old(eventTypesCache)
      decreases 11
    {
      var subscriptions := ListOf(subscriptionsByEventType, eventClass);
      if subscriptions != [] {
        var result := DeliverToEach(subscriptions, event);
        if result.Failure? {
          return Failure(result.error);
        }
        return Success(true);
      }
      AdvancedNone(Progress(trace, script, postingState.eventQueue, postingState.enqueued));
      return Success(false);
    }

    /** The delivery loop of `postSingleEventForEventType`: each subscription in turn until one is canceled. */
    method DeliverToEach(subscriptions: seq<Subscription>, event: Event) returns (r: Result<(), Exception>)
      requires ReadyToDeliver() && EventIn(h, event)
      modifies this`trace, this`script, this`eventTypesCache, postingState
      ensures ReadyToDeliver()
      ensures postingState.isMainThread == old(postingState.isMainThread)
      ensures var s := Pass(old(EnvOf(postingState.isMainThread)), subscriptions, event, old(script));
        Advanced(old(Progress(trace, script, postingState.eventQueue, postingState.enqueued)), Progress(trace, script, postingState.eventQueue, postingState.enqueued), s) && r == ResultOf(s.error)
      ensures postingState.dequeued == old(postingState.dequeued) && eventTypesCache == old(eventTypesCache)
      decreases 10
    {
      ghost var start := Progress(trace, script, postingState.eventQueue, postingState.enqueued);
      ghost var env := EnvOf(postingState.isMainThread);
      ghost var whole := Pass(env, subscriptions, event, start.script);
      ghost var acc := NoStep;
      AdvancedNone(start);
      r := Success(());
      var i := 0;
      while i < |subscriptions|
        invariant 0 <= i <= |subscriptions|
        invariant ReadyToDeliver() && EnvOf(postingState.isMainThread) == env
        invariant postingState.dequeued == old(postingState.dequeued) && eventTypesCache == old(eventTypesCache)
        invariant r == Success(())
        invariant Advanced(start, Progress(trace, script, postingState.eventQueue, postingState.enqueued), acc)
        invariant Then(acc, Pass(env, subscriptions[i..], event, script)) == whole
      {
        var stop;
        r, stop, acc := DeliverNext(subscriptions, i, event, env, start, acc, whole);
        if stop {
          break;
        }
        assert Then(acc, Pass(env, subscriptions[i + 1..], event, script)) == whole;
        i := i + 1;
      }
      if i == |subscriptions| {
        assert subscriptions[i..] == [];
        AdvancedNoStep(start, Progress(trace, script, postingState.eventQueue, postingState.enqueued), acc);
      }
    }

    /**
     * One turn of the loop of `postSingleEventForEventType`, within the pass
     * `whole` over `subscriptions` of which `acc` is done: the delivery to
     * `subscriptions[i]` either ends the pass or leaves the rest of it.
     */
    method DeliverNext(subscriptions: seq<Subscription>, i: nat, event: Event, ghost env: Env, ghost start: Progress,
                       ghost acc: Step, ghost whole: Step) returns (r: Result<(), Exception>, stop: bool, ghost next: Step)
      requires ReadyToDeliver() && EventIn(h, event) && i < |subscriptions| && env == EnvOf(postingState.isMainThread)
      requires Advanced(start, Progress(trace, script, postingState.eventQueue, postingState.enqueued), acc)
      requires Then(acc, Pass(env, subscriptions[i..], event, script)) == whole
      modifies this`trace, this`script, this`eventTypesCache, postingState
      ensures ReadyToDeliver() && EnvOf(postingState.isMainThread) == env
      ensures postingState.dequeued == old(postingState.dequeued) && eventTypesCache == old(eventTypesCache)
      ensures Advanced(start, Progress(trace, script, postingState.eventQueue, postingState.enqueued), next)
      ensures stop ==> next == whole && r == ResultOf(whole.error)
      ensures !stop ==> r == Success(()) && Then(next, Pass(env, subscriptions[i + 1..], event, script)) == whole
      decreases 9
    {
      ghost var mid := Progress(trace, script, postingState.eventQueue, postingState.enqueued);
      ghost var d := Deliver(env, subscriptions[i], event, script);
      PassStep(env, subscriptions, i, event, script, acc, whole);
      var aborted;
      r, aborted := DeliverInProgress(subscriptions[i], event);
      AdvancedThen(start, mid, Progress(trace, script, postingState.eventQueue, postingState.enqueued), acc, d);
      next := Then(acc, d);
      stop := r.Failure? || aborted;
    }

    /** The loop of `postSingleEvent` with event inheritance: one pass per type, in order. */
    method PostToEventTypes(event: Event, eventTypes: seq<ClassName>) returns (r: Result<bool, Exception>)
      requires ReadyToDeliver() && EventIn(h, event)
      modifies this`trace, this`script, this`eventTypesCache, postingState
      ensures ReadyToDeliver()
      ensures postingState.isMainThread == old(postingState.isMainThread)
      ensures var s := Passes(old(EnvOf(postingState.isMainThread)), old(subscriptionsByEventType), eventTypes, event, old(script));
        && Advanced(old(Progress(trace, script, postingState.eventQueue, postingState.enqueued)), Progress(trace, script, postingState.eventQueue, postingState.enqueued), s)
        && r == if s.error.Some? then Failure(s.error.value) else Success(Posting.Found(old(subscriptionsByEventType), eventTypes))
      ensures postingState.dequeued == old(postingState.dequeued) && eventTypesCache == old(eventTypesCache)
      decreases 13
    {
      ghost var start := Progress(trace, script, postingState.eventQueue, postingState.enqueued);
      ghost var env := EnvOf(postingState.isMainThread);
      ghost var whole := Passes(env, subscriptionsByEventType, eventTypes, event, start.script);
      ghost var acc := NoStep;
      AdvancedNone(start);
      var subscriptionFound := false;
      var k := 0;
      while k < |eventTypes|
        invariant 0 <= k <= |eventTypes|
        invariant ReadyToDeliver() && EnvOf(postingState.isMainThread) == env
        invariant postingState.dequeued == old(postingState.dequeued) && eventTypesCache == old(eventTypesCache)
        invariant subscriptionFound == Posting.Found(subscriptionsByEventType, eventTypes[..k])
        invariant Advanced(start, Progress(trace, script, postingState.eventQueue, postingState.enqueued), acc)
        invariant Then(acc, Passes(env, subscriptionsByEventType, eventTypes[k..], event, script)) == whole
      {
        r, acc := PostToTypeNext(event, eventTypes, k, env, start, acc, whole);
        if r.Failure? {
          assert acc == whole;
          return;
        }
        subscriptionFound := subscriptionFound || r.value;
        k := k + 1;
        assert Then(acc, Passes(env, subscriptionsByEventType, eventTypes[k..], event, script)) == whole;
      }
      assert eventTypes[k..] == [] && eventTypes[..k] == eventTypes;
      AdvancedNoStep(start, Progress(trace, script, postingState.eventQueue, postingState.enqueued), acc);
      r := Success(subscriptionFound);
    }

    /**
     * One turn of the loop of `postSingleEvent`, within the passes `whole`
     * over `eventTypes` of which `acc` is done: the pass of `eventTypes[k]`
     * either throws, ending them, or leaves the passes over the rest; whether
     * that type had subscriptions.
     */
    method PostToTypeNext(event: Event, eventTypes: seq<ClassName>, k: nat, ghost env: Env, ghost start: Progress,
                          ghost acc: Step, ghost whole: Step) returns (r: Result<bool, Exception>, ghost next: Step)
      requires ReadyToDeliver() && EventIn(h, event) && k < |eventTypes| && env == EnvOf(postingState.isMainThread)
      requires Advanced(start, Progress(trace, script, postingState.eventQueue, postingState.enqueued), acc)
      requires Then(acc, Passes(env, subscriptionsByEventType, eventTypes[k..], event, script)) == whole
      modifies this`trace, this`script, this`eventTypesCache, postingState
      ensures ReadyToDeliver() && EnvOf(postingState.isMainThread) == env
      ensures postingState.dequeued == old(postingState.dequeued) && eventTypesCache == old(eventTypesCache)
      ensures Advanced(start, Progress(trace, script, postingState.eventQueue, postingState.enqueued), next)
      ensures r.Failure? ==> next == whole && whole.error == Some(r.error)
      ensures r.Success? ==>
        && next.error.None? && r.value == (ListOf(subscriptionsByEventType, eventTypes[k]) != [])
        && Then(next, Passes(env, subscriptionsByEventType, eventTypes[k + 1..], event, script)) == whole
        && (Posting.Found(subscriptionsByEventType, eventTypes[..k + 1]) <==> Posting.Found(subscriptionsByEventType, eventTypes[..k]) || r.value)
      decreases 12
    {
      ghost var mid := Progress(trace, script, postingState.eventQueue, postingState.enqueued);
      ghost var p := Pass(env, ListOf(subscriptionsByEventType, eventTypes[k]), event, script);
      PassesStep(env, subscriptionsByEventType, eventTypes, k, event, script, acc, whole);
      r := PostSingleEventForEventType(event, eventTypes[k]);
      FoundPrefix(subscriptionsByEventType, eventTypes, k);
      AdvancedThen(start, mid, Progress(trace, script, postingState.eventQueue, postingState.enqueued), acc, p);
      next := Then(acc, p);
    }

    /**
     * The passes of `postSingleEvent`: over every supertype and interface
     * (`lookupAllEventTypes`) with event inheritance, over the event's own
     * class without; whether any of them had subscriptions.
     */
    method PostToAllEventTypes(event: Event) returns (r: Result<bool, Exception>)
      requires ReadyToDeliver() && EventIn(h, event)
      modifies this`trace, this`script, this`eventTypesCache, postingState
      ensures ReadyToDeliver()
      ensures postingState.isMainThread == old(postingState.isMainThread)
      ensures eventTypesCache == if eventInheritance then old(eventTypesCache)[ClassOf(event) := AllEventTypes(h, ClassOf(event))]
                                 else old(eventTypesCache)
      ensures var types := TypesFor(ClassOf(event));
        var s := Passes(old(EnvOf(postingState.isMainThread)), old(subscriptionsByEventType), types, event, old(script));
        && Advanced(old(Progress(trace, script, postingState.eventQueue, postingState.enqueued)), Progress(trace, script, postingState.eventQueue, postingState.enqueued), s)
        && r == if s.error.Some? then Failure(s.error.value) else Success(Posting.Found(old(subscriptionsByEventType), types))
      ensures postingState.dequeued == old(postingState.dequeued)
      decreases 14
    {
      var eventClass := ClassOf(event);
      if eventInheritance {
        var eventTypes := LookupAllEventTypes(eventClass);
        r := PostToEventTypes(event, eventTypes);
      } else {
        ghost var start := Progress(trace, script, postingState.eventQueue, postingState.enqueued);
        ghost var env := EnvOf(postingState.isMainThread);
        r := PostSingleEventForEventType(event, eventClass);
        PassesSingle(env, subscriptionsByEventType, eventClass, event, start.script);
        AdvancedLike(start, Progress(trace, script, postingState.eventQueue, postingState.enqueued), Pass(env, ListOf(subscriptionsByEventType, eventClass), event, start.script),
                     Passes(env, subscriptionsByEventType, [eventClass], event, start.script));
      }
    }

    /**
     * `postSingleEvent`: the passes over the event types, then the
     * `NoSubscriberEvent` fallback when no type had subscriptions.
     */
    method PostSingleEvent(event: Event) returns (r: Result<(), Exception>)
      requires ReadyToDeliver() && EventIn(h, event)
      modifies this`trace, this`script, this`eventTypesCache, postingState
      ensures ReadyToDeliver()
      ensures postingState.isMainThread == old(postingState.isMainThread)
      ensures eventTypesCache == if eventInheritance then old(eventTypesCache)[ClassOf(event) := AllEventTypes(h, ClassOf(event))]
                                 else old(eventTypesCache)
      ensures var s := PostOne(old(EnvOf(postingState.isMainThread)), old(subscriptionsByEventType), TypesFor(ClassOf(event)), event, old(script),
                               sendNoSubscriberEvent);
        Advanced(old(Progress(trace, script, postingState.eventQueue, postingState.enqueued)), Progress(trace, script, postingState.eventQueue, postingState.enqueued), s) && r == ResultOf(s.error)
      ensures postingState.dequeued == old(postingState.dequeued)
      decreases 15
    {
      ghost var start := Progress(trace, script, postingState.eventQueue, postingState.enqueued);
      ghost var passes := Passes(EnvOf(postingState.isMainThread), subscriptionsByEventType, TypesFor(ClassOf(event)), event, start.script);
      var found := PostToAllEventTypes(event);
      if found.Failure? {
        return Failure(found.error);
      }
      var eventClass := ClassOf(event);
      if !found.value && sendNoSubscriberEvent && eventClass != NO_SUBSCRIBER_EVENT && eventClass != SUBSCRIBER_EXCEPTION_EVENT {
        ghost var mid := Progress(trace, script, postingState.eventQueue, postingState.enqueued);
        var _ := Post(NoSubscriberEvent(event), postingState.isMainThread);
        AdvancedQueued(start, mid, Progress(trace, script, postingState.eventQueue, postingState.enqueued), passes, NoSubscriberEvent(event));
      }
      return Success(());
    }

    /**
     * `post`: queues the event; unless a post is already in progress on this
     * thread, drains the queue and clears the posting flags however the
     * drain ends. The abort-state check of `post` cannot fail: a cancel is
     * only recorded while a delivery is in progress.
     */
    method Post(event: Event, onMainThread: bool) returns (r: Result<(), Exception>)
      requires TypesOk() && PostingOk() && EventIn(h, event)
      modifies this`trace, this`script, this`eventTypesCache, postingState
      ensures TypesOk() && PostingOk()
      ensures old(postingState.isPosting) ==>
        && r.Success?
        && postingState.eventQueue == old(postingState.eventQueue) + [event]
        && postingState.enqueued == old(postingState.enqueued) + [event]
        && postingState.dequeued == old(postingState.dequeued)
        && postingState.isPosting && postingState.isMainThread == old(postingState.isMainThread)
        && postingState.event == old(postingState.event) && postingState.subscription == old(postingState.subscription)
        && postingState.canceled == old(postingState.canceled)
        && trace == old(trace) && script == old(script) && eventTypesCache == old(eventTypesCache)
      ensures !old(postingState.isPosting) ==>
        && !postingState.isPosting && !postingState.isMainThread
        && postingState.event.None? && !postingState.canceled
        && old(postingState.enqueued) + [event] <= postingState.enqueued
        && old(postingState.dequeued) <= postingState.dequeued
        && old(trace) <= trace
        && (r.Success? ==> postingState.eventQueue == [] && postingState.dequeued == postingState.enqueued)
      decreases if postingState.isPosting then 0 else 18
    {
      postingState.eventQueue := postingState.eventQueue + [event];
      postingState.enqueued := postingState.enqueued + [event];
      if postingState.isPosting {
        return Success(());
      }
      postingState.isMainThread := IsMainThread(onMainThread);
      postingState.isPosting := true;
      assert !postingState.canceled;
      r := DrainQueue();
      postingState.isPosting := false;
      postingState.isMainThread := false;
    }

    /**
     * The loop of `post`: takes the events off the queue in order, one
     * `postSingleEvent` each, until the queue is empty or one throws.
     */
    method DrainQueue() returns (r: Result<(), Exception>)
      requires ReadyToDeliver()
      modifies this`trace, this`script, this`eventTypesCache, postingState
      ensures ReadyToDeliver() && postingState.isMainThread == old(postingState.isMainThread)
      ensures old(postingState.enqueued) <= postingState.enqueued
      ensures old(postingState.dequeued) <= postingState.dequeued
      ensures old(trace) <= trace
      ensures r.Success? ==> postingState.eventQueue == []
      decreases 17
    {
      r := Success(());
      while postingState.eventQueue != []
        invariant ReadyToDeliver() && postingState.isMainThread == old(postingState.isMainThread)
        invariant old(postingState.enqueued) <= postingState.enqueued
        invariant old(postingState.dequeued) <= postingState.dequeued
        invariant old(trace) <= trace
        decreases |script|, Weight(postingState.eventQueue)
      {
        ghost var enqueued := postingState.enqueued;
        ghost var dequeued := postingState.dequeued;
        ghost var before := trace;
        r := PostNext();
        PrefixTrans(old(postingState.enqueued), enqueued, postingState.enqueued);
        PrefixTrans(old(postingState.dequeued), dequeued, postingState.dequeued);
        PrefixTrans(old(trace), before, trace);
        if r.Failure? {
          return;
        }
      }
    }

    /**
     * One turn of the loop of `post`: the head of the queue is taken off and
     * posted; the handler script shrinks, or else the queue loses weight.
     */
    method PostNext() returns (r: Result<(), Exception>)
      requires ReadyToDeliver() && postingState.eventQueue != []
      modifies this`trace, this`script, this`eventTypesCache, postingState
      ensures ReadyToDeliver() && postingState.isMainThread == old(postingState.isMainThread)
      ensures old(postingState.enqueued) <= postingState.enqueued
      ensures postingState.dequeued == old(postingState.dequeued) + [old(postingState.eventQueue[0])]
      ensures old(trace) <= trace
      ensures |script| < old(|script|)
        || (script == old(script) && Weight(postingState.eventQueue) < Weight(old(postingState.eventQueue)))
      ensures EventIn(h, old(postingState.eventQueue[0]))
      ensures var e := old(postingState.eventQueue[0]);
        var s := PostOne(old(EnvOf(postingState.isMainThread)), old(subscriptionsByEventType), TypesFor(ClassOf(e)), e, old(script),
                         sendNoSubscriberEvent);
        && Advanced(Progress(old(trace), old(script), old(postingState.eventQueue)[1..], old(postingState.enqueued)),
                    Progress(trace, script, postingState.eventQueue, postingState.enqueued), s)
        && r == ResultOf(s.error)
      decreases 16
    {
      var e := postingState.eventQueue[0];
      ghost var queue := postingState.eventQueue;
      assert e in queue;
      ghost var start := Progress(trace, script, postingState.eventQueue, postingState.enqueued);
      ghost var s := PostOne(EnvOf(postingState.isMainThread), subscriptionsByEventType, TypesFor(ClassOf(e)), e, script, sendNoSubscriberEvent);
      PostOneShrinks(EnvOf(postingState.isMainThread), subscriptionsByEventType, TypesFor(ClassOf(e)), e, script, sendNoSubscriberEvent);
      postingState.eventQueue := postingState.eventQueue[1..];
      postingState.dequeued := postingState.dequeued + [e];
      r := PostSingleEvent(e);
      assert [e] + queue[1..] == queue;
      WeightAppend([e], queue[1..]);
      WeightAppend(queue[1..], s.posted);
    }

    /** `postSticky`: stores the event as the sticky event of its class, then posts it. */
    method PostSticky(event: Event, onMainThread: bool) returns (r: Result<(), Exception>)
      requires TypesOk() && PostingOk() && EventIn(h, event)
      modifies this`stickyEvents, this`trace, this`script, this`eventTypesCache, postingState
      ensures TypesOk() && PostingOk()
      ensures stickyEvents == old(stickyEvents)[ClassOf(event) := event]
      ensures old(postingState.enqueued) + [event] <= postingState.enqueued
    {
      stickyEvents := stickyEvents[ClassOf(event) := event];
      r := Post(event, onMainThread);
    }

    /**
     * The `active` check of `invokeSubscriber(PendingPost)`: a delivery
     * handed to a poster is recorded only if the subscription is still
     * registered. The handler a poster invokes is not run.
     */
    method InvokePending(subscription: Subscription, event: Event)
      modifies this`trace
      ensures trace == old(trace) + if subscription.active then [Invoked(subscription, event)] else []
    {
      if subscription.active {
        trace := trace + [Invoked(subscription, event)];
      }
    }

    /** `clearCaches`: forgets the subscriber methods and event types found so far. */
    method ClearCaches()
      requires Valid()
      modifies this`eventTypesCache, subscriberMethodFinder`methodCache
      ensures Valid()
      ensures eventTypesCache == map[] && subscriberMethodFinder.methodCache == map[]
    {
      subscriberMethodFinder.ClearCaches();
      eventTypesCache := map[];
    }
  }
}
