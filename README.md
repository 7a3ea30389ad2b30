# EventBus core, modelled in Dafny

This project models the core of greenrobot EventBus, a publish/subscribe
event bus for Java and Android. It covers three parts:

- **Registration.** `register` finds the subscriber methods of the
  subscriber's class, then `subscribe` files each one in the list for its
  event type. The list is ordered by priority, and entries of equal
  priority keep the order they were added in. `unregister` and
  `unsubscribeByEventType` remove the subscriber's entries and mark them
  inactive. Sticky events are replayed to a new sticky subscriber.
- **Posting.**
  - `post` queues events per thread.
  - The outermost `post` drains the queue, first in first out.
  - For every event, `postSingleEvent` looks up the event's class and all
    of its supertypes (`lookupAllEventTypes`, `addInterfaces`) when event
    inheritance is on.
  - It walks each type's subscription list (`postSingleEventForEventType`).
  - It routes every delivery by thread mode (`postToSubscription`).
  - It posts a `NoSubscriberEvent` when nobody received the event.
  - A handler may post more events, cancel the current delivery
    (`cancelEventDelivery`) or throw.
- **Subscriber method lookup.**
  - `SubscriberMethodFinder.findSubscriberMethods` caches, per subscriber
    class, the handler methods found on the class and its superclasses.
  - The methods are found either in generated indexes
    (`findUsingInfo`, `getSubscriberInfo`) or by reflection
    (`findUsingReflection`, `findUsingReflectionInSingleClass`).
  - A `FindState` comes from a small pool. Its `checkAdd` and
    `checkAddWithMethodSignature` reject a method that a subclass
    already overrides.

The Java class hierarchy is a value (`JavaTypes.Hierarchy`). Each class
records its superclass, its interfaces, its declared methods and a depth
that makes walks up the hierarchy terminate. `Class.isAssignableFrom` is
the predicate `JavaTypes.IsAssignableFrom`.

What handlers do when invoked is an input script. Each handler invoked
in place consumes one entry of it, both during a post and when a sticky
event is replayed to it by `register`. An entry is a sequence of actions,
each of which posts an event, cancels a delivery or throws. Deliveries
are recorded in a trace.

The posting loops are proved against pure specifications in the module
`Posting`:

- `Deliver` is one subscription.
- `Pass` is one event type's list.
- `Passes` is all the types of an event.
- `PostOne` adds the `NoSubscriberEvent` fallback.

Each method states its new trace, script and queue as `Advanced` by the
step its specification function computes.

Modules:

- `JavaTypes`: the class hierarchy.
- `Exceptions`: the exceptions thrown.
- `SubscriberMethods`: `SubscriberMethod`.
- `CheckAdd`: the pure specification of `FindState.checkAdd`.
- `FindStates`: `FindState`.
- `Finder`: `SubscriberMethodFinder`.
- `EventTypes`: `lookupAllEventTypes` and `addInterfaces`.
- `Subscriptions`: events, `Subscription`, priority order and thread-mode
  routing.
- `Posting`: the delivery specifications.
- `Bus`: `EventBus` and `PostingThreadState`.

## Model

All paths are under `EventBus/src/org/greenrobot/eventbus/`, written out in full in each row.

| member | source | states |
|---|---|---|
| JavaTypes.AssignableDepth | EventBus/src/org/greenrobot/eventbus/EventBus.java:621-653 | a supertype found by `isAssignableFrom` is a class of the hierarchy and sits strictly higher unless it is the class itself; this is what makes the supertype walks terminate |
| JavaTypes.AssignableAntisymmetric | EventBus/src/org/greenrobot/eventbus/EventBus.java:493-512 | two classes assignable from each other are the same class |
| JavaTypes.AssignableTransitive | EventBus/src/org/greenrobot/eventbus/EventBus.java:256-277 | `isAssignableFrom` is transitive, so a sticky event of a subclass of a subclass is replayed |
| JavaTypes.InterfaceSupertypes | EventBus/src/org/greenrobot/eventbus/EventBus.java:645-653 | every supertype of an interface is an interface, so `addInterfaces` only ever meets interfaces |
| JavaTypes.SeparatorSplit | EventBus/src/org/greenrobot/eventbus/SubscriberMethod.java:65-74 | joining two strings with a separator that the first does not contain can be undone: equal joins have equal parts |
| SubscriberMethods.SubscriberMethod.constructor | EventBus/src/org/greenrobot/eventbus/SubscriberMethod.java:36-42 | stores the method, event type, thread mode, priority and sticky flag; the method string starts unset |
| SubscriberMethods.SubscriberMethod.CheckMethodString | EventBus/src/org/greenrobot/eventbus/SubscriberMethod.java:65-74 | after the call the lazily built method string is set to `class#name(eventType`; once set, it is never rebuilt |
| SubscriberMethods.SubscriberMethod.Equals | EventBus/src/org/greenrobot/eventbus/SubscriberMethod.java:46-62 | true exactly when the other object is a subscriber method with the same method string |
| SubscriberMethods.SameMethodIff | EventBus/src/org/greenrobot/eventbus/SubscriberMethod.java:46-74 | for names without the separators, equal method strings means the same declaring class, method name and event type, in both directions |
| CheckAdd.MethodKeyInjective | EventBus/src/org/greenrobot/eventbus/SubscriberMethodFinder.java:343-350 | the `name>eventType` key identifies the method name and event type |
| CheckAdd.AsWrittenThrowsOnOverriddenPair | EventBus/src/org/greenrobot/eventbus/SubscriberMethodFinder.java:313-341 | with `checkAdd` as written, the subclass methods `A.f(E)` and `A.g(E)` are accepted and `B.f(E)` is rejected, but then `B.g(E)` throws `IllegalStateException` |
| CheckAdd.FixedAcceptsOverriddenPair | EventBus/src/org/greenrobot/eventbus/SubscriberMethodFinder.java:313-341 | with the marker kept, the same four methods give accept, accept, reject, reject and nothing is thrown |
| CheckAdd.SignatureCheckKeepsOtherTypes | EventBus/src/org/greenrobot/eventbus/SubscriberMethodFinder.java:343-350 | `checkAddWithMethodSignature` for one event type leaves the recorded keys of every other event type unchanged |
| CheckAdd.AgreeStep | EventBus/src/org/greenrobot/eventbus/SubscriberMethodFinder.java:313-341 | on one offer where `checkAdd` as written does not throw, the corrected check does not throw either and accepts or rejects the same way; the two states keep the same signature map |
| CheckAdd.DecisionsAsWritten | EventBus/src/org/greenrobot/eventbus/SubscriberMethodFinder.java:313-341 | `checkAdd` as written over a sequence of offers gives one decision per offer unless it throws |
| CheckAdd.DecisionsFixed | EventBus/src/org/greenrobot/eventbus/SubscriberMethodFinder.java:313-341 | the corrected check over a sequence of offers gives one decision per offer unless it throws |
| CheckAdd.DecisionsAgree | EventBus/src/org/greenrobot/eventbus/SubscriberMethodFinder.java:313-341 | from agreeing states, every sequence of offers on which `checkAdd` as written does not throw gets the same decisions from the corrected check |
| CheckAdd.FixedAgreesWhereAsWrittenSucceeds | EventBus/src/org/greenrobot/eventbus/SubscriberMethodFinder.java:313-341 | from the empty maps of a new walk, the correction changes no decision where `checkAdd` as written succeeds; it differs only where the source throws |
| CheckAdd.WalkStart | EventBus/src/org/greenrobot/eventbus/SubscriberMethodFinder.java:292-296 | empty maps and no accepted methods satisfy the walk invariant at the subscriber class |
| CheckAdd.FixedStep | EventBus/src/org/greenrobot/eventbus/SubscriberMethodFinder.java:313-378 | corrected `checkAdd` never throws while the walk goes from subclass to superclass; it accepts a method exactly when no subclass method of the same name and event type was accepted; the walk invariant and the absence of overridden duplicates are kept |
| CheckAdd.FixedStepNew | EventBus/src/org/greenrobot/eventbus/SubscriberMethodFinder.java:316-319 | the first method for an event type is accepted and recorded in the event-type map alone |
| CheckAdd.SingleDecision | EventBus/src/org/greenrobot/eventbus/SubscriberMethodFinder.java:316-329 | the second method for an event type: the map entry becomes the marker, the first method is moved to the signature map, and the new one is accepted exactly when it is not overridden |
| CheckAdd.SingleKeysMarked | EventBus/src/org/greenrobot/eventbus/SubscriberMethodFinder.java:325-341 | after that step, signature keys exist only for event types that hold the marker |
| CheckAdd.SingleRecorded | EventBus/src/org/greenrobot/eventbus/SubscriberMethodFinder.java:325-341 | after that step, every accepted method is still recorded in one of the two maps |
| CheckAdd.SingleKeysFrom | EventBus/src/org/greenrobot/eventbus/SubscriberMethodFinder.java:325-341 | after that step, every signature key comes from an accepted method |
| CheckAdd.MarkedDecision | EventBus/src/org/greenrobot/eventbus/SubscriberMethodFinder.java:343-378 | for an event type that holds the marker, only the signature check decides: accepted exactly when not overridden, and recorded under its key |
| CheckAdd.MarkedKeysMarked | EventBus/src/org/greenrobot/eventbus/SubscriberMethodFinder.java:343-378 | the signature check keeps keys only for marked event types |
| CheckAdd.MarkedRecorded | EventBus/src/org/greenrobot/eventbus/SubscriberMethodFinder.java:343-378 | the signature check keeps every accepted method recorded |
| CheckAdd.MarkedKeysFrom | EventBus/src/org/greenrobot/eventbus/SubscriberMethodFinder.java:343-378 | the signature check adds keys only for accepted methods |
| CheckAdd.AcceptedBelowAppend | EventBus/src/org/greenrobot/eventbus/SubscriberMethodFinder.java:313-341 | a method of the current class keeps every accepted method at or below the current class |
| CheckAdd.NoOverrideDupAppend | EventBus/src/org/greenrobot/eventbus/SubscriberMethodFinder.java:313-341 | adding a method that is not overridden keeps every name and event type pair tied to one declaring class |
| CheckAdd.WalkMoveUp | EventBus/src/org/greenrobot/eventbus/SubscriberMethodFinder.java:381-395 | moving to a superclass keeps the walk invariant |
| FindStates.CandidatesAppend | EventBus/src/org/greenrobot/eventbus/SubscriberMethodFinder.java:313-341 | the candidates of a list with a method appended are the old candidates plus that method |
| FindStates.FindState.constructor | EventBus/src/org/greenrobot/eventbus/SubscriberMethodFinder.java:272-282 | a new find state holds no methods, empty maps and no class |
| FindStates.FindState.InitForSubscriber | EventBus/src/org/greenrobot/eventbus/SubscriberMethodFinder.java:292-296 | sets the subscriber class and the current class, clears the skip flag and the subscriber info |
| FindStates.FindState.Recycle | EventBus/src/org/greenrobot/eventbus/SubscriberMethodFinder.java:299-308 | clears every field |
| FindStates.FindState.CheckAddWithMethodSignature | EventBus/src/org/greenrobot/eventbus/SubscriberMethodFinder.java:343-378 | true exactly when the `name>eventType` key is new or its recorded class is assignable from the current one, that is, a subclass has not already claimed it; keys are never dropped |
| FindStates.FindState.CheckAdd | EventBus/src/org/greenrobot/eventbus/SubscriberMethodFinder.java:313-341 | computes the corrected `checkAdd` on the two maps, both its answer and its new maps |
| FindStates.IsSystemClass | EventBus/src/org/greenrobot/eventbus/SubscriberMethodFinder.java:381-395 | a class is a system class exactly when its name starts with one of the packages `java.`, `javax.`, `android.`, `androidx.` |
| FindStates.FindState.MoveToSuperclass | EventBus/src/org/greenrobot/eventbus/SubscriberMethodFinder.java:381-395 | stops when superclasses are skipped or the superclass is a `java.`, `javax.`, `android.` or `androidx.` class; fails with `NullPointerException` on a root class; otherwise moves to a strictly higher supertype |
| Finder.FirstViolationAfter | EventBus/src/org/greenrobot/eventbus/SubscriberMethodFinder.java:232-262 | the first annotated method with a bad signature is the one the reflection loop stops at under strict verification |
| Finder.FoundGrows | EventBus/src/org/greenrobot/eventbus/SubscriberMethodFinder.java:210-263 | a method found, or overridden by one found, stays so as the list grows |
| Finder.SuperChainSkipsSystemClasses | EventBus/src/org/greenrobot/eventbus/SubscriberMethodFinder.java:381-395 | the walk starts at the subscriber class, climbs one superclass at a time, never enters a system class, and ends at a class whose superclass is absent or a system class |
| Finder.FirstInfoSpec | EventBus/src/org/greenrobot/eventbus/SubscriberMethodFinder.java:173-181 | the index lookup returns the entry of the first index that knows the class, and nothing exactly when no index does |
| Finder.FirstTaken | EventBus/src/org/greenrobot/eventbus/SubscriberMethodFinder.java:145-156 | the first occupied pool slot, with every slot before it empty |
| Finder.FirstFree | EventBus/src/org/greenrobot/eventbus/SubscriberMethodFinder.java:125-140 | the first empty pool slot, with every slot before it occupied |
| Finder.SubscriberMethodFinder.constructor | EventBus/src/org/greenrobot/eventbus/SubscriberMethodFinder.java:48-53 | stores the indexes and flags; the cache is empty and the pool holds four empty slots |
| Finder.SubscriberMethodFinder.PrepareFindState | EventBus/src/org/greenrobot/eventbus/SubscriberMethodFinder.java:145-156 | takes the first pooled find state and empties its slot, or makes a new one when the pool is empty; the state returned is clear and not in the pool |
| Finder.SubscriberMethodFinder.GetMethodsAndRelease | EventBus/src/org/greenrobot/eventbus/SubscriberMethodFinder.java:125-140 | returns the collected methods, clears the state and puts it in the first empty slot, if there is one |
| Finder.SubscriberMethodFinder.GetSubscriberInfo | EventBus/src/org/greenrobot/eventbus/SubscriberMethodFinder.java:161-184 | the previous info's super info when it is for the current class, otherwise the first index's entry, otherwise nothing; the result is always for the current class |
| Finder.SubscriberMethodFinder.KeepIfAccepted | EventBus/src/org/greenrobot/eventbus/SubscriberMethodFinder.java:239-242 | appends the method exactly when no accepted subclass method overrides it |
| Finder.SubscriberMethodFinder.FindUsingReflectionInSingleClass | EventBus/src/org/greenrobot/eventbus/SubscriberMethodFinder.java:210-263 | fails exactly when strict verification is on and some annotated method has a bad signature, with the first such error; otherwise it appends only annotated, public, one-parameter methods of the class, with the annotation's settings, and every such method is added or overridden |
| Finder.SubscriberMethodFinder.FindUsingReflection | EventBus/src/org/greenrobot/eventbus/SubscriberMethodFinder.java:186-205 | on success, every method found is a subscriber method declared on the class or a superclass, each name and event type pair appears once from the lowest class, and every subscriber method of the superclass chain is found or overridden |
| Finder.SubscriberMethodFinder.WalkByReflection | EventBus/src/org/greenrobot/eventbus/SubscriberMethodFinder.java:192-202 | the reflection walk ends having scanned exactly the superclass chain up to the first system class |
| Finder.SubscriberMethodFinder.FindUsingInfo | EventBus/src/org/greenrobot/eventbus/SubscriberMethodFinder.java:86-120 | on success, every method found belongs to the class or a superclass, and each name and event type pair appears once |
| Finder.SubscriberMethodFinder.KeepIndexedMethods | EventBus/src/org/greenrobot/eventbus/SubscriberMethodFinder.java:100-107 | each method of the generated info is appended or is overridden by one already accepted, and only those methods are appended |
| Finder.SubscriberMethodFinder.WalkUsingInfo | EventBus/src/org/greenrobot/eventbus/SubscriberMethodFinder.java:93-117 | the index walk ends having visited exactly the superclass chain up to the first system class |
| Finder.SubscriberMethodFinder.FindSubscriberMethods | EventBus/src/org/greenrobot/eventbus/SubscriberMethodFinder.java:61-84 | a cached class returns its cached list unchanged; otherwise the result is cached exactly when it succeeds, and it succeeds only with a non-empty list; with the index ignored, every subscriber method of the chain is found |
| Finder.SubscriberMethodFinder.ClearCaches | EventBus/src/org/greenrobot/eventbus/SubscriberMethodFinder.java:268-270 | empties the method cache |
| Finder.KeptAfterOffer | EventBus/src/org/greenrobot/eventbus/SubscriberMethodFinder.java:232-251 | offering one more declared method keeps the reflection loop's invariant |
| Finder.CandidatesPrefix | EventBus/src/org/greenrobot/eventbus/SubscriberMethodFinder.java:313-341 | candidates of a prefix are candidates of the whole list |
| Finder.ScannedClass | EventBus/src/org/greenrobot/eventbus/SubscriberMethodFinder.java:192-202 | after scanning one more class, everything found was declared on a visited class and every subscriber method of those classes is found |
| Finder.InfoWalkStep | EventBus/src/org/greenrobot/eventbus/SubscriberMethodFinder.java:93-117 | one step of the index walk keeps its invariant |
| Finder.ReflectionWalkStep | EventBus/src/org/greenrobot/eventbus/SubscriberMethodFinder.java:192-202 | one step of the reflection walk keeps its invariant |
| Finder.OverriddenGrows | EventBus/src/org/greenrobot/eventbus/SubscriberMethodFinder.java:313-341 | a method overridden stays overridden as the accepted list grows |
| EventTypes.AddInterfaces | EventBus/src/org/greenrobot/eventbus/EventBus.java:645-653 | the recursive interface walk computes the depth-first, duplicate-free extension of the list |
| EventTypes.AddInterfacesPrefix | EventBus/src/org/greenrobot/eventbus/EventBus.java:645-653 | `addInterfaces` only appends |
| EventTypes.AddInterfacesCovers | EventBus/src/org/greenrobot/eventbus/EventBus.java:645-653 | every direct interface ends up in the list |
| EventTypes.AddInterfacesClosed | EventBus/src/org/greenrobot/eventbus/EventBus.java:645-653 | everything it adds is an interface whose own interfaces are in the list |
| EventTypes.AddInterfacesNoDup | EventBus/src/org/greenrobot/eventbus/EventBus.java:645-653 | it never adds a duplicate |
| EventTypes.AddInterfacesSound | EventBus/src/org/greenrobot/eventbus/EventBus.java:645-653 | it adds only supertypes of the event class |
| EventTypes.ChainPrefix | EventBus/src/org/greenrobot/eventbus/EventBus.java:627-634 | the superclass loop appends the class first and only appends |
| EventTypes.ChainClosed | EventBus/src/org/greenrobot/eventbus/EventBus.java:627-634 | every class added has its superclass and interfaces in the list |
| EventTypes.ChainNoDup | EventBus/src/org/greenrobot/eventbus/EventBus.java:627-634 | the superclass loop adds no duplicate |
| EventTypes.ChainSound | EventBus/src/org/greenrobot/eventbus/EventBus.java:627-634 | the superclass loop adds only supertypes |
| EventTypes.ClosedHoldsSupertypes | EventBus/src/org/greenrobot/eventbus/EventBus.java:621-640 | a list closed under superclass and interfaces holds every supertype of its members |
| EventTypes.AllEventTypesFirst | EventBus/src/org/greenrobot/eventbus/EventBus.java:621-640 | the event class comes first |
| EventTypes.AllEventTypesNoDup | EventBus/src/org/greenrobot/eventbus/EventBus.java:621-640 | no type is listed twice |
| EventTypes.AllEventTypesExact | EventBus/src/org/greenrobot/eventbus/EventBus.java:621-640 | a type is listed exactly when it is assignable from the event class |
| Subscriptions.Subscription.constructor | EventBus/src/org/greenrobot/eventbus/EventBus.java:216 | a new subscription pairs the subscriber with the method and is active |
| Subscriptions.InsertPosition | EventBus/src/org/greenrobot/eventbus/EventBus.java:236-244 | the first index whose priority is lower than the new one, or the end |
| Subscriptions.InsertedAt | EventBus/src/org/greenrobot/eventbus/EventBus.java:236-244 | where the old entries sit after the insertion |
| Subscriptions.InsertSorted | EventBus/src/org/greenrobot/eventbus/EventBus.java:236-244 | insertion keeps the list sorted by priority, after every entry of equal or higher priority and before every lower one |
| Subscriptions.Without | EventBus/src/org/greenrobot/eventbus/EventBus.java:315-324 | the list less exactly the subscriber's entries |
| Subscriptions.WithoutAppend | EventBus/src/org/greenrobot/eventbus/EventBus.java:315-324 | removal distributes over concatenation |
| Subscriptions.WithoutAbsent | EventBus/src/org/greenrobot/eventbus/EventBus.java:332-347 | removing a subscriber with no entries changes nothing |
| Subscriptions.WithoutSorted | EventBus/src/org/greenrobot/eventbus/EventBus.java:315-324 | removal keeps priority order |
| Subscriptions.RouteOf | EventBus/src/org/greenrobot/eventbus/EventBus.java:573-616 | POSTING runs inline, MAIN on the main thread, MAIN_ORDERED through the main queue exactly when there is one, BACKGROUND never on the main thread and on the background poster exactly when posted from the main thread, and only ASYNC goes to the async poster; the main queue is used only when it exists |
| Subscriptions.RouteHonoursThreadMode | EventBus/src/org/greenrobot/eventbus/EventBus.java:573-616 | with main thread support, POSTING runs inline, MAIN on the main thread, MAIN_ORDERED through the main queue, BACKGROUND never on the main thread, ASYNC on the async poster |
| Subscriptions.RouteWithoutMainThreadSupport | EventBus/src/org/greenrobot/eventbus/EventBus.java:288-300 | without main thread support MAIN, MAIN_ORDERED and POSTING run inline and BACKGROUND goes to the background poster |
| Posting.ScriptSuffix | EventBus/src/org/greenrobot/eventbus/EventBus.java:673-681 | what remains of a well-formed handler script is well formed |
| Posting.CancelRefusal | EventBus/src/org/greenrobot/eventbus/EventBus.java:400-421 | a cancel is allowed exactly when posting, the event is non-null and is the current one, and the current subscriber's mode is POSTING |
| Posting.RunActionsSound | EventBus/src/org/greenrobot/eventbus/EventBus.java:400-421 | a handler only queues events it posts, and it can cancel only in POSTING mode by calling cancel |
| Posting.RunActionsStep | EventBus/src/org/greenrobot/eventbus/EventBus.java:673-681 | a handler's actions run one at a time, and a refused cancel or a throw ends the handler |
| Posting.RunOutside | EventBus/src/org/greenrobot/eventbus/EventBus.java:400-421 | a handler body run outside a post never cancels: it ends without exception exactly when it only posts, and otherwise with the refused cancel or its own failure; it posts only events it names |
| Posting.HandleSubscriberException | EventBus/src/org/greenrobot/eventbus/EventBus.java:683-707 | rethrows exactly when `throwSubscriberException` is set and the event is not a `SubscriberExceptionEvent`, wrapping the cause |
| Posting.ThenAssoc | EventBus/src/org/greenrobot/eventbus/EventBus.java:514-571 | steps of a post compose associatively |
| Posting.AdvancedNone | EventBus/src/org/greenrobot/eventbus/EventBus.java:514-571 | doing nothing is the empty step |
| Posting.AdvancedThen | EventBus/src/org/greenrobot/eventbus/EventBus.java:514-571 | two steps in a row are their composition |
| Posting.AdvancedNoStep | EventBus/src/org/greenrobot/eventbus/EventBus.java:514-571 | appending the empty step changes nothing |
| Posting.AdvancedQueued | EventBus/src/org/greenrobot/eventbus/EventBus.java:530-541 | queueing one more event extends the step's posted events |
| Posting.DeliveriesOf | EventBus/src/org/greenrobot/eventbus/EventBus.java:551-567 | one routed delivery per subscription |
| Posting.Deliver | EventBus/src/org/greenrobot/eventbus/EventBus.java:573-616 | one delivery consumes at most one handler script entry, and none of an empty script |
| Posting.DeliverShape | EventBus/src/org/greenrobot/eventbus/EventBus.java:573-616 | a delivery records one routed entry; it consumes a script entry exactly when it runs inline; only a POSTING handler that called cancel can cancel; every event posted belongs to the hierarchy |
| Posting.Pass | EventBus/src/org/greenrobot/eventbus/EventBus.java:551-567 | one event type's pass consumes no more script than there is |
| Posting.PassStep | EventBus/src/org/greenrobot/eventbus/EventBus.java:551-567 | the pass delivers to the next subscription and stops on cancel or on an error |
| Posting.Passes | EventBus/src/org/greenrobot/eventbus/EventBus.java:521-525 | the passes over all types consume no more script than there is |
| Posting.PassesStep | EventBus/src/org/greenrobot/eventbus/EventBus.java:521-525 | the types are passed in order; a cancel ends only the current type's pass and an error ends the post |
| Posting.PassesSingle | EventBus/src/org/greenrobot/eventbus/EventBus.java:526-529 | without event inheritance the single pass is the pass for the class, and found means its list is non-empty |
| Posting.AdvancedLike | EventBus/src/org/greenrobot/eventbus/EventBus.java:526-529 | steps that agree on deliveries, script and posts advance alike |
| Posting.FoundPrefix | EventBus/src/org/greenrobot/eventbus/EventBus.java:521-525 | `subscriptionFound` after one more type is the old value or'd with that type's list being non-empty |
| Posting.PassInOrder | EventBus/src/org/greenrobot/eventbus/EventBus.java:551-567 | a pass delivers to a prefix of the list, in list order (priority order) |
| Posting.EndsOnlyOnCancelThen | EventBus/src/org/greenrobot/eventbus/EventBus.java:551-567 | a delivery that does not stop, followed by a pass of the rest, reaches every subscription or ends at a POSTING handler that canceled |
| Posting.PassStopsOnlyOnCancel | EventBus/src/org/greenrobot/eventbus/EventBus.java:551-567 | a pass without error reaches every subscription unless it was canceled, and a cancel comes from an inline POSTING handler, the last one reached |
| Posting.PassWithoutCancel | EventBus/src/org/greenrobot/eventbus/EventBus.java:551-567 | handlers that never cancel never end a pass as canceled |
| Posting.PassReachesFirst | EventBus/src/org/greenrobot/eventbus/EventBus.java:551-567 | the highest-priority subscription is always reached |
| Posting.ReachesEveryTypeThen | EventBus/src/org/greenrobot/eventbus/EventBus.java:521-525 | reaching the first type's head and every later type's head reaches every type's head |
| Posting.PassesReachEveryType | EventBus/src/org/greenrobot/eventbus/EventBus.java:521-525 | a cancel in one type's pass does not keep the event from the first subscriber of every other type |
| Posting.PassesNotFound | EventBus/src/org/greenrobot/eventbus/EventBus.java:521-529 | with no subscription for any type, nothing happens |
| Posting.NoSubscriberFallback | EventBus/src/org/greenrobot/eventbus/EventBus.java:530-541 | an event nobody receives posts one `NoSubscriberEvent` when enabled and when the event is not a library event, and nothing else |
| Posting.LibraryEventsNotReported | EventBus/src/org/greenrobot/eventbus/EventBus.java:530-541 | a `NoSubscriberEvent` or `SubscriberExceptionEvent` is never reported as unreceived |
| Posting.PassIdle | EventBus/src/org/greenrobot/eventbus/EventBus.java:551-567 | a pass that runs no handler posts nothing and raises no error |
| Posting.PassesIdle | EventBus/src/org/greenrobot/eventbus/EventBus.java:521-525 | so do the passes over all types |
| Posting.PostOneShrinks | EventBus/src/org/greenrobot/eventbus/EventBus.java:379-381 | posting one event either consumes handler script or queues lighter events, so the drain loop ends in the model |
| Posting.PrefixTrans | EventBus/src/org/greenrobot/eventbus/EventBus.java:379-381 | the drain loop's prefix invariants compose |
| Posting.WeightAppend | EventBus/src/org/greenrobot/eventbus/EventBus.java:379-381 | the weight of a queue adds up over concatenation |
| Bus.NoDupAppend | EventBus/src/org/greenrobot/eventbus/EventBus.java:262-271 | replayed sticky types stay distinct |
| Bus.ReplayedAppend | EventBus/src/org/greenrobot/eventbus/EventBus.java:262-271 | one more replayed sticky event extends the trace by its routed delivery |
| Bus.ReplayedWithinAppend | EventBus/src/org/greenrobot/eventbus/EventBus.java:262-271 | one more replayed sticky event, followed by whatever its handler delivers, adds its delivery at the next position |
| Bus.InsertDistinct | EventBus/src/org/greenrobot/eventbus/EventBus.java:226-244 | inserting a subscription not equal to any present keeps the list free of equal subscriptions |
| Bus.InsertedListOk | EventBus/src/org/greenrobot/eventbus/EventBus.java:226-244 | the inserted list stays sorted, distinct and of one event type |
| Bus.InsertedRecorded | EventBus/src/org/greenrobot/eventbus/EventBus.java:244-253 | every subscription in the map is still listed under its subscriber's types |
| Bus.SubscribeKeepsRegistry | EventBus/src/org/greenrobot/eventbus/EventBus.java:213-253 | `subscribe` keeps both registry maps consistent |
| Bus.WithoutDistinct | EventBus/src/org/greenrobot/eventbus/EventBus.java:315-324 | removal keeps a list free of equal subscriptions |
| Bus.WithoutTwice | EventBus/src/org/greenrobot/eventbus/EventBus.java:310-326 | unsubscribing twice is the same as once |
| Bus.UnsubscribeStep | EventBus/src/org/greenrobot/eventbus/EventBus.java:315-324 | one iteration of the removal loop, whether it removes or skips |
| Bus.RemoveNext | EventBus/src/org/greenrobot/eventbus/EventBus.java:316-323 | one iteration removes the entry exactly when it is the subscriber's and deactivates it, keeping the loop invariant |
| Bus.RemoveSubscriptionsOf | EventBus/src/org/greenrobot/eventbus/EventBus.java:313-325 | the in-place removal loop yields the list less the subscriber's entries, which are all made inactive |
| Bus.UnsubscribeOneMore | EventBus/src/org/greenrobot/eventbus/EventBus.java:338-341 | unsubscribing one more type extends the partial unsubscription |
| Bus.UnsubscribedAll | EventBus/src/org/greenrobot/eventbus/EventBus.java:332-347 | having unsubscribed every type the subscriber had means no list holds it any more and the others are untouched |
| Bus.OwnedInactive | EventBus/src/org/greenrobot/eventbus/EventBus.java:332-347 | every subscription of the subscriber is then inactive |
| Bus.NoneOwned | EventBus/src/org/greenrobot/eventbus/EventBus.java:343-346 | an unregistered subscriber owns no subscription |
| Bus.UnregisterKeepsRegistry | EventBus/src/org/greenrobot/eventbus/EventBus.java:332-347 | `unregister` keeps both registry maps consistent |
| Bus.FindInsertPosition | EventBus/src/org/greenrobot/eventbus/EventBus.java:236-244 | the insertion loop stops at `InsertPosition` |
| Bus.SubscribedStep | EventBus/src/org/greenrobot/eventbus/EventBus.java:205-207 | one more subscribed method extends what `register` has subscribed |
| Bus.InsertedAddsOnly | EventBus/src/org/greenrobot/eventbus/EventBus.java:231-244 | subscribing adds no subscription but the new one |
| Bus.InsertedKeeps | EventBus/src/org/greenrobot/eventbus/EventBus.java:213-253 | subscribing keeps every earlier subscription |
| Bus.PostingThreadState.constructor | EventBus/src/org/greenrobot/eventbus/EventBus.java:712-719 | a fresh thread state: empty queue, not posting, no event, not canceled |
| Bus.EventBus.constructor | EventBus/src/org/greenrobot/eventbus/EventBus.java:124-188 | empty registries and sticky map, the configured flags, a new finder |
| Bus.EventBus.IsMainThread | EventBus/src/org/greenrobot/eventbus/EventBus.java:298-300 | the caller's thread with main thread support; always true without, so MAIN handlers then run inline and BACKGROUND handlers on the background poster |
| Bus.EventBus.IsRegistered | EventBus/src/org/greenrobot/eventbus/EventBus.java:303-305 | true exactly when the subscriber has recorded types |
| Bus.EventBus.ReplaySticky | EventBus/src/org/greenrobot/eventbus/EventBus.java:256-277 | replays to the new subscription, each once and routed by thread mode, only sticky events whose class is assignable to its event type (or the one of that type, without inheritance), and all of them unless a replayed inline handler's exception is rethrown, which ends the replay with it; each delivery lies in the trace in replay order, and a replay handed to a poster extends the trace by exactly those deliveries |
| Bus.EventBus.ReplayEntry | EventBus/src/org/greenrobot/eventbus/EventBus.java:262-276 | one sticky entry is delivered exactly when its type matches, extending the replay |
| Bus.EventBus.CheckPostStickyEventToSubscription | EventBus/src/org/greenrobot/eventbus/EventBus.java:280-286 | records the routed delivery first; a handler handed to a poster or without script changes nothing else; an inline handler runs the next script entry; the call fails only for such a handler when `handleSubscriberException` rethrows, and it does fail then when the body, run outside a post, ends with a refused cancel or its own exception |
| Bus.EventBus.RunReplayedHandler | EventBus/src/org/greenrobot/eventbus/EventBus.java:673-681 | a replayed handler's posts go through `post` and its cancels through `cancelEventDelivery`; outside a post it ends as `RunOutside` says unless one of its own posts throws first |
| Bus.EventBus.Subscribe | EventBus/src/org/greenrobot/eventbus/EventBus.java:213-278 | fails with the registration error exactly when an equal subscription exists, then changing nothing; otherwise inserts the new active subscription in priority order and records the type; a non-sticky method then succeeds with no delivery, a sticky one replays as `ReplaySticky` states, and only a rethrown handler exception can make it fail |
| Bus.EventBus.AddSubscription | EventBus/src/org/greenrobot/eventbus/EventBus.java:231-253 | inserts the subscription and records its type, keeping the registry consistent |
| Bus.EventBus.UnsubscribeByEventType | EventBus/src/org/greenrobot/eventbus/EventBus.java:310-326 | the type's list loses exactly the subscriber's entries, in order, and they are made inactive; an unknown type changes nothing |
| Bus.EventBus.UnsubscribeEach | EventBus/src/org/greenrobot/eventbus/EventBus.java:338-341 | unsubscribes every listed type and deactivates the entries |
| Bus.EventBus.Unregister | EventBus/src/org/greenrobot/eventbus/EventBus.java:332-347 | warns exactly for an unknown subscriber, then changing nothing; afterwards the subscriber is not registered, no list holds it, the other entries keep their order, and all its subscriptions are inactive |
| Bus.EventBus.LookupAllEventTypes | EventBus/src/org/greenrobot/eventbus/EventBus.java:621-640 | returns the event class and all its supertypes, and caches them |
| Bus.EventBus.HasSubscriberForEvent | EventBus/src/org/greenrobot/eventbus/EventBus.java:493-512 | true exactly when some supertype of the class has a non-empty subscription list |
| Bus.EventBus.GetStickyEvent | EventBus/src/org/greenrobot/eventbus/EventBus.java:443-447 | the sticky event of the type, if any |
| Bus.EventBus.RemoveStickyEventOfType | EventBus/src/org/greenrobot/eventbus/EventBus.java:456-460 | removes and returns the sticky event of the type |
| Bus.EventBus.RemoveStickyEvent | EventBus/src/org/greenrobot/eventbus/EventBus.java:467-479 | removes the event exactly when it is the sticky event of its class |
| Bus.EventBus.RemoveAllStickyEvents | EventBus/src/org/greenrobot/eventbus/EventBus.java:486-490 | empties the sticky map |
| Bus.EventBus.Register | EventBus/src/org/greenrobot/eventbus/EventBus.java:198-209 | keeps every earlier subscription and adds only subscriptions and event types of the subscriber, leaving every other subscriber's types as they were; the trace only grows; on success the subscriber is registered with every method the finder cached for its class |
| Bus.EventBus.SubscribeAll | EventBus/src/org/greenrobot/eventbus/EventBus.java:204-208 | subscribes the methods in order with the same frame as `Register`; without sticky methods it delivers nothing; it fails only with a duplicate's registration error or a sticky method's rethrown handler exception |
| Bus.EventBus.SubscribeNext | EventBus/src/org/greenrobot/eventbus/EventBus.java:205-207 | one `subscribe` of the loop adds only a subscription of the subscriber and extends what has been subscribed |
| Bus.EventBus.CancelEventDelivery | EventBus/src/org/greenrobot/eventbus/EventBus.java:400-421 | sets `canceled` exactly when the cancel is allowed, otherwise fails with one of the four errors and changes nothing |
| Bus.EventBus.RunHandler | EventBus/src/org/greenrobot/eventbus/EventBus.java:673-681 | the handler's posts are queued behind the current queue, it cancels as its actions say, and its exception is returned |
| Bus.EventBus.RunAction | EventBus/src/org/greenrobot/eventbus/EventBus.java:673-681 | one handler action, as `RunActionsStep` says |
| Bus.EventBus.InvokeSubscriber | EventBus/src/org/greenrobot/eventbus/EventBus.java:673-707 | an inline delivery advances trace, script and queue by `Deliver` |
| Bus.EventBus.PostToSubscription | EventBus/src/org/greenrobot/eventbus/EventBus.java:573-616 | one delivery advances the state by `Deliver` |
| Bus.EventBus.DeliverInProgress | EventBus/src/org/greenrobot/eventbus/EventBus.java:553-566 | sets and resets the posting state around one delivery, advancing by `Deliver` |
| Bus.EventBus.PostSingleEventForEventType | EventBus/src/org/greenrobot/eventbus/EventBus.java:544-571 | advances by `Pass` over the type's list; returns its error, or whether the list was non-empty |
| Bus.EventBus.DeliverToEach | EventBus/src/org/greenrobot/eventbus/EventBus.java:551-567 | the delivery loop advances by `Pass` |
| Bus.EventBus.DeliverNext | EventBus/src/org/greenrobot/eventbus/EventBus.java:551-567 | one iteration of the delivery loop keeps its invariant and stops exactly on cancel or error |
| Bus.EventBus.PostToEventTypes | EventBus/src/org/greenrobot/eventbus/EventBus.java:519-525 | advances by `Passes` over the types and returns whether any type had a subscription |
| Bus.EventBus.PostToTypeNext | EventBus/src/org/greenrobot/eventbus/EventBus.java:521-525 | one iteration of the type loop keeps its invariant |
| Bus.EventBus.PostToAllEventTypes | EventBus/src/org/greenrobot/eventbus/EventBus.java:514-529 | uses all supertypes with inheritance and the class alone without, advancing by `Passes` |
| Bus.EventBus.PostSingleEvent | EventBus/src/org/greenrobot/eventbus/EventBus.java:514-542 | advances by `PostOne`, which queues the `NoSubscriberEvent` fallback |
| Bus.EventBus.Post | EventBus/src/org/greenrobot/eventbus/EventBus.java:352-388 | a post during a post only queues the event; the outermost post drains the queue in order and resets the posting flags |
| Bus.EventBus.DrainQueue | EventBus/src/org/greenrobot/eventbus/EventBus.java:379-381 | posts queued events first in first out until the queue is empty or an error |
| Bus.EventBus.PostNext | EventBus/src/org/greenrobot/eventbus/EventBus.java:379-381 | removes the head of the queue and posts it: the trace, script and queue advance exactly as `PostOne` gives for that event, from the queue without its head, and the result is `PostOne`'s error; script or queue weight shrinks |
| Bus.EventBus.PostSticky | EventBus/src/org/greenrobot/eventbus/EventBus.java:427-433 | records the event as the sticky event of its class, then posts it |
| Bus.EventBus.InvokePending | EventBus/src/org/greenrobot/eventbus/EventBus.java:661-671 | a queued delivery runs only if the subscription is still active |
| Bus.EventBus.ClearCaches | EventBus/src/org/greenrobot/eventbus/EventBus.java:111-114 | empties the event-type cache and the finder's method cache |

## Left out

- HandlerPoster, the background and async posters and the main thread
  queue are not part of this model. A delivery routed to them is recorded
  in the trace. `InvokePending` models the `active` check of
  `invokeSubscriber(PendingPost)`; the handler a poster invokes is not run.
- EventBusBuilder is not part of this model. Its settings are constructor
  parameters of `EventBus` and `SubscriberMethodFinder`.
- `SubscriberInfo` and its index classes are abstract in the source. They
  are plain values here: a class, its methods and an optional super info.
- Concurrency and `ThreadLocal`: one posting thread is modelled, and
  synchronisation is not modelled.
- Whether the caller runs on the main thread is a parameter.
- Reflection is modelled as a value hierarchy with declared methods. The
  handler's own code is an input script of actions.
- Logging, and the reporting path of `handleSubscriberException`, are
  left out. With `throwSubscriberException` off, a handler's exception is
  swallowed instead of being posted as a `SubscriberExceptionEvent`.
- The `LinkageError` fallback of `findUsingReflectionInSingleClass`, which
  sets `skipSuperClasses`, is left out.
- `METHOD_CACHE` and `FIND_STATE_POOL` are static in the source. Here they
  are fields of one finder. `eventTypesCache` (EventBus.java:50) is static
  too. Here it is a field of one bus.
- Subscription.java and PendingPost.java are not part of this model.
  Subscription equality is taken as the same subscriber and an equal
  subscriber method.
- Subscribers are compared by identity everywhere: a `Subscriber` value
  carries its object identity. The source keys `typesBySubscriber` by
  `equals` and `hashCode` (EventBus.java:248, 304, 335, 343) but compares
  subscribers with `==` in `unsubscribeByEventType` (EventBus.java:318).
  Subscriber classes that override `equals` are not modelled.
- Hash map iteration order is not modelled. In the source, sticky events
  are replayed in the map's entry order. Here that order is any order in
  which each matching entry appears once.
- Event equality is value equality.
- The Java loops are split into methods for the proofs:
  - `DeliverInProgress`, `DeliverNext` and `DeliverToEach` come from
    `postSingleEventForEventType`.
  - `PostToTypeNext`, `PostToEventTypes` and `PostToAllEventTypes` come
    from `postSingleEvent`.
  - `DrainQueue` and `PostNext` come from `post`.
  - `RunHandler` and `RunAction` are the handler's own code.
  - `SubscribeAll` and `SubscribeNext` come from `register`.
  - `ReplayEntry` comes from the sticky part of `subscribe`.
  - `RunReplayedHandler` is the code of a handler that a sticky replay
    invokes in place.
  - `UnsubscribeEach` comes from `unregister`.
  - `RemoveNext` and `RemoveSubscriptionsOf` come from
    `unsubscribeByEventType`.
- The `"Internal error. Abort state was not reset"` check in `post` is
  never reached. The `canceled` flag is false whenever `post` starts a
  delivery, and the model keeps that as an invariant.
- Bus.EventBus.Post: for the outermost post, it states the flag reset, the
  order in which events are dequeued and the growth of the trace. It does
  not state the trace as one function of the queue, because handler
  scripts decide how long the drain runs. What each drained event
  delivers is stated by `PostNext` and `PostSingleEvent`.
- Bus.EventBus.DrainQueue: states the order in which events are dequeued
  and the growth of the trace, not the deliveries themselves (see `Post`).
- Bus.EventBus.DrainQueue: the handler script is finite. A handler invoked
  in place after the script is spent only records its delivery and posts
  nothing, so every drain in the model ends. A drain that Java runs
  forever, such as a POSTING handler of `E` that posts a new `E` on every
  call (EventBus.java:379-381), cannot be expressed.
- Bus.EventBus.PostSticky: states the sticky map update and that the event
  is queued. It does not state the deliveries (see `Post`).
- Finder.SubscriberMethodFinder.FindUsingInfo: does not state that every
  subscriber method of the chain is found. Generated index entries are
  trusted to list the annotated methods.
- Bus.EventBus.Register: on failure it states only that earlier
  subscriptions are kept and that only the subscriber's own entries were
  added. It does not state which methods were subscribed before the
  failing one.
- Bus.EventBus.RunReplayedHandler: when one of the replayed handler's own
  posts throws, it states only that the body ended there with an
  exception. What a drain throws is not stated as a function of the queue
  (see `Post`).
- Bus.EventBus.ReplaySticky: with a handler run in place, it states where
  the replayed deliveries lie in the trace, not what the handler's own
  posts deliver between them (see `Post`).
- Finder.SubscriberMethodFinder.FindSubscriberMethods: it uses the
  corrected `checkAdd` of the Findings table. So it never fails with the
  `IllegalStateException` that `checkAdd` as written throws at
  SubscriberMethodFinder.java:334 for an overridden pair of methods.
- Handler scripts never call `register`. The replay code handles a
  `register` made during a post, but its contracts state the outcome of a
  replayed handler only for a `register` made outside a post.

## Findings

| source | as written | input that shows it | evidently intended | confidence | as-written member | corrected member |
|---|---|---|---|---|---|---|
| EventBus/src/org/greenrobot/eventbus/SubscriberMethodFinder.java:313-341 | when an event type already holds the marker, `anyMethodByEventType.put` overwrites the marker with the new method. A later method for the same event type then re-runs the signature check on that method, which was rejected, and throws `IllegalStateException` | subscriber class `A extends B` with handlers `A.f(E)`, `A.g(E)`, `B.f(E)`, `B.g(E)`, checked in that order | the marker stays in place once two methods share an event type, so every further method goes through the signature check alone, and an overridden method is just skipped; on every sequence of offers where the source does not throw, the correction makes the same decisions (`CheckAdd.FixedAgreesWhereAsWrittenSucceeds`) | not executed | CheckAdd.AsWrittenThrowsOnOverriddenPair | CheckAdd.FixedStep |
