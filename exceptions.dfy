/** The exceptions the dispatcher and the method finder throw, one constructor per cause. */
module Exceptions {
  import opened JavaTypes

  datatype Exception =
    /** `checkAdd` found an inconsistent signature record. */
    | IllegalStateException
    /** `Class.getName()` called on the missing superclass of a root class. */
    | NullPointerException
    /** `findSubscriberMethods`: neither the class nor its superclasses have a subscriber method. */
    | NoSubscriberMethods(subscriberClass: ClassName)
    /** Strict verification: an annotated method without exactly one parameter. */
    | WrongParameterCount(declaringClass: ClassName, name: string, count: nat)
    /** Strict verification: an annotated method that is not public, or is static, abstract, bridge or synthetic. */
    | IllegalSubscriberMethod(declaringClass: ClassName, name: string)
    /** `subscribe`: the subscriber already holds an equal subscription for the event type. */
    | AlreadyRegistered(subscriberClass: ClassName, eventType: ClassName)
    /** `post`: a cancel flag left set by a previous delivery. */
    | AbortStateNotReset
    /** `cancelEventDelivery` called outside of a delivery on the posting thread. */
    | CancelOutsidePosting
    /** `cancelEventDelivery(null)`. */
    | CancelNullEvent
    /** `cancelEventDelivery` with an event other than the one being delivered. */
    | CancelOtherEvent
    /** `cancelEventDelivery` from a subscriber whose thread mode is not POSTING. */
    | CancelFromOtherThreadMode
    /** An exception a handler's own code throws. */
    | HandlerFailure
    /** `handleSubscriberException` with `throwSubscriberException` set: a handler threw `cause`. */
    | InvokingSubscriberFailed(cause: Exception)
}
