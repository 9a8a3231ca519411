// The event filter each provider's controller installs: only Components
// whose handler is this provider's name reach the reconciler.
module Predicates {
  /** The object an event carries: a Component with its `Spec.Handler`, or any other kind. */
  datatype Object = ComponentObject(handler: string) | OtherObject

  /** The four event kinds of controller-runtime. */
  datatype Event =
    | CreateEvent(obj: Object)
    | UpdateEvent(objectOld: Object, objectNew: Object)
    | DeleteEvent(obj: Object)
    | GenericEvent(obj: Object)

  /** The closure `isOurComponent` shared by the four event functions. */
  predicate IsOurComponent(handlerName: string, obj: Object)
  {
    obj.ComponentObject? && obj.handler == handlerName
  }

  /**
   * `ComponentHandlerPredicate(handlerName)` applied to an event: an update is
   * judged by its new object, the other events by their only object.
   */
  function ComponentHandlerPredicate(handlerName: string, e: Event): (accept: bool)
  {
    match e
    case CreateEvent(o) => IsOurComponent(handlerName, o)
    case UpdateEvent(_, n) => IsOurComponent(handlerName, n)
    case DeleteEvent(o) => IsOurComponent(handlerName, o)
    case GenericEvent(o) => IsOurComponent(handlerName, o)
  }

  /** An event is accepted iff the object it is judged by is a Component with exactly this handler. */
  lemma PredicateMeaning(handlerName: string, e: Event)
    ensures ComponentHandlerPredicate(handlerName, e) <==>
      var o := if e.UpdateEvent? then e.objectNew else e.obj;
      o.ComponentObject? && o.handler == handlerName
  {
  }

  /** Create, delete and generic events on the same object get the same decision. */
  lemma SameDecisionForEveryKind(handlerName: string, o: Object)
    ensures ComponentHandlerPredicate(handlerName, CreateEvent(o)) == ComponentHandlerPredicate(handlerName, DeleteEvent(o))
    ensures ComponentHandlerPredicate(handlerName, CreateEvent(o)) == ComponentHandlerPredicate(handlerName, GenericEvent(o))
    ensures forall prev :: ComponentHandlerPredicate(handlerName, UpdateEvent(prev, o)) == ComponentHandlerPredicate(handlerName, CreateEvent(o))
  {
  }

  /** A component without a handler is rejected by every named handler, and so is any other kind of object. */
  lemma EmptyHandlerRejected(handlerName: string, e: Event)
    requires handlerName != ""
    requires (if e.UpdateEvent? then e.objectNew else e.obj) in {ComponentObject(""), OtherObject}
    ensures !ComponentHandlerPredicate(handlerName, e)
  {
  }

  /** Predicates built for two different handlers never accept the same event. */
  lemma HandlersIndependent(a: string, b: string, e: Event)
    requires a != b
    ensures !(ComponentHandlerPredicate(a, e) && ComponentHandlerPredicate(b, e))
  {
  }
}
