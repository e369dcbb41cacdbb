/** The index-counting visitor decorators of the older generation. */
module SourceVisitors {
  import opened Hooks

  /** Wraps a type-parameter visitor (the older visitor signature). */
  class TypeParameterVisitorWrapper<P> {
    var i: nat
    const hasAfter: bool
    var calls: seq<Hook<P, TypeParameterVisit<P>>>
    ghost var forwarded: seq<Forward<P, TypeParameterVisit<P>>>

    ghost predicate Valid()
      reads this
    {
      i == |forwarded| && calls == TraceOf(0, hasAfter, forwarded)
    }

    constructor(hasAfter: bool)
      ensures Valid() && this.hasAfter == hasAfter
      ensures i == 0 && calls == [] && forwarded == []
    {
      i := 0;
      this.hasAfter := hasAfter;
      calls := [];
      forwarded := [];
    }

    /** Class, property, function and alias type-parameter visits. */
    method Visit(v: TypeParameterVisit<P>)
      requires Valid()
      modifies this
      ensures Valid()
      ensures i == old(i) + 1
      ensures forwarded == old(forwarded) + [Forward(v.parameter, v, v.parameter)]
      ensures calls == old(calls) + ForwardTrace(old(i), hasAfter, Forward(v.parameter, v, v.parameter))
    {
      calls := calls + [Before(i, v.parameter)];
      calls := calls + [Delegate(v)];
      if hasAfter {
        calls := calls + [After(i, v.parameter)];
      }
      i := i + 1;
      forwarded := forwarded + [Forward(v.parameter, v, v.parameter)];
      assert forwarded[..|forwarded| - 1] == old(forwarded);
    }

    /** `visitAnyTypeParameter` does nothing. */
    method VisitAnyTypeParameter(p: P)
      requires Valid()
      ensures Valid()
    {
    }
  }

  /** The annotation visits the annotation wrapper forwards: the annotation
    * accepts the wrapped visitor together with what it annotates. */
  datatype AnnotationVisit<A> =
    | TypeAnnotation(annotation: A)
    | TypeParameterAnnotation(annotation: A)
    | TypeAliasAnnotation(annotation: A)

  /** What happened to the annotation wrapper: a bare `visitAnyAnnotation`
    * or a forwarded, typed visit. */
  datatype AnnotationEvent<A> =
    | AnyAnnotation(annotation: A)
    | Typed(visit: AnnotationVisit<A>)

  /** The number of typed visits among the events. */
  function TypedCount<A>(events: seq<AnnotationEvent<A>>): (r: nat)
    ensures r <= |events|
  {
    if events == [] then 0
    else TypedCount(events[..|events| - 1]) + (if events[|events| - 1].Typed? then 1 else 0)
  }

  /** The calls the annotation wrapper makes for a run of events: a bare
    * visit runs only `before`, with the number of typed visits so far. */
  function EventTrace<A>(hasAfter: bool, events: seq<AnnotationEvent<A>>): seq<Hook<A, AnnotationVisit<A>>>
  {
    if events == [] then []
    else
      var init := events[..|events| - 1];
      EventTrace(hasAfter, init) + EventCalls(TypedCount(init), hasAfter, events[|events| - 1])
  }

  /** The calls one event makes when the index is `i`. */
  function EventCalls<A>(i: nat, hasAfter: bool, e: AnnotationEvent<A>): seq<Hook<A, AnnotationVisit<A>>>
  {
    match e
    case AnyAnnotation(a) => [Before(i, a)]
    case Typed(v) => ForwardTrace(i, hasAfter, Forward(v.annotation, v, v.annotation))
  }

  /** One more event extends the trace by that event's calls. */
  lemma EventTraceSnoc<A>(hasAfter: bool, events: seq<AnnotationEvent<A>>, e: AnnotationEvent<A>)
    ensures TypedCount(events + [e]) == TypedCount(events) + (if e.Typed? then 1 else 0)
    ensures EventTrace(hasAfter, events + [e]) == EventTrace(hasAfter, events) + EventCalls(TypedCount(events), hasAfter, e)
  {
    assert (events + [e])[..|events|] == events;
  }

  /** Over any mix of events, the `after` hook sees 0, 1, ... once per typed
    * visit (or never, without a hook), and the wrapped visitor receives
    * exactly the typed visits. Bare visits leave no trace beyond `before`. */
  lemma {:induction false} EventTraceIndices<A>(hasAfter: bool, events: seq<AnnotationEvent<A>>)
    ensures AfterIndices(EventTrace(hasAfter, events)) == (if hasAfter then Range(0, TypedCount(events)) else [])
    ensures |Delegated(EventTrace(hasAfter, events))| == TypedCount(events)
  {
    if events != [] {
      var init := events[..|events| - 1];
      EventTraceIndices(hasAfter, init);
      match events[|events| - 1]
      case AnyAnnotation(a) =>
        var one: seq<Hook<A, AnnotationVisit<A>>> := [Before(TypedCount(init), a)];
        ProjectionsAppend(EventTrace(hasAfter, init), one);
        assert one[..0] == [];
      case Typed(v) =>
        var f := Forward(v.annotation, v, v.annotation);
        ProjectionsAppend(EventTrace(hasAfter, init), ForwardTrace(TypedCount(init), hasAfter, f));
        ForwardProjections(TypedCount(init), hasAfter, f);
    }
  }

  /** Wraps a Kotlin annotation visitor. */
  class AnnotationVisitorWrapper<A> {
    var i: nat
    const hasAfter: bool
    var calls: seq<Hook<A, AnnotationVisit<A>>>
    ghost var events: seq<AnnotationEvent<A>>

    ghost predicate Valid()
      reads this
    {
      i == TypedCount(events) && calls == EventTrace(hasAfter, events)
    }

    constructor(hasAfter: bool)
      ensures Valid() && this.hasAfter == hasAfter
      ensures i == 0 && calls == [] && events == []
    {
      i := 0;
      this.hasAfter := hasAfter;
      calls := [];
      events := [];
    }

    /** `visitAnyAnnotation` runs `before` only: no `after`, no delegate and
      * no increment, so repeated calls all see the same index. */
    method VisitAnyAnnotation(annotation: A)
      requires Valid()
      modifies this
      ensures Valid()
      ensures i == old(i)
      ensures events == old(events) + [AnyAnnotation(annotation)]
      ensures calls == old(calls) + [Before(i, annotation)]
    {
      EventTraceSnoc(hasAfter, events, AnyAnnotation(annotation));
      calls := calls + [Before(i, annotation)];
      events := events + [AnyAnnotation(annotation)];
    }

    /** Type, type-parameter and type-alias annotation visits. */
    method Visit(v: AnnotationVisit<A>)
      requires Valid()
      modifies this
      ensures Valid()
      ensures i == old(i) + 1
      ensures events == old(events) + [Typed(v)]
      ensures calls == old(calls) + ForwardTrace(old(i), hasAfter, Forward(v.annotation, v, v.annotation))
    {
      EventTraceSnoc(hasAfter, events, Typed(v));
      calls := calls + [Before(i, v.annotation)];
      calls := calls + [Delegate(v)];
      if hasAfter {
        calls := calls + [After(i, v.annotation)];
      }
      i := i + 1;
      events := events + [Typed(v)];
    }
  }
}
