/** The index-counting visitor decorators of the kmp-library generation. */
module KmpVisitors {
  import opened Hooks

  /** The type visits the type wrapper forwards. `visited` is the type the
    * visit is about; `owner`, where present, is the type or declaration it was
    * reached from. */
  datatype TypeVisit<T> =
    | TypeUpperBound(owner: T, visited: T)
    | Abbreviation(owner: T, visited: T)
    | ParameterUpperBound(visited: T)
    | TypeOfIsExpression(visited: T)
    | TypeArgument(owner: T, visited: T)
    | StarProjection(visited: T)
    | OuterClass(owner: T, visited: T)
    | SuperType(visited: T)
    | ConstructorValParamType(visited: T)
    | ConstructorValParamVarArgType(visited: T)
    | PropertyType(visited: T)
    | PropertyReceiverType(visited: T)
    | PropertyValParamType(visited: T)
    | PropertyValParamVarArgType(visited: T)
    | FunctionReturnType(visited: T)
    | FunctionReceiverType(visited: T)
    | FunctionValParamType(visited: T)
    | FunctionValParamVarArgType(visited: T)
    | AliasUnderlyingType(visited: T)
    | AliasExpandedType(visited: T)
    | ContextReceiverType(visited: T)
  {
    /** The type handed to `before`: the visited type, except that an
      * abbreviation hands over the abbreviated type. */
    function BeforeSubject(): T
    {
      if Abbreviation? then owner else visited
    }

    /** The type handed to `after`. */
    function AfterSubject(): T
    {
      visited
    }

    function AsForward(): Forward<T, TypeVisit<T>>
    {
      Forward(BeforeSubject(), this, AfterSubject())
    }
  }

  /** Only an abbreviation visit can hand different types to `before` and
    * `after`: it hands the abbreviated type to one and the abbreviation to
    * the other. */
  lemma AbbreviationSubjects<T>(v: TypeVisit<T>)
    ensures v.BeforeSubject() != v.AfterSubject() <==> v.Abbreviation? && v.owner != v.visited
    ensures v.Abbreviation? ==> v.BeforeSubject() == v.owner && v.AfterSubject() == v.visited
  {
  }

  /** Wraps a type visitor; `hasAfter` is false for a wrapper made with the
    * two-argument constructor, which has no `after` hook. */
  class TypeVisitorWrapper<T> {
    var i: nat
    const hasAfter: bool
    /** The calls made to the hooks and to the wrapped visitor, in order. */
    var calls: seq<Hook<T, TypeVisit<T>>>
    ghost var forwarded: seq<Forward<T, TypeVisit<T>>>

    ghost predicate Valid()
      reads this
    {
      i == |forwarded| && calls == TraceOf(0, hasAfter, forwarded)
    }

    constructor(hasAfter: bool)
      ensures Valid() && this.hasAfter == hasAfter
      ensures i == 0 && calls == [] && forwarded == []
    {
      i := 0;
      this.hasAfter := hasAfter;
      calls := [];
      forwarded := [];
    }

    method BeforeHook(subject: T)
      modifies this
      ensures calls == old(calls) + [Before(i, subject)]
      ensures i == old(i) && forwarded == old(forwarded)
    {
      calls := calls + [Before(i, subject)];
    }

    /** Runs `after` when there is one, and advances the index either way. */
    method AfterHook(subject: T)
      modifies this
      ensures calls == old(calls) + (if hasAfter then [After(old(i), subject)] else [])
      ensures i == old(i) + 1 && forwarded == old(forwarded)
    {
      if hasAfter {
        calls := calls + [After(i, subject)];
      }
      i := i + 1;
    }

    /** Every forwarding visit method: `before`, the same visit on the
      * wrapped visitor, `after`, with one index. */
    method Visit(v: TypeVisit<T>)
      requires Valid()
      modifies this
      ensures Valid()
      ensures i == old(i) + 1
      ensures forwarded == old(forwarded) + [v.AsForward()]
      ensures calls == old(calls) + ForwardTrace(old(i), hasAfter, v.AsForward())
    {
      BeforeHook(v.BeforeSubject());
      calls := calls + [Delegate(v)];
      AfterHook(v.AfterSubject());
      forwarded := forwarded + [v.AsForward()];
      assert forwarded[..|forwarded| - 1] == old(forwarded);
    }

    /** `visitAnyType` does nothing: no hook runs and the index stays. */
    method VisitAnyType(t: T)
      requires Valid()
      ensures Valid()
    {
    }
  }

  /** Wraps a type-parameter visitor. */
  class TypeParameterVisitorWrapper<P> {
    var i: nat
    const hasAfter: bool
    var calls: seq<Hook<P, TypeParameterVisit<P>>>
    ghost var forwarded: seq<Forward<P, TypeParameterVisit<P>>>

    ghost predicate Valid()
      reads this
    {
      i == |forwarded| && calls == TraceOf(0, hasAfter, forwarded)
    }

    constructor(hasAfter: bool)
      ensures Valid() && this.hasAfter == hasAfter
      ensures i == 0 && calls == [] && forwarded == []
    {
      i := 0;
      this.hasAfter := hasAfter;
      calls := [];
      forwarded := [];
    }

    /** Class, property, function and alias type-parameter visits. */
    method Visit(v: TypeParameterVisit<P>)
      requires Valid()
      modifies this
      ensures Valid()
      ensures i == old(i) + 1
      ensures forwarded == old(forwarded) + [Forward(v.parameter, v, v.parameter)]
      ensures calls == old(calls) + ForwardTrace(old(i), hasAfter, Forward(v.parameter, v, v.parameter))
    {
      calls := calls + [Before(i, v.parameter)];
      calls := calls + [Delegate(v)];
      if hasAfter {
        calls := calls + [After(i, v.parameter)];
      }
      i := i + 1;
      forwarded := forwarded + [Forward(v.parameter, v, v.parameter)];
      assert forwarded[..|forwarded| - 1] == old(forwarded);
    }

    /** `visitAnyTypeParameter` does nothing. */
    method VisitAnyTypeParameter(p: P)
      requires Valid()
      ensures Valid()
    {
    }
  }

  /** Wraps a Kotlin metadata visitor; the printer uses the `before` hook's
    * index 0 to print the nested-subclasses heading once. */
  class MetadataVisitorWrapper<M> {
    var i: nat
    const hasAfter: bool
    var calls: seq<Hook<M, M>>
    ghost var forwarded: seq<Forward<M, M>>

    ghost predicate Valid()
      reads this
    {
      i == |forwarded| && calls == TraceOf(0, hasAfter, forwarded)
    }

    constructor(hasAfter: bool)
      ensures Valid() && this.hasAfter == hasAfter
      ensures i == 0 && calls == [] && forwarded == []
    {
      i := 0;
      this.hasAfter := hasAfter;
      calls := [];
      forwarded := [];
    }

    /** `visitAnyKotlinMetadata`: the metadata accepts the wrapped visitor
      * between the two hooks. */
    method VisitAnyKotlinMetadata(metadata: M)
      requires Valid()
      modifies this
      ensures Valid()
      ensures i == old(i) + 1
      ensures forwarded == old(forwarded) + [Forward(metadata, metadata, metadata)]
      ensures calls == old(calls) + ForwardTrace(old(i), hasAfter, Forward(metadata, metadata, metadata))
    {
      calls := calls + [Before(i, metadata)];
      calls := calls + [Delegate(metadata)];
      if hasAfter {
        calls := calls + [After(i, metadata)];
      }
      i := i + 1;
      forwarded := forwarded + [Forward(metadata, metadata, metadata)];
      assert forwarded[..|forwarded| - 1] == old(forwarded);
    }
  }
}
