/** The behaviour shared by the index-counting visitor decorators: every
  * forwarded visit runs the `before` hook with the current index, then the
  * wrapped visitor, then the `after` hook (when one was given) with the same
  * index, and then advances the index. The hooks and the wrapped visitor are
  * code the wrappers cannot see, so the model records the calls made to them
  * as a trace. */
module Hooks {

  /** One call a wrapper makes: to a hook, with an index and a subject, or to
    * the wrapped visitor, with the visit it forwards. */
  datatype Hook<S, V> =
    | Before(index: nat, subject: S)
    | Delegate(visit: V)
    | After(index: nat, subject: S)

  /** One forwarded visit: the subject handed to `before`, the visit passed on,
    * and the subject handed to `after`. */
  datatype Forward<S, V> = Forward(beforeSubject: S, visit: V, afterSubject: S)

  /** The four type-parameter visits both generations' wrappers forward; the
    * parameter is what the hooks receive. */
  datatype TypeParameterVisit<P> =
    | ClassTypeParameter(parameter: P)
    | PropertyTypeParameter(parameter: P)
    | FunctionTypeParameter(parameter: P)
    | AliasTypeParameter(parameter: P)

  /** The calls one forwarded visit makes when the index is `i`. */
  function ForwardTrace<S, V>(i: nat, hasAfter: bool, f: Forward<S, V>): (r: seq<Hook<S, V>>)
    ensures |r| == if hasAfter then 3 else 2
    ensures r[0] == Before(i, f.beforeSubject) && r[1] == Delegate(f.visit)
    ensures hasAfter ==> r[2] == After(i, f.afterSubject)
  {
    [Before(i, f.beforeSubject), Delegate(f.visit)] + (if hasAfter then [After(i, f.afterSubject)] else [])
  }

  /** The calls made by the forwarded visits `fs` in order, starting from index `start`. */
  function TraceOf<S, V>(start: nat, hasAfter: bool, fs: seq<Forward<S, V>>): (r: seq<Hook<S, V>>)
    ensures |r| == |fs| * (if hasAfter then 3 else 2)
  {
    if fs == [] then []
    else TraceOf(start, hasAfter, fs[..|fs| - 1]) + ForwardTrace(start + |fs| - 1, hasAfter, fs[|fs| - 1])
  }

  /** The indices the `before` hook saw, in order. */
  function BeforeIndices<S, V>(trace: seq<Hook<S, V>>): (r: seq<nat>)
    ensures |r| <= |trace|
  {
    if trace == [] then []
    else BeforeIndices(trace[..|trace| - 1]) + (if trace[|trace| - 1].Before? then [trace[|trace| - 1].index] else [])
  }

  /** The indices the `after` hook saw, in order. */
  function AfterIndices<S, V>(trace: seq<Hook<S, V>>): (r: seq<nat>)
    ensures |r| <= |trace|
  {
    if trace == [] then []
    else AfterIndices(trace[..|trace| - 1]) + (if trace[|trace| - 1].After? then [trace[|trace| - 1].index] else [])
  }

  /** The visits the wrapped visitor received, in order. */
  function Delegated<S, V>(trace: seq<Hook<S, V>>): (r: seq<V>)
    ensures |r| <= |trace|
  {
    if trace == [] then []
    else Delegated(trace[..|trace| - 1]) + (if trace[|trace| - 1].Delegate? then [trace[|trace| - 1].visit] else [])
  }

  /** The visits of `fs`, in order. */
  function ForwardedVisits<S, V>(fs: seq<Forward<S, V>>): (r: seq<V>)
    ensures |r| == |fs|
    ensures forall k :: 0 <= k < |r| ==> r[k] == fs[k].visit
  {
    if fs == [] then []
    else
      var init := fs[..|fs| - 1];
      assert forall k :: 0 <= k < |init| ==> init[k] == fs[k];
      ForwardedVisits(init) + [fs[|fs| - 1].visit]
  }

  /** The indices `lo`, `lo + 1`, ..., `hi - 1`. */
  function Range(lo: nat, hi: nat): (r: seq<nat>)
    requires lo <= hi
    ensures |r| == hi - lo
    ensures forall k :: 0 <= k < |r| ==> r[k] == lo + k
    decreases hi - lo
  {
    if lo == hi then [] else Range(lo, hi - 1) + [hi - 1]
  }

  /** Each of the three projections distributes over concatenated traces. */
  lemma ProjectionsAppend<S, V>(a: seq<Hook<S, V>>, b: seq<Hook<S, V>>)
    ensures BeforeIndices(a + b) == BeforeIndices(a) + BeforeIndices(b)
    ensures AfterIndices(a + b) == AfterIndices(a) + AfterIndices(b)
    ensures Delegated(a + b) == Delegated(a) + Delegated(b)
  {
    BeforeAppend(a, b);
    AfterAppend(a, b);
    DelegatedAppend(a, b);
  }

  lemma {:induction false} BeforeAppend<S, V>(a: seq<Hook<S, V>>, b: seq<Hook<S, V>>)
    ensures BeforeIndices(a + b) == BeforeIndices(a) + BeforeIndices(b)
    decreases |b|
  {
    if b == [] {
      assert a + b == a;
    } else {
      var b' := b[..|b| - 1];
      assert (a + b)[..|a + b| - 1] == a + b';
      assert (a + b)[|a + b| - 1] == b[|b| - 1];
      BeforeAppend(a, b');
    }
  }

  lemma {:induction false} AfterAppend<S, V>(a: seq<Hook<S, V>>, b: seq<Hook<S, V>>)
    ensures AfterIndices(a + b) == AfterIndices(a) + AfterIndices(b)
    decreases |b|
  {
    if b == [] {
      assert a + b == a;
    } else {
      var b' := b[..|b| - 1];
      assert (a + b)[..|a + b| - 1] == a + b';
      assert (a + b)[|a + b| - 1] == b[|b| - 1];
      AfterAppend(a, b');
    }
  }

  lemma {:induction false} DelegatedAppend<S, V>(a: seq<Hook<S, V>>, b: seq<Hook<S, V>>)
    ensures Delegated(a + b) == Delegated(a) + Delegated(b)
    decreases |b|
  {
    if b == [] {
      assert a + b == a;
    } else {
      var b' := b[..|b| - 1];
      assert (a + b)[..|a + b| - 1] == a + b';
      assert (a + b)[|a + b| - 1] == b[|b| - 1];
      DelegatedAppend(a, b');
    }
  }

  /** After k forwarded visits the `before` hook has seen the indices
    * `start`, ..., `start + k - 1` in order, the `after` hook the same
    * indices when it exists and nothing otherwise, and the wrapped visitor
    * has received every visit exactly once, in order. */
  lemma TraceIndices<S, V>(start: nat, hasAfter: bool, fs: seq<Forward<S, V>>)
    ensures BeforeIndices(TraceOf(start, hasAfter, fs)) == Range(start, start + |fs|)
    ensures AfterIndices(TraceOf(start, hasAfter, fs)) == (if hasAfter then Range(start, start + |fs|) else [])
    ensures Delegated(TraceOf(start, hasAfter, fs)) == ForwardedVisits(fs)
  {
    TraceBefore(start, hasAfter, fs);
    TraceAfter(start, hasAfter, fs);
    TraceDelegated(start, hasAfter, fs);
  }

  lemma {:induction false} TraceBefore<S, V>(start: nat, hasAfter: bool, fs: seq<Forward<S, V>>)
    ensures BeforeIndices(TraceOf(start, hasAfter, fs)) == Range(start, start + |fs|)
  {
    if fs != [] {
      var init := fs[..|fs| - 1];
      var last := fs[|fs| - 1];
      TraceBefore(start, hasAfter, init);
      BeforeAppend(TraceOf(start, hasAfter, init), ForwardTrace(start + |fs| - 1, hasAfter, last));
      ForwardProjections(start + |fs| - 1, hasAfter, last);
    }
  }

  lemma {:induction false} TraceAfter<S, V>(start: nat, hasAfter: bool, fs: seq<Forward<S, V>>)
    ensures AfterIndices(TraceOf(start, hasAfter, fs)) == (if hasAfter then Range(start, start + |fs|) else [])
  {
    if fs != [] {
      var init := fs[..|fs| - 1];
      var last := fs[|fs| - 1];
      TraceAfter(start, hasAfter, init);
      AfterAppend(TraceOf(start, hasAfter, init), ForwardTrace(start + |fs| - 1, hasAfter, last));
      ForwardProjections(start + |fs| - 1, hasAfter, last);
    }
  }

  lemma {:induction false} TraceDelegated<S, V>(start: nat, hasAfter: bool, fs: seq<Forward<S, V>>)
    ensures Delegated(TraceOf(start, hasAfter, fs)) == ForwardedVisits(fs)
  {
    if fs != [] {
      var init := fs[..|fs| - 1];
      var last := fs[|fs| - 1];
      TraceDelegated(start, hasAfter, init);
      DelegatedAppend(TraceOf(start, hasAfter, init), ForwardTrace(start + |fs| - 1, hasAfter, last));
      ForwardProjections(start + |fs| - 1, hasAfter, last);
    }
  }

  /** The projections of one forwarded visit. */
  lemma ForwardProjections<S, V>(i: nat, hasAfter: bool, f: Forward<S, V>)
    ensures BeforeIndices(ForwardTrace(i, hasAfter, f)) == [i]
    ensures AfterIndices(ForwardTrace(i, hasAfter, f)) == (if hasAfter then [i] else [])
    ensures Delegated(ForwardTrace(i, hasAfter, f)) == [f.visit]
  {
    var b: seq<Hook<S, V>> := [Before(i, f.beforeSubject)];
    var d: seq<Hook<S, V>> := [Delegate(f.visit)];
    var a: seq<Hook<S, V>> := if hasAfter then [After(i, f.afterSubject)] else [];
    assert b[..0] == [] && d[..0] == [];
    assert BeforeIndices(b) == [i] && AfterIndices(b) == [] && Delegated(b) == [];
    assert BeforeIndices(d) == [] && AfterIndices(d) == [] && Delegated(d) == [f.visit];
    if hasAfter {
      assert a[..0] == [];
      assert BeforeIndices(a) == [] && AfterIndices(a) == [i] && Delegated(a) == [];
    }
    assert ForwardTrace(i, hasAfter, f) == b + d + a;
    ProjectionsAppend(b, d);
    ProjectionsAppend(b + d, a);
  }

  /** Every index of a range occurs in it exactly once. */
  lemma {:induction false} RangeOnce(lo: nat, hi: nat, x: nat)
    requires lo <= hi
    ensures multiset(Range(lo, hi))[x] == (if lo <= x < hi then 1 else 0)
    decreases hi - lo
  {
    if lo < hi {
      RangeOnce(lo, hi - 1, x);
      var init: seq<nat> := Range(lo, hi - 1);
      assert multiset(Range(lo, hi))[x] == multiset(init)[x] + (if x == hi - 1 then 1 else 0);
    }
  }

  /** Counting from 0, the `before` hook sees index 0 exactly once when at
    * least one visit is made (on the first visit, since the indices rise). */
  lemma FirstIndexOnce<S, V>(hasAfter: bool, fs: seq<Forward<S, V>>)
    ensures multiset(BeforeIndices(TraceOf(0, hasAfter, fs)))[0] == (if fs == [] then 0 else 1)
  {
    TraceIndices(0, hasAfter, fs);
    RangeOnce(0, |fs|, 0);
  }
}
