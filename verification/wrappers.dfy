/** Option and Result, the two failure-carrying wrappers used by the model,
    and the loop shape the converter uses twice: apply a step that may
    raise to every element of a list, in order, stopping at the first
    element that raises. */
module Wrappers {

  datatype Option<+T> = None | Some(value: T)

  /** A computation that either produces a value or fails the way the
      Python code raises an exception; usable with `:-`. */
  datatype Result<+T, +E> = Success(value: T) | Failure(error: E) {

    predicate IsFailure() {
      Failure?
    }

    function PropagateFailure<U>(): Result<U, E>
      requires Failure?
    {
      Failure(error)
    }

    function Extract(): T
      requires Success?
    {
      value
    }
  }

  /** `f` applied to each element of `xs` from first to last; the first
      failure is the result. */
  function MapAll<A, B, E>(xs: seq<A>, f: A -> Result<B, E>): Result<seq<B>, E> {
    if xs == [] then Success([])
    else
      var init :- MapAll(xs[..|xs| - 1], f);
      var last :- f(xs[|xs| - 1]);
      Success(init + [last])
  }

  /** Mapping succeeds exactly when every element succeeds, and then it
      yields one result per element, in the elements' order. */
  lemma {:induction false} MapAllOneToOne<A, B, E>(xs: seq<A>, f: A -> Result<B, E>)
    ensures MapAll(xs, f).Success? <==> forall i :: 0 <= i < |xs| ==> f(xs[i]).Success?
    ensures MapAll(xs, f).Success? ==>
      var ys := MapAll(xs, f).value;
      |ys| == |xs| && forall i :: 0 <= i < |xs| ==> f(xs[i]) == Success(ys[i])
  {
    if xs != [] {
      var init := xs[..|xs| - 1];
      MapAllOneToOne(init, f);
      assert forall i :: 0 <= i < |init| ==> init[i] == xs[i];
    }
  }

  /** Once a prefix fails, the whole list fails with the same error: the
      loop stops at the first element that raises. */
  lemma {:induction false} MapAllFailFrom<A, B, E>(xs: seq<A>, n: nat, f: A -> Result<B, E>)
    requires n <= |xs|
    requires MapAll(xs[..n], f).Failure?
    ensures MapAll(xs, f) == MapAll(xs[..n], f)
    decreases |xs| - n
  {
    if n < |xs| {
      assert xs[..n + 1][..n] == xs[..n];
      MapAllFailFrom(xs, n + 1, f);
    } else {
      assert xs[..n] == xs;
    }
  }

  /** A failed mapping reports the error of the first element that fails. */
  lemma {:induction false} MapAllFirstFailure<A, B, E>(xs: seq<A>, f: A -> Result<B, E>)
    requires MapAll(xs, f).Failure?
    ensures exists i ::
      && 0 <= i < |xs|
      && f(xs[i]) == Failure(MapAll(xs, f).error)
      && (forall j :: 0 <= j < i ==> f(xs[j]).Success?)
  {
    var init := xs[..|xs| - 1];
    assert forall j :: 0 <= j < |init| ==> init[j] == xs[j];
    if MapAll(init, f).Failure? {
      MapAllFirstFailure(init, f);
    } else {
      MapAllOneToOne(init, f);
      assert f(xs[|xs| - 1]).Failure?;
    }
  }

  /** One more element: its result is added to the results, or its
      failure is the failure of the longer prefix. */
  lemma MapAllStep<A, B, E>(xs: seq<A>, i: nat, ys: seq<B>, f: A -> Result<B, E>)
    requires i < |xs| && MapAll(xs[..i], f) == Success(ys)
    ensures f(xs[i]).Failure? ==> MapAll(xs[..i + 1], f) == Failure(f(xs[i]).error)
    ensures f(xs[i]).Success? ==> MapAll(xs[..i + 1], f) == Success(ys + [f(xs[i]).value])
  {
    assert xs[..i + 1][..i] == xs[..i];
    assert xs[..i + 1][i] == xs[i];
  }

  /** The strings of `parts` one after another. */
  function Concat(parts: seq<string>): string {
    if parts == [] then "" else Concat(parts[..|parts| - 1]) + parts[|parts| - 1]
  }

  lemma ConcatSnoc(parts: seq<string>, part: string)
    ensures Concat(parts + [part]) == Concat(parts) + part
  {
    assert (parts + [part])[..|parts|] == parts;
  }
}
