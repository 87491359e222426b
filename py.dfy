/** Python-level vocabulary shared by the model: failure-compatible Option and
    Result (a Python exception becomes a Failure), and the shape of an
    argument whose type the source checks at run time. */
module Py {

  datatype Option<+T> = None | Some(value: T) {
    predicate IsFailure() { None? }
    function PropagateFailure<U>(): Option<U>
      requires None?
    {
      None
    }
    function Extract(): T
      requires Some?
    {
      value
    }
    function GetOr(default: T): T {
      if Some? then value else default
    }
  }

  datatype Result<+T, +E> = Success(value: T) | Failure(error: E) {
    predicate IsFailure() { Failure? }
    function PropagateFailure<U>(): Result<U, E>
      requires Failure?
    {
      Failure(error)
    }
    function Extract(): T
      requires Success?
    {
      value
    }
  }

  /** The Python exceptions the modelled code raises or lets through. */
  datatype Exception =
    | ValueError
    | TypeError
    | KeyError
    | AttributeError
    | FileNotFoundError
    | OSError

  /** A dynamically typed argument: `None`, a `str`, or any other object. */
  datatype Value = PyNone | PyStr(s: string) | PyOther

  /** Python truthiness of an optional string setting (None and "" are falsy). */
  predicate IsSet(setting: Option<string>) {
    setting.Some? && setting.value != ""
  }

  /** Applies a partial function to every element, in order: None as soon as
      one application fails (the first exception of a Python loop). */
  function MapAll<X, Y>(f: X -> Option<Y>, xs: seq<X>): Option<seq<Y>>
    decreases |xs|
  {
    if xs == [] then Some([])
    else
      var init :- MapAll(f, xs[..|xs| - 1]);
      var last :- f(xs[|xs| - 1]);
      Some(init + [last])
  }

  /** One result per element, in order, and a failure exactly when some
      element fails. */
  lemma {:induction false} MapAllSpec<X, Y>(f: X -> Option<Y>, xs: seq<X>)
    ensures MapAll(f, xs).Some? <==> forall i :: 0 <= i < |xs| ==> f(xs[i]).Some?
    ensures MapAll(f, xs).Some? ==>
              && |MapAll(f, xs).value| == |xs|
              && forall i :: 0 <= i < |xs| ==> f(xs[i]) == Some(MapAll(f, xs).value[i])
    decreases |xs|
  {
    if xs != [] {
      var init := xs[..|xs| - 1];
      MapAllSpec(f, init);
      if MapAll(f, init).None? {
        var i :| 0 <= i < |init| && f(init[i]).None?;
        assert xs[i] == init[i];
      } else {
        forall i | 0 <= i < |init| ensures xs[i] == init[i] { }
      }
    }
  }

  /** `n` copies of `x`. */
  function Repeat<T>(x: T, n: nat): (r: seq<T>)
    ensures |r| == n
    ensures forall i :: 0 <= i < n ==> r[i] == x
  {
    if n == 0 then [] else Repeat(x, n - 1) + [x]
  }
}
