/** Option and Result, the two failure-carrying datatypes the model uses.
    `Result` carries the text of a Python exception (what `str(e)` gives) on failure,
    and both work with Dafny's `:-` operator. */
module Wrappers {

  datatype Option<+T> = None | Some(value: T) {

    predicate IsFailure() {
      None?
    }

    function PropagateFailure<U>(): Option<U>
      requires None?
    {
      None
    }

    function Extract(): T
      requires Some?
    {
      value
    }

    function GetOr(default: T): T {
      match this
      case Some(v) => v
      case None => default
    }
  }

  /** The outcome of evaluating a Python expression: a value, or the message of the exception it raised. */
  datatype Result<+T> = Ok(value: T) | Err(message: string) {

    predicate IsFailure() {
      Err?
    }

    function PropagateFailure<U>(): Result<U>
      requires Err?
    {
      Err(message)
    }

    function Extract(): T
      requires Ok?
    {
      value
    }
  }

  /** `[f(x) for x in xs]` where `f` may raise: every result in order, or the exception of the
      first element `f` fails on. */
  function MapResults<A, B>(f: A -> Result<B>, xs: seq<A>): Result<seq<B>>
    decreases |xs|
  {
    if xs == [] then Ok([])
    else
      match f(xs[0])
      case Err(m) => Err(m)
      case Ok(y) => Prepend([y], MapResults(f, xs[1..]))
  }

  /** The mapping succeeds exactly when `f` succeeds on every element, and then holds `f`'s
      results in order. */
  lemma {:induction false} MapResultsOk<A, B>(f: A -> Result<B>, xs: seq<A>)
    ensures MapResults(f, xs).Ok? <==> forall i :: 0 <= i < |xs| ==> f(xs[i]).Ok?
    ensures MapResults(f, xs).Ok? ==>
      |MapResults(f, xs).value| == |xs| && forall i :: 0 <= i < |xs| ==> MapResults(f, xs).value[i] == f(xs[i]).value
    decreases |xs|
  {
    if xs != [] {
      MapResultsOk(f, xs[1..]);
      assert forall i :: 1 <= i < |xs| ==> xs[i] == xs[1..][i - 1];
    }
  }

  /** A failed mapping carries the exception of the first element `f` fails on. */
  lemma {:induction false} MapResultsFirstFailure<A, B>(f: A -> Result<B>, xs: seq<A>, i: int)
    requires 0 <= i < |xs| && f(xs[i]).Err?
    requires forall j :: 0 <= j < i ==> f(xs[j]).Ok?
    ensures MapResults(f, xs) == Err(f(xs[i]).message)
    decreases |xs|
  {
    if i > 0 {
      MapResultsFirstFailure(f, xs[1..], i - 1);
    }
  }

  /** `ys` followed by the rest of a mapping, unless that mapping failed. */
  function Prepend<B>(ys: seq<B>, rest: Result<seq<B>>): Result<seq<B>> {
    if rest.Ok? then Ok(ys + rest.value) else rest
  }

  /** The loop `results = []; for x in xs: results.append(f(x))`, left by the first exception. */
  method CollectAll<A, B>(f: A -> Result<B>, xs: seq<A>) returns (r: Result<seq<B>>)
    ensures r == MapResults(f, xs)
  {
    var results: seq<B> := [];
    var i := 0;
    assert xs[i..] == xs;
    assert MapResults(f, xs).Ok? ==> results + MapResults(f, xs).value == MapResults(f, xs).value;
    while i < |xs|
      invariant 0 <= i <= |xs|
      invariant MapResults(f, xs) == Prepend(results, MapResults(f, xs[i..]))
    {
      assert xs[i..][0] == xs[i] && xs[i..][1..] == xs[i + 1..];
      var y := f(xs[i]);
      if y.Err? {
        return Err(y.message);
      }
      var rest := MapResults(f, xs[i + 1..]);
      if rest.Ok? {
        assert results + ([y.value] + rest.value) == (results + [y.value]) + rest.value;
      }
      results := results + [y.value];
      i := i + 1;
    }
    assert xs[i..] == [] && results + [] == results;
    r := Ok(results);
  }
}
