/**
 Just enough of Python's value semantics for the salary scripts:
 JSON `null` as `None`, exceptions as a result datatype, truthiness
 of numbers and `statistics.mean`. Floats are exact reals here.
 */
module Py {

  datatype Option<+T> = None | Some(value: T)

  /** The exceptions the scripts can raise. */
  datatype PyError =
    | TypeError        // int(None), or statistics.mean over a list holding None
    | AttributeError   // calling .get on None
    | StatisticsError  // statistics.mean of an empty list

  /** A Python call either returns a value or raises. */
  datatype PyResult<+T> = Return(value: T) | Raise(error: PyError)

  /** `bool(b)` for a JSON integer field: `None` and `0` are falsy. */
  predicate Truthy(b: Option<int>) {
    b.Some? && b.value != 0
  }

  /** `b is not None` for an estimate. */
  predicate IsNotNone(x: Option<real>) {
    x.Some?
  }

  /** `not x` for an estimate: `None` and `0.0` are falsy. */
  predicate IsFalsy(x: Option<real>) {
    x == None || x == Some(0.0)
  }

  /** The sum of the numbers in a list of estimates. */
  function SumSome(xs: seq<Option<real>>): real {
    if xs == [] then 0.0
    else (if xs[0].Some? then xs[0].value else 0.0) + SumSome(xs[1..])
  }

  /**
   `statistics.mean(xs)` on a list of floats and `None`s: an empty list is a
   StatisticsError, a `None` anywhere is a TypeError, and otherwise the result
   is the arithmetic mean.
   */
  function Mean(xs: seq<Option<real>>): (r: PyResult<real>)
    ensures r == Raise(StatisticsError) <==> xs == []
    ensures r == Raise(TypeError) <==> xs != [] && None in xs
  {
    if xs == [] then Raise(StatisticsError)
    else if None in xs then Raise(TypeError)
    else Return(SumSome(xs) / (|xs| as real))
  }

  /** A list in which something is None has no mean, however it is extended. */
  lemma MeanOfExtendedNone(xs: seq<Option<real>>, ys: seq<Option<real>>)
    requires None in xs
    ensures Mean(xs + ys) == Raise(TypeError)
  {
    assert None in xs + ys;
  }

  /** A list holding `c` everywhere sums to `c` times its length. */
  lemma {:induction false} SumOfConstant(xs: seq<Option<real>>, c: real)
    requires forall i :: 0 <= i < |xs| ==> xs[i] == Some(c)
    ensures SumSome(xs) == c * (|xs| as real)
  {
    if xs != [] {
      SumOfConstant(xs[1..], c);
      assert c + c * ((|xs| - 1) as real) == c * (|xs| as real);
    }
  }

  /** The mean of a non-empty list holding `c` everywhere is `c`. */
  lemma MeanOfConstant(xs: seq<Option<real>>, c: real)
    requires xs != [] && forall i :: 0 <= i < |xs| ==> xs[i] == Some(c)
    ensures Mean(xs) == Return(c)
  {
    SumOfConstant(xs, c);
    var n := |xs| as real;
    assert None !in xs;
    assert SumSome(xs) / n == c;
    assert Mean(xs) == Return(SumSome(xs) / n);
  }
}
