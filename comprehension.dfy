/** Python's list comprehension `[f(x) for x in xs]`: every element is
    mapped in order, and the first exception ends the whole comprehension
    without a partial list. */
module Comprehension {
  import opened Errors

  function MapAll<S, T>(xs: seq<S>, f: S -> Result<T>): (r: Result<seq<T>>)
    ensures r.Ok? <==> Succeeds(xs, f)
    ensures r.Ok? ==> |r.value| == |xs|
    ensures r.Ok? ==> forall i :: 0 <= i < |xs| ==> f(xs[i]) == Ok(r.value[i])
  {
    if xs == [] then Ok([])
    else
      match f(xs[0])
      case Err(e) => Err(e)
      case Ok(head) =>
        var rest := MapAll(xs[1..], f);
        assert forall i :: 0 < i < |xs| ==> xs[i] == xs[1..][i - 1];
        if rest.Err? then Err(rest.error) else Ok([head] + rest.value)
  }

  /** Every element of `xs` maps without an exception. */
  predicate Succeeds<S, T>(xs: seq<S>, f: S -> Result<T>) {
    forall i :: 0 <= i < |xs| ==> f(xs[i]).Ok?
  }

  /** The error of a failed comprehension is the one raised by its first
      failing element, whatever follows that element. */
  lemma {:induction false} FirstFailureDecides<S, T>(xs: seq<S>, f: S -> Result<T>, i: nat)
    requires i < |xs| && f(xs[i]).Err? && Succeeds(xs[..i], f)
    ensures MapAll(xs, f) == Err(f(xs[i]).error)
  {
    if i > 0 {
      assert xs[0] == xs[..i][0];
      var before := xs[1..][..i - 1];
      forall k | 0 <= k < |before|
        ensures f(before[k]).Ok?
      {
        assert before[k] == xs[..i][k + 1];
      }
      FirstFailureDecides(xs[1..], f, i - 1);
    }
  }

  /** A failed comprehension failed at some element, all of whose
      predecessors mapped: its error is an error of the element
      expression. */
  lemma {:induction false} FailureHasCause<S, T>(xs: seq<S>, f: S -> Result<T>)
    requires MapAll(xs, f).Err?
    ensures exists i :: 0 <= i < |xs| && f(xs[i]) == Err(MapAll(xs, f).error) && Succeeds(xs[..i], f)
  {
    if f(xs[0]).Err? {
      assert xs[..0] == [];
    } else {
      FailureHasCause(xs[1..], f);
      var j :| 0 <= j < |xs[1..]| && f(xs[1..][j]) == Err(MapAll(xs[1..], f).error) && Succeeds(xs[1..][..j], f);
      assert xs[..j + 1] == [xs[0]] + xs[1..][..j];
      assert f(xs[j + 1]) == Err(MapAll(xs, f).error);
    }
  }

  /** One step of the comprehension: the head is mapped first, then the
      rest. */
  lemma MapAllCons<S, T>(x: S, xs: seq<S>, f: S -> Result<T>)
    ensures var head, tail := f(x), MapAll(xs, f);
      MapAll([x] + xs, f) == if head.Err? then Err(head.error) else if tail.Err? then tail else Ok([head.value] + tail.value)
  {
    assert ([x] + xs)[0] == x;
    assert ([x] + xs)[1..] == xs;
  }

  /** Mapping a concatenation maps the first part, then the second, and
      concatenates the results in the same order. */
  lemma {:induction false} MapAllAppend<S, T>(xs: seq<S>, ys: seq<S>, f: S -> Result<T>)
    ensures var front, back := MapAll(xs, f), MapAll(ys, f);
      MapAll(xs + ys, f) == if front.Err? then front else if back.Err? then back else Ok(front.value + back.value)
  {
    if xs == [] {
      assert xs + ys == ys;
      var back := MapAll(ys, f);
      if back.Ok? {
        assert [] + back.value == back.value;
      }
    } else {
      assert (xs + ys)[0] == xs[0];
      assert (xs + ys)[1..] == xs[1..] + ys;
      MapAllAppend(xs[1..], ys, f);
      var head, tail, back := f(xs[0]), MapAll(xs[1..], f), MapAll(ys, f);
      if head.Ok? && tail.Ok? && back.Ok? {
        assert [head.value] + (tail.value + back.value) == ([head.value] + tail.value) + back.value;
      }
    }
  }
}
