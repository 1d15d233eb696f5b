/** Failure-compatible wrappers used by the whole model: Option for lookups
    that may find nothing, Result for operations that may be rejected. */
module Wrappers {

  /** A value that may be absent, as Rust's Option. */
  datatype Option<+T> = None | Some(value: T) {

    /** The contained value, or the given default when absent
        (Rust's `unwrap_or` / `unwrap_or_default`). */
    function GetOr(default: T): T {
      match this
      case Some(v) => v
      case None => default
    }

    /** Converts an absent value into the given error. */
    function ToResult<E>(error: E): Result<T, E> {
      match this
      case Some(v) => Ok(v)
      case None => Err(error)
    }
  }

  /** The outcome of an operation that may fail, as Rust's Result;
      usable with `:-`, which returns early on Err just as Rust's `?` does. */
  datatype Result<+R, +E> = Ok(value: R) | Err(error: E) {

    predicate IsFailure() {
      Err?
    }

    function PropagateFailure<U>(): Result<U, E>
      requires Err?
    {
      Err(error)
    }

    function Extract(): R
      requires Ok?
    {
      value
    }
  }

  /** Applies `f` to each element in order and gathers the values, stopping
      at the first element `f` rejects, whose error becomes the result;
      Rust's `collect::<Result<Vec<_>, _>>()` over a mapped iterator. */
  function Collect<T, U, E>(f: T -> Result<U, E>, xs: seq<T>): (r: Result<seq<U>, E>)
    ensures r.Ok? <==> forall i :: 0 <= i < |xs| ==> f(xs[i]).Ok?
    ensures r.Ok? ==> |r.value| == |xs| && forall i :: 0 <= i < |xs| ==> r.value[i] == f(xs[i]).value
    ensures r.Err? ==>
      exists i :: && 0 <= i < |xs|
                  && f(xs[i]) == Err(r.error)
                  && (forall j :: 0 <= j < i ==> f(xs[j]).Ok?)
    decreases |xs|
  {
    if |xs| == 0 then Ok([])
    else
      match f(xs[0])
      case Err(e) => Err(e)
      case Ok(head) =>
        match Collect(f, xs[1..])
        case Err(e) =>
          // the failing index of the tail, shifted past the head
          assert forall i :: 1 <= i <= |xs[1..]| ==> xs[1..][i - 1] == xs[i];
          Err(e)
        case Ok(tail) => Ok([head] + tail)
  }

  /** Collecting a concatenation collects each part and concatenates the
      values; a failure in the first part hides the second. */
  lemma {:induction false} CollectConcat<T, U, E>(f: T -> Result<U, E>, xs: seq<T>, ys: seq<T>)
    ensures Collect(f, xs).Err? ==> Collect(f, xs + ys) == Collect(f, xs)
    ensures Collect(f, xs).Ok? && Collect(f, ys).Err? ==> Collect(f, xs + ys) == Collect(f, ys)
    ensures Collect(f, xs).Ok? && Collect(f, ys).Ok? ==>
      Collect(f, xs + ys) == Ok(Collect(f, xs).value + Collect(f, ys).value)
    decreases |xs|
  {
    if |xs| == 0 {
      assert xs + ys == ys;
      assert Collect(f, xs) == Ok([]);
      if Collect(f, ys).Ok? {
        assert [] + Collect(f, ys).value == Collect(f, ys).value;
      }
    } else {
      assert (xs + ys)[0] == xs[0];
      assert (xs + ys)[1..] == xs[1..] + ys;
      match f(xs[0])
      case Err(e) =>
        assert Collect(f, xs) == Err(e);
        assert Collect(f, xs + ys) == Err(e);
      case Ok(head) =>
        CollectConcat(f, xs[1..], ys);
        var rest := Collect(f, xs[1..]);
        var both := Collect(f, xs[1..] + ys);
        assert Collect(f, xs) == if rest.Err? then Err(rest.error) else Ok([head] + rest.value);
        assert Collect(f, xs + ys) == if both.Err? then Err(both.error) else Ok([head] + both.value);
        if rest.Ok? && both.Ok? {
          SeqConsAssoc(head, rest.value, Collect(f, ys).value);
        }
    }
  }

  lemma SeqConsAssoc<U>(head: U, a: seq<U>, b: seq<U>)
    ensures [head] + (a + b) == ([head] + a) + b
  {
  }
}
