/** Failure-compatible wrappers used across the model: an optional value and
    a value-or-error result, the Dafny counterpart of the source's raised
    exceptions. */
module Wrappers {

  datatype Option<+T> = None | Some(value: T) {

    predicate IsFailure() {
      None?
    }

    function PropagateFailure<U>(): Option<U>
      requires None?
    {
      None
    }

    function Extract(): T
      requires Some?
    {
      value
    }
  }

  datatype Result<+T, +E> = Ok(value: T) | Err(error: E) {

    predicate IsFailure() {
      Err?
    }

    function PropagateFailure<U>(): Result<U, E>
      requires Err?
    {
      Err(error)
    }

    function Extract(): T
      requires Ok?
    {
      value
    }
  }

  /** The values of a list of results, in order, or the first error among
      them: a loop that stops at the first exception. */
  function Collect<T, E>(rs: seq<Result<T, E>>): (r: Result<seq<T>, E>)
    ensures r.Ok? <==> forall i | 0 <= i < |rs| :: rs[i].Ok?
    ensures r.Ok? ==> |r.value| == |rs|
    ensures r.Ok? ==> forall i | 0 <= i < |rs| :: rs[i] == Ok(r.value[i])
  {
    if |rs| == 0 then Ok([])
    else
      assert forall i | 1 <= i < |rs| :: rs[i] == rs[1..][i - 1];
      var k :- rs[0];
      var rest :- Collect(rs[1..]);
      Ok([k] + rest)
  }

  /** The first error in the list is the one reported. */
  lemma {:induction false} CollectFirstError<T, E>(rs: seq<Result<T, E>>, i: nat)
    requires i < |rs| && rs[i].Err?
    requires forall j | 0 <= j < i :: rs[j].Ok?
    ensures Collect(rs) == Err(rs[i].error)
    decreases i
  {
    if i > 0 {
      assert rs[1..][i - 1] == rs[i];
      assert forall j | 0 <= j < i - 1 :: rs[1..][j] == rs[j + 1];
      CollectFirstError(rs[1..], i - 1);
    }
  }
}
