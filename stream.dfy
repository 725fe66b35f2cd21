/** The shape both streaming clients share: a loop that reads one item at a time and, for
    each, either stops, appends a piece of text to its buffer, or raises. */
module Stream {
  import opened Wrappers

  /** What the loop does with one item. */
  datatype Step<T, E> = Stop | Emit(piece: T) | Fail(error: E)

  /** Puts `prefix` in front of a collected list, leaving an error as it is. */
  function Prepend<T, E>(prefix: seq<T>, r: Result<seq<T>, E>): Result<seq<T>, E>
  {
    match r
    case Ok(pieces) => Ok(prefix + pieces)
    case Err(e) => Err(e)
  }

  /** What the loop ends with: the pieces up to the first `Stop` (or the end of the items),
      or the error of the first `Fail`; nothing partial is kept on failure. */
  function Collect<T, E>(steps: seq<Step<T, E>>): Result<seq<T>, E>
  {
    if steps == [] then Ok([])
    else match steps[0]
      case Stop => Ok([])
      case Fail(e) => Err(e)
      case Emit(piece) => Prepend([piece], Collect(steps[1..]))
  }

  /** The position where the loop leaves: the first item that does not append. */
  function StopIndex<T, E>(steps: seq<Step<T, E>>): (k: nat)
    ensures k <= |steps|
    ensures forall j :: 0 <= j < k ==> steps[j].Emit?
    ensures k < |steps| ==> !steps[k].Emit?
  {
    if steps == [] || !steps[0].Emit? then 0 else 1 + StopIndex(steps[1..])
  }

  /** The loop leaves at the first item that does not append. */
  lemma {:induction false} StopIndexAt<T, E>(steps: seq<Step<T, E>>, j: nat)
    requires j < |steps| && !steps[j].Emit?
    requires forall i :: 0 <= i < j ==> steps[i].Emit?
    ensures StopIndex(steps) == j
  {
    if j > 0 {
      StopIndexAt(steps[1..], j - 1);
    }
  }

  /** The loop succeeds exactly when it leaves on a `Stop` or at the end, and then holds
      the pieces of the items before that position, in order; otherwise it raises the error
      of the item where it left. */
  lemma {:induction false} CollectUpToStop<T, E>(steps: seq<Step<T, E>>)
    ensures var k := StopIndex(steps);
      Collect(steps).Ok? <==> (k == |steps| || steps[k].Stop?)
    ensures var k := StopIndex(steps);
      Collect(steps).Ok? ==>
        |Collect(steps).value| == k &&
        forall j :: 0 <= j < k ==> Collect(steps).value[j] == steps[j].piece
    ensures Collect(steps).Err? ==> Collect(steps).error == steps[StopIndex(steps)].error
  {
    if steps != [] && steps[0].Emit? {
      CollectUpToStop(steps[1..]);
      var k := StopIndex(steps);
      assert StopIndex(steps[1..]) == k - 1;
      if Collect(steps).Ok? {
        var rest := Collect(steps[1..]).value;
        assert Collect(steps).value == [steps[0].piece] + rest;
        forall j | 0 <= j < k ensures Collect(steps).value[j] == steps[j].piece {
          if j > 0 { assert steps[1..][j - 1] == steps[j]; }
        }
      }
    }
  }

  /** Nothing after the item where the loop leaves is ever looked at. */
  lemma {:induction false} CollectIgnoresRest<T, E>(steps: seq<Step<T, E>>, rest: seq<Step<T, E>>)
    requires StopIndex(steps) < |steps|
    ensures Collect(steps + rest) == Collect(steps)
  {
    if steps[0].Emit? {
      assert (steps + rest)[1..] == steps[1..] + rest;
      CollectIgnoresRest(steps[1..], rest);
    }
  }

  /** The loop invariant of both clients: the pieces gathered so far, followed by what the
      rest of the items give, is what the whole stream gives. */
  lemma CollectStep<T, E>(steps: seq<Step<T, E>>, j: nat)
    requires j < |steps|
    ensures steps[j].Emit? ==> Collect(steps[j..]) == Prepend([steps[j].piece], Collect(steps[j + 1..]))
    ensures steps[j].Stop? ==> Collect(steps[j..]) == Ok([])
    ensures steps[j].Fail? ==> Collect(steps[j..]) == Err(steps[j].error)
  {
    assert steps[j..][1..] == steps[j + 1..];
  }

  lemma PrependNothing<T, E>(r: Result<seq<T>, E>)
    ensures Prepend([], r) == r
  {
    if r.Ok? { assert [] + r.value == r.value; }
  }

  lemma PrependAssoc<T, E>(a: seq<T>, b: seq<T>, r: Result<seq<T>, E>)
    ensures Prepend(a, Prepend(b, r)) == Prepend(a + b, r)
  {
    if r.Ok? { assert a + (b + r.value) == (a + b) + r.value; }
  }
}
