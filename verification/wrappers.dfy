/** The optional and fallible values shared by the components. */
module Wrappers {

  datatype Option<+T> = None | Some(value: T)

  /** A Go result pair `(value, error)`; an error carries its message. */
  datatype Result<+T> = Success(value: T) | Failure(error: string)

  /** Take a fallible step for each item from the left, up to the first failure. */
  function Fold<S, T>(step: (S, T) -> Result<S>, start: S, items: seq<T>): Result<S> {
    if items == [] then Success(start)
    else
      match Fold(step, start, items[..|items| - 1])
      case Failure(error) => Failure(error)
      case Success(s) => step(s, items[|items| - 1])
  }

  lemma {:induction false} FoldStopsAtFailure<S, T>(step: (S, T) -> Result<S>, start: S, items: seq<T>, n: nat)
    requires n <= |items| && Fold(step, start, items[..n]).Failure?
    ensures Fold(step, start, items) == Fold(step, start, items[..n])
    decreases |items|
  {
    if n == |items| {
      assert items[..n] == items;
    } else {
      assert items[..|items| - 1][..n] == items[..n];
      FoldStopsAtFailure(step, start, items[..|items| - 1], n);
    }
  }

  /** What holds at the start and is kept by each step that succeeds holds at the end. */
  lemma {:induction false} FoldKeeps<S(!new), T(!new)>(step: (S, T) -> Result<S>, start: S, items: seq<T>,
      holds: (seq<T>, S) -> bool)
    requires Fold(step, start, items).Success? && holds([], start)
    requires forall before, s, item :: holds(before, s) && step(s, item).Success? ==>
             holds(before + [item], step(s, item).value)
    ensures holds(items, Fold(step, start, items).value)
    decreases |items|
  {
    if items != [] {
      var before, last := items[..|items| - 1], items[|items| - 1];
      FoldKeeps(step, start, before, holds);
      assert before + [last] == items;
    }
  }

  /** If each step succeeds wherever something holds and keeps it, the whole does. */
  lemma {:induction false} FoldSucceeds<S(!new), T(!new)>(step: (S, T) -> Result<S>, start: S, items: seq<T>,
      holds: (seq<T>, S) -> bool)
    requires holds([], start)
    requires forall before, s, item :: holds(before, s) && item in items ==>
             step(s, item).Success? && holds(before + [item], step(s, item).value)
    ensures Fold(step, start, items).Success? && holds(items, Fold(step, start, items).value)
    decreases |items|
  {
    if items != [] {
      var before, last := items[..|items| - 1], items[|items| - 1];
      assert last in items && forall item :: item in before ==> item in items;
      FoldSucceeds(step, start, before, holds);
      assert before + [last] == items;
    }
  }

  lemma SubsetSize<T>(a: set<T>, b: set<T>)
    requires a <= b
    ensures |a| <= |b|
  {
    assert b == a + (b - a);
    assert |b| == |a| + |b - a|;
  }
}
