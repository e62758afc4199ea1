/** Concatenation of a list of sequences: Python's "".join over a list of
    strings and numpy's concatenate over a list of sample arrays. */
module Sequences {

  function Concat<T>(xs: seq<seq<T>>): seq<T>
  {
    if xs == [] then [] else xs[0] + Concat(xs[1..])
  }

  /** Sum of the lengths of the parts. */
  function TotalLength<T>(xs: seq<seq<T>>): nat
  {
    if xs == [] then 0 else |xs[0]| + TotalLength(xs[1..])
  }

  /** Appending one more part appends its elements to the concatenation. */
  lemma {:induction false} ConcatSnoc<T>(xs: seq<seq<T>>, x: seq<T>)
    ensures Concat(xs + [x]) == Concat(xs) + x
  {
    if xs == [] {
      assert [] + [x] == [x];
      assert Concat([x]) == x + Concat([x][1..]);
    } else {
      assert (xs + [x])[0] == xs[0];
      assert (xs + [x])[1..] == xs[1..] + [x];
      ConcatSnoc(xs[1..], x);
    }
  }

  /** The concatenation is exactly as long as its parts together. */
  lemma {:induction false} ConcatLength<T>(xs: seq<seq<T>>)
    ensures |Concat(xs)| == TotalLength(xs)
  {
    if xs != [] {
      ConcatLength(xs[1..]);
    }
  }

  /** Parts that are empty contribute nothing. */
  lemma {:induction false} ConcatEmptyIff<T>(xs: seq<seq<T>>)
    ensures Concat(xs) == [] <==> forall i :: 0 <= i < |xs| ==> xs[i] == []
  {
    if xs != [] {
      ConcatEmptyIff(xs[1..]);
      assert forall i :: 1 <= i < |xs| ==> xs[i] == xs[1..][i - 1];
    }
  }
}
