/** Regrouping and slicing facts about sequence concatenation that the proofs cite by name. */
module SeqFacts {

  lemma RegroupConcat<T>(a: seq<T>, b: seq<T>, c: seq<T>, d: seq<T>)
    ensures a + ((b + c) + d) == (a + b) + c + d
  {
  }

  lemma ConcatRightNested<T>(a: seq<T>, b: seq<T>, c: seq<T>, d: seq<T>)
    ensures a + b + c + d == a + (b + (c + d))
  {
  }

  /** A slice of the middle part of a concatenation. */
  lemma SliceOfMiddle<T>(pre: seq<T>, mid: seq<T>, post: seq<T>, i: nat, j: nat)
    requires i <= j <= |mid|
    ensures (pre + mid + post)[|pre| + i..|pre| + j] == mid[i..j]
  {
    var whole := pre + mid + post;
    assert forall n :: 0 <= n < j - i ==> whole[|pre| + i..|pre| + j][n] == mid[i..j][n];
  }

  /** An element of the middle part of a concatenation. */
  lemma IndexOfMiddle<T>(pre: seq<T>, mid: seq<T>, post: seq<T>, i: nat)
    requires i < |mid|
    ensures |pre + mid + post| == |pre| + |mid| + |post|
    ensures (pre + mid + post)[|pre| + i] == mid[i]
  {
  }

  lemma PairsConcat<T>(a: T, b: T, c: T, d: T)
    ensures [a, b] + [c, d] == [a, b, c, d]
  {
  }
}
