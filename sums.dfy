/** Sums of integer sequences, shared by the order summary and the placeholder hash. */
module Sums {

  /** The sum of the elements, left to right. */
  function SumOf(xs: seq<int>): int
    decreases |xs|
  {
    if |xs| == 0 then 0 else xs[0] + SumOf(xs[1..])
  }

  /** The sum of a concatenation is the sum of the parts. */
  lemma {:induction false} SumOfConcat(a: seq<int>, b: seq<int>)
    ensures SumOf(a + b) == SumOf(a) + SumOf(b)
    decreases |a|
  {
    if |a| == 0 {
      assert a + b == b;
    } else {
      assert (a + b)[1..] == a[1..] + b;
      SumOfConcat(a[1..], b);
    }
  }

  /** Non-negative elements have a non-negative sum. */
  lemma {:induction false} SumOfNonNegative(xs: seq<int>)
    requires forall k :: 0 <= k < |xs| ==> xs[k] >= 0
    ensures SumOf(xs) >= 0
    decreases |xs|
  {
    if |xs| > 0 {
      SumOfNonNegative(xs[1..]);
    }
  }
}
