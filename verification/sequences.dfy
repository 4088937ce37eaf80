/** Counting and duplicate-freedom over sequences, shared by both state machines. */
module Sequences {

  /** How many times `x` occurs in `xs`. */
  function Occurrences<T(==)>(xs: seq<T>, x: T): nat
  {
    if xs == [] then 0
    else (if xs[0] == x then 1 else 0) + Occurrences(xs[1..], x)
  }

  /** No element occurs twice. */
  predicate Distinct<T(==)>(xs: seq<T>)
  {
    forall i, j :: 0 <= i < j < |xs| ==> xs[i] != xs[j]
  }

  /** In a duplicate-free sequence every element occurs exactly once. */
  lemma {:induction false} OccurrencesOfDistinct<T>(xs: seq<T>, x: T)
    requires Distinct(xs)
    ensures Occurrences(xs, x) == (if x in xs then 1 else 0)
  {
    if xs != [] {
      var tail := xs[1..];
      assert Distinct(tail) by {
        forall i, j | 0 <= i < j < |tail|
          ensures tail[i] != tail[j]
        {
          assert tail[i] == xs[i + 1] && tail[j] == xs[j + 1];
        }
      }
      OccurrencesOfDistinct(tail, x);
      if xs[0] == x {
        assert x !in tail by {
          forall k | 0 <= k < |tail|
            ensures tail[k] != x
          {
            assert tail[k] == xs[k + 1];
          }
        }
      } else {
        assert x in xs <==> x in tail by {
          assert xs == [xs[0]] + tail;
        }
      }
    }
  }

  /** Occurrences add up over concatenation. */
  lemma {:induction false} OccurrencesConcat<T>(a: seq<T>, b: seq<T>, x: T)
    ensures Occurrences(a + b, x) == Occurrences(a, x) + Occurrences(b, x)
  {
    if a == [] {
      assert a + b == b;
    } else {
      assert (a + b)[0] == a[0];
      assert (a + b)[1..] == a[1..] + b;
      OccurrencesConcat(a[1..], b, x);
    }
  }
}
