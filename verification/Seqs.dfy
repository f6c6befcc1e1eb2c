/** What several modules need of sequences and the language does not say: the same thing
    any number of times, nothing twice, and that joining three is the same whichever two
    are joined first, which the verifier has to be told at each place where it matters
    rather than left to look for.  Nothing here is about keyboards or phones. */
module Seqs {
  function Repeated<T>(x: T, n: nat): (r: seq<T>)
    ensures |r| == n && forall i :: 0 <= i < n ==> r[i] == x
  {
    seq(n, _ => x)
  }

  ghost predicate NoneTwice<T>(xs: seq<T>) {
    forall i, j :: 0 <= i < j < |xs| ==> xs[i] != xs[j]
  }

  lemma Regroup<T>(a: seq<T>, b: seq<T>, c: seq<T>)
    ensures a + b + c == a + (b + c)
  {}
}
