/**
 * `Collections.shuffle`: a Fisher–Yates pass that walks the list from the
 * back and swaps position `i - 1` with a position drawn from `[0, i)`.  The
 * random draws are a parameter, so every shuffle the library can produce is
 * one of these, and each is a permutation of its input.
 */
module Shuffles {
  /** Exchanges two positions of a sequence. */
  function Swap<T>(s: seq<T>, i: nat, j: nat): (r: seq<T>)
    requires i < |s| && j < |s|
    ensures |r| == |s| && r[i] == s[j] && r[j] == s[i]
    ensures forall k :: 0 <= k < |s| && k != i && k != j ==> r[k] == s[k]
  {
    s[i := s[j]][j := s[i]]
  }

  /** A swap keeps every element with its multiplicity. */
  lemma SwapPermutes<T>(s: seq<T>, i: nat, j: nat)
    requires i < |s| && j < |s|
    ensures multiset(Swap(s, i, j)) == multiset(s)
  {
    var t := s[i := s[j]];
    assert multiset(t) == multiset(s) - multiset{s[i]} + multiset{s[j]};
    assert multiset(t[j := s[i]]) == multiset(t) - multiset{t[j]} + multiset{s[i]};
  }

  /**
   * The pass over positions `i - 1` down to 1; `draws(i)` is the library's
   * `nextInt` result, reduced into `[0, i)`.
   */
  function ShuffleDown<T>(s: seq<T>, i: nat, draws: nat -> nat): (r: seq<T>)
    requires i <= |s|
    ensures |r| == |s|
    ensures multiset(r) == multiset(s)
    decreases i
  {
    if i <= 1 then s
    else
      var t := Swap(s, i - 1, draws(i) % i);
      SwapPermutes(s, i - 1, draws(i) % i);
      ShuffleDown(t, i - 1, draws)
  }

  /** `Collections.shuffle(list)` with its random draws given. */
  function Shuffle<T>(s: seq<T>, draws: nat -> nat): (r: seq<T>)
    ensures |r| == |s|
    ensures multiset(r) == multiset(s)
  {
    ShuffleDown(s, |s|, draws)
  }
}
