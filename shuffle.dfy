/**
 * The Fisher–Yates (Knuth) shuffle of `shuffleArray`: a copy of the input is
 * shuffled in place by a descending loop that swaps slot `i` with a slot `j`
 * drawn from `[0, i]`.
 *
 * The random source is a parameter: `draws[i]` is the index the loop draws when
 * it stands at `i` (the value of `Math.floor(Math.random() * (i + 1))`), so it
 * lies in `[0, i]`. `draws[0]` is never read, because the loop stops at 1.
 */
module Shuffle {

  /** `draws` supplies one admissible draw for every loop index of a shuffle of `n` items. */
  predicate ValidDraws(draws: seq<nat>, n: nat) {
    |draws| == n && forall i :: 0 < i < n ==> draws[i] <= i
  }

  /** Exchanges slots `i` and `j` (the destructuring swap; a no-op when `i == j`). */
  function Swap<T>(s: seq<T>, i: nat, j: nat): (r: seq<T>)
    requires i < |s| && j < |s|
    ensures |r| == |s| && r[i] == s[j] && r[j] == s[i]
    ensures forall k :: 0 <= k < |s| && k != i && k != j ==> r[k] == s[k]
  {
    s[i := s[j]][j := s[i]]
  }

  /** An exchange keeps the same items. */
  lemma SwapPermutes<T>(s: seq<T>, i: nat, j: nat)
    requires i < |s| && j < |s|
    ensures multiset(Swap(s, i, j)) == multiset(s)
  {
  }

  /** The loop passes for indices `i, i - 1, ..., 1`, applied to `s`. */
  function ShuffleFrom<T>(s: seq<T>, draws: seq<nat>, i: int): (r: seq<T>)
    requires ValidDraws(draws, |s|) && i < |s|
    ensures |r| == |s|
    decreases i
  {
    if i <= 0 then s else ShuffleFrom(Swap(s, i, draws[i]), draws, i - 1)
  }

  /** The whole shuffle: the loop runs from the last index down to 1. */
  function Shuffled<T>(s: seq<T>, draws: seq<nat>): (r: seq<T>)
    requires ValidDraws(draws, |s|)
    ensures |r| == |s|
  {
    ShuffleFrom(s, draws, |s| - 1)
  }

  /** Every pass only exchanges two slots, so the result is a permutation of the input. */
  lemma {:induction false} ShuffleFromPermutes<T>(s: seq<T>, draws: seq<nat>, i: int)
    requires ValidDraws(draws, |s|) && i < |s|
    ensures multiset(ShuffleFrom(s, draws, i)) == multiset(s)
    decreases i
  {
    if i > 0 {
      SwapPermutes(s, i, draws[i]);
      ShuffleFromPermutes(Swap(s, i, draws[i]), draws, i - 1);
    }
  }

  /** Slots above the current loop index are final: later passes never touch them. */
  lemma {:induction false} ShuffleFromKeepsTail<T>(s: seq<T>, draws: seq<nat>, i: int, p: nat)
    requires ValidDraws(draws, |s|) && i < p < |s|
    ensures ShuffleFrom(s, draws, i)[p] == s[p]
    decreases i
  {
    if i > 0 {
      ShuffleFromKeepsTail(Swap(s, i, draws[i]), draws, i - 1, p);
    }
  }

  /** Any item of the input can end up in the last slot: some admissible draw puts it there. */
  lemma EveryItemCanLandLast<T>(s: seq<T>, k: nat)
    requires 2 <= |s| && k < |s|
    ensures exists draws :: ValidDraws(draws, |s|) && Shuffled(s, draws)[|s| - 1] == s[k]
  {
    var n := |s|;
    var draws := seq(n, i requires 0 <= i < n => if i == n - 1 then k else 0);
    assert ValidDraws(draws, n);
    var first := Swap(s, n - 1, k);
    assert Shuffled(s, draws) == ShuffleFrom(first, draws, n - 2);
    ShuffleFromKeepsTail(first, draws, n - 2, n - 1);
  }

  /**
   * `shuffleArray`: copies the input into a fresh array and shuffles the copy in
   * place; the argument itself is a value and stays as it was.
   */
  method ShuffleArray<T>(input: seq<T>, draws: seq<nat>) returns (r: seq<T>)
    requires ValidDraws(draws, |input|)
    ensures r == Shuffled(input, draws)
    ensures |r| == |input| && multiset(r) == multiset(input)
  {
    var a := new T[|input|](k requires 0 <= k < |input| => input[k]);
    assert a[..] == input;
    var i := a.Length - 1;
    while i > 0
      invariant -1 <= i < a.Length
      invariant multiset(a[..]) == multiset(input)
      invariant ShuffleFrom(a[..], draws, i) == Shuffled(input, draws)
    {
      var j := draws[i];
      ghost var before := a[..];
      var t := a[i];
      a[i] := a[j];
      a[j] := t;
      assert a[..] == Swap(before, i, j);
      SwapPermutes(before, i, j);
      i := i - 1;
    }
    r := a[..];
  }
}
