/** The answer shuffle (backend/helpers/shuffle.js): Durstenfeld's in-place Fisher–Yates.
    `Math.floor(Math.random() * counter)` is an oracle: `draws[t]` is the index drawn in the
    t-th iteration, when `counter` is still `|draws| - t`, so it lies in [0, |draws| - t). */
module Shuffle {

  /** Every draw is one `Math.floor(Math.random() * counter)` could give. */
  predicate ValidDraws(n: nat, draws: seq<nat>)
  {
    |draws| == n && forall t :: 0 <= t < n ==> draws[t] < n - t
  }

  /** `s` with the elements at `i` and `j` exchanged. */
  function Swap<T>(s: seq<T>, i: nat, j: nat): (r: seq<T>)
    requires i < |s| && j < |s|
    ensures |r| == |s| && r[i] == s[j] && r[j] == s[i]
    ensures forall p :: 0 <= p < |s| && p != i && p != j ==> r[p] == s[p]
  {
    s[i := s[j]][j := s[i]]
  }

  /** A swap is a permutation. */
  lemma SwapPermutes<T>(s: seq<T>, i: nat, j: nat)
    requires i < |s| && j < |s|
    ensures multiset(Swap(s, i, j)) == multiset(s)
  {
    var r := s[i := s[j]];
    assert multiset(r) == multiset(s) - multiset{s[i]} + multiset{s[j]};
    assert multiset(r[j := s[i]]) == multiset(r) - multiset{r[j]} + multiset{s[i]};
  }

  /** The array after the remaining `counter` iterations of the loop, starting from `s`. */
  function ShuffleFrom<T>(s: seq<T>, counter: nat, draws: seq<nat>): (r: seq<T>)
    requires counter <= |s| && ValidDraws(|s|, draws)
    ensures |r| == |s|
    decreases counter
  {
    if counter == 0 then s
    else ShuffleFrom(Swap(s, counter - 1, draws[|s| - counter]), counter - 1, draws)
  }

  /** `shuffle`: swaps in place, `array.length` times, and returns the same array. */
  method Shuffle<T>(a: array<T>, draws: seq<nat>) returns (r: array<T>)
    requires ValidDraws(a.Length, draws)
    modifies a
    ensures r == a
    ensures a[..] == ShuffleFrom(old(a[..]), a.Length, draws)
    ensures multiset(a[..]) == multiset(old(a[..]))
  {
    var counter := a.Length;
    while counter > 0
      invariant 0 <= counter <= a.Length
      invariant ShuffleFrom(a[..], counter, draws) == ShuffleFrom(old(a[..]), a.Length, draws)
      invariant a[counter..] == ShuffleFrom(old(a[..]), a.Length, draws)[counter..]
    {
      var randIdx := draws[a.Length - counter];
      counter := counter - 1;
      ghost var before := a[..];
      ShuffleKeepsSuffix(Swap(before, counter, randIdx), counter, draws);
      a[counter], a[randIdx] := a[randIdx], a[counter];
      assert a[..] == Swap(before, counter, randIdx);
    }
    ShufflePermutes(old(a[..]), a.Length, draws);
    r := a;
  }

  /** The remaining iterations leave the positions from `counter` on untouched: the
      Fisher–Yates fixed suffix. */
  lemma {:induction false} ShuffleKeepsSuffix<T>(s: seq<T>, counter: nat, draws: seq<nat>)
    requires counter <= |s| && ValidDraws(|s|, draws)
    ensures ShuffleFrom(s, counter, draws)[counter..] == s[counter..]
    decreases counter
  {
    if counter > 0 {
      var s' := Swap(s, counter - 1, draws[|s| - counter]);
      ShuffleKeepsSuffix(s', counter - 1, draws);
      assert s'[counter..] == s[counter..];
    }
  }

  /** The result is a permutation of the input. */
  lemma {:induction false} ShufflePermutes<T>(s: seq<T>, counter: nat, draws: seq<nat>)
    requires counter <= |s| && ValidDraws(|s|, draws)
    ensures multiset(ShuffleFrom(s, counter, draws)) == multiset(s)
    decreases counter
  {
    if counter > 0 {
      SwapPermutes(s, counter - 1, draws[|s| - counter]);
      ShufflePermutes(Swap(s, counter - 1, draws[|s| - counter]), counter - 1, draws);
    }
  }

  /** One iteration of the loop. */
  lemma ShuffleStep<T>(s: seq<T>, counter: nat, draws: seq<nat>)
    requires 0 < counter <= |s| && ValidDraws(|s|, draws)
    ensures ShuffleFrom(s, counter, draws) == ShuffleFrom(Swap(s, counter - 1, draws[|s| - counter]), counter - 1, draws)
  {
  }

  /** Empty and one-element arrays come back unchanged, whatever the oracle says. */
  lemma ShortUnchanged<T>(s: seq<T>, draws: seq<nat>)
    requires |s| <= 1 && ValidDraws(|s|, draws)
    ensures ShuffleFrom(s, |s|, draws) == s
  {
    if |s| == 1 {
      assert draws[0] == 0;
      assert Swap(s, 0, 0) == s;
    }
  }

  /** The draws when `Math.random()` always returns 0.5: floor(counter / 2). */
  function HalfDraws(n: nat): (d: seq<nat>)
    ensures ValidDraws(n, d)
    ensures forall t :: 0 <= t < n ==> d[t] == (n - t) / 2
  {
    seq(n, t requires 0 <= t < n => (n - t) / 2)
  }

  /** The vectors of the shuffle test, with `Math.random` fixed at 0.5. */
  lemma HalfDrawsVectors()
    ensures ShuffleFrom(["Wales", "Moldova", "Czech Republic", "Denmark"], 4, HalfDraws(4))
         == ["Wales", "Denmark", "Moldova", "Czech Republic"]
    ensures ShuffleFrom(["HTC", "Oculus", "Google", "Razer"], 4, HalfDraws(4))
         == ["HTC", "Razer", "Oculus", "Google"]
  {
    HalfDrawsOnFour(["Wales", "Moldova", "Czech Republic", "Denmark"]);
    HalfDrawsOnFour(["HTC", "Oculus", "Google", "Razer"]);
  }

  /** With `Math.random` fixed at 0.5 a four-element array always ends up as
      [a0, a3, a1, a2]. */
  lemma HalfDrawsOnFour<T>(s: seq<T>)
    requires |s| == 4
    ensures ShuffleFrom(s, 4, HalfDraws(4)) == [s[0], s[3], s[1], s[2]]
  {
    assert HalfDraws(4) == [2, 1, 1, 0];
    DrawsTwoOneOneZero(s, HalfDraws(4));
  }

  /** The four iterations with draws 2, 1, 1, 0, one swap at a time. */
  lemma DrawsTwoOneOneZero<T>(s: seq<T>, d: seq<nat>)
    requires |s| == 4 && d == [2, 1, 1, 0]
    ensures ShuffleFrom(s, 4, d) == [s[0], s[3], s[1], s[2]]
  {
    var s1 := [s[0], s[1], s[3], s[2]];
    var s2 := [s[0], s[3], s[1], s[2]];
    assert Swap(s, 3, 2) == s1;
    ShuffleStep(s, 4, d);
    assert Swap(s1, 2, 1) == s2;
    ShuffleStep(s1, 3, d);
    assert Swap(s2, 1, 1) == s2;
    ShuffleStep(s2, 2, d);
    assert Swap(s2, 0, 0) == s2;
    ShuffleStep(s2, 1, d);
  }
}
