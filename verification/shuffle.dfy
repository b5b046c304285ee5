/**
 * Fisher-Yates shuffle with the random source made an input. The loop visits
 * positions i = n-1 down to 1 and swaps position i with a position j in
 * [0, i]; `oracle[i]` is the j drawn at position i (`oracle[0]` is never used
 * and can only be 0).
 */
module Shuffle {

  /** Every draw lies in [0, i], as `floor(random() * (i + 1))` does. */
  predicate ValidOracle(oracle: seq<nat>, n: nat)
  {
    |oracle| == n && forall i :: 0 <= i < n ==> oracle[i] <= i
  }

  /** Exchange the elements at two positions. */
  function Swap<T>(s: seq<T>, i: nat, j: nat): (r: seq<T>)
    requires i < |s| && j < |s|
    ensures |r| == |s| && r[i] == s[j] && r[j] == s[i]
    ensures forall k :: 0 <= k < |s| && k != i && k != j ==> r[k] == s[k]
  {
    s[i := s[j]][j := s[i]]
  }

  lemma SwapPermutes<T>(s: seq<T>, i: nat, j: nat)
    requires i < |s| && j < |s|
    ensures multiset(Swap(s, i, j)) == multiset(s)
  {
  }

  /** The passes at positions i, i-1, ..., 1, applied in that order. */
  function Passes<T>(s: seq<T>, oracle: seq<nat>, i: nat): (r: seq<T>)
    requires ValidOracle(oracle, |s|) && i < |s|
    ensures |r| == |s|
    decreases i
  {
    if i == 0 then s else Passes(Swap(s, i, oracle[i]), oracle, i - 1)
  }

  /** The whole shuffle, as a pure function of the deck and the draws: a reordering of the deck. */
  function FisherYates<T>(s: seq<T>, oracle: seq<nat>): (r: seq<T>)
    requires ValidOracle(oracle, |s|)
    ensures |r| == |s|
    ensures multiset(r) == multiset(s)
  {
    if |s| == 0 then s
    else
      PassesPermute(s, oracle, |s| - 1);
      Passes(s, oracle, |s| - 1)
  }

  lemma {:induction false} PassesPermute<T>(s: seq<T>, oracle: seq<nat>, i: nat)
    requires ValidOracle(oracle, |s|) && i < |s|
    ensures multiset(Passes(s, oracle, i)) == multiset(s)
    decreases i
  {
    if i > 0 {
      SwapPermutes(s, i, oracle[i]);
      PassesPermute(Swap(s, i, oracle[i]), oracle, i - 1);
    }
  }

  lemma SwapSelf<T>(s: seq<T>, i: nat)
    requires i < |s|
    ensures Swap(s, i, i) == s
  {
    assert s[i := s[i]] == s;
  }

  /** Drawing j = i at every step swaps each card with itself and leaves the deck as it was. */
  lemma {:induction false} IdentityDraws<T>(s: seq<T>, oracle: seq<nat>, i: nat)
    requires ValidOracle(oracle, |s|) && i < |s|
    requires forall k :: 0 <= k < |s| ==> oracle[k] == k
    ensures Passes(s, oracle, i) == s
    decreases i
  {
    if i > 0 {
      SwapSelf(s, i);
      IdentityDraws(s, oracle, i - 1);
    }
  }

  /** Pass i leaves every position above i alone, so position i is final once pass i is done. */
  lemma {:induction false} PassesFixAbove<T>(s: seq<T>, oracle: seq<nat>, i: nat)
    requires ValidOracle(oracle, |s|) && i < |s|
    ensures forall k :: i < k < |s| ==> Passes(s, oracle, i)[k] == s[k]
    decreases i
  {
    if i > 0 {
      PassesFixAbove(Swap(s, i, oracle[i]), oracle, i - 1);
    }
  }

  /**
   * The last card of the shuffled deck (the first one dealt) is the card the
   * first draw picked.
   */
  lemma TopCardIsFirstDraw<T>(s: seq<T>, oracle: seq<nat>)
    requires ValidOracle(oracle, |s|) && |s| > 0
    ensures FisherYates(s, oracle)[|s| - 1] == s[oracle[|s| - 1]]
  {
    var n := |s|;
    if n > 1 {
      var t := Swap(s, n - 1, oracle[n - 1]);
      PassesFixAbove(t, oracle, n - 2);
    }
  }

  /** The in-place shuffle on an array, as the game runs it on a fresh deck. */
  method ShuffleDeck<T>(deck: seq<T>, oracle: seq<nat>) returns (shuffled: seq<T>)
    requires ValidOracle(oracle, |deck|)
    ensures shuffled == FisherYates(deck, oracle)
    ensures multiset(shuffled) == multiset(deck)
  {
    if |deck| == 0 {
      return deck;
    }
    var a := new T[|deck|](k requires 0 <= k < |deck| => deck[k]);
    var i := a.Length - 1;
    assert a[..] == deck;
    while i > 0
      invariant 0 <= i < a.Length == |deck|
      invariant Passes(a[..], oracle, i) == FisherYates(deck, oracle)
      decreases i
    {
      var j := oracle[i];
      ghost var before := a[..];
      var top := a[i];
      a[i] := a[j];
      a[j] := top;
      assert a[..] == Swap(before, i, j);
      i := i - 1;
    }
    shuffled := a[..];
  }
}
