/**
 * Hand scoring. Aces are first counted as 11; while the total is over 21 and
 * some ace still counts 11, one ace at a time is demoted to 1.
 */
module Scoring {
  import opened Cards

  /** Face value of a number card (2 through 10); picture cards and aces are not number cards. */
  function NumberValue(r: Rank): nat
    requires r !in {Jack, Queen, King, Ace}
  {
    match r
    case Two => 2
    case Three => 3
    case Four => 4
    case Five => 5
    case Six => 6
    case Seven => 7
    case Eight => 8
    case Nine => 9
    case Ten => 10
  }

  /**
   * What a card adds in the summing pass: an ace 11, J/Q/K 10, a number card
   * its face value. Only an ace is worth 11, and exactly the ten-valued
   * ranks are worth 10.
   */
  function InitialValue(r: Rank): (v: nat)
    ensures 2 <= v <= 11
    ensures v == 11 <==> r == Ace
    ensures v == 10 <==> r in {Ten, Jack, Queen, King}
  {
    if r == Ace then 11
    else if r in {King, Queen, Jack} then 10
    else NumberValue(r)
  }

  /** A number card, 2 through 10, adds its face value: its place in `Ranks` plus 2. */
  lemma FaceValue(r: Rank)
    ensures r !in {Jack, Queen, King, Ace} ==> InitialValue(r) == RankIndex(r) + 2
  {
  }

  /** What a card is worth when every ace counts 1. */
  function HardValue(r: Rank): nat
  {
    if r == Ace then 1 else InitialValue(r)
  }

  /** The number of aces the summing pass counts: at most one per card. */
  function AceCount(cards: seq<Card>): (a: nat)
    ensures a <= |cards|
  {
    if |cards| == 0 then 0 else AceCount(cards[..|cards| - 1]) + (if cards[|cards| - 1].rank == Ace then 1 else 0)
  }

  /** The ace count is zero exactly when no card of the hand is an ace. */
  lemma {:induction false} NoAces(cards: seq<Card>)
    ensures AceCount(cards) == 0 <==> forall k :: 0 <= k < |cards| ==> cards[k].rank != Ace
    decreases |cards|
  {
    if |cards| > 0 {
      var front := cards[..|cards| - 1];
      NoAces(front);
      assert forall k :: 0 <= k < |front| ==> front[k] == cards[k];
    }
  }

  /** The indices of the aces in a hand. */
  ghost function AcePositions(cards: seq<Card>): set<nat>
  {
    set k: nat | k < |cards| && cards[k].rank == Ace
  }

  /** The ace count is the number of positions that hold an ace. */
  lemma {:induction false} AceCountCounts(cards: seq<Card>)
    ensures AceCount(cards) == |AcePositions(cards)|
    decreases |cards|
  {
    if |cards| > 0 {
      var n := |cards| - 1;
      var front := cards[..n];
      AceCountCounts(front);
      assert forall k :: 0 <= k < n ==> front[k] == cards[k];
      if cards[n].rank == Ace {
        assert AcePositions(cards) == AcePositions(front) + {n};
      } else {
        assert AcePositions(cards) == AcePositions(front);
      }
    }
  }

  /** The total with every ace counted as 1. */
  function HardSum(cards: seq<Card>): nat
  {
    if |cards| == 0 then 0 else HardSum(cards[..|cards| - 1]) + HardValue(cards[|cards| - 1].rank)
  }

  /**
   * The total after the summing pass, before any ace is demoted: at least 2
   * per card.
   */
  function SoftSum(cards: seq<Card>): (total: nat)
    ensures total >= 2 * |cards|
    decreases |cards|
  {
    if |cards| == 0 then 0 else SoftSum(cards[..|cards| - 1]) + InitialValue(cards[|cards| - 1].rank)
  }

  /** The summing pass is the all-aces-low total plus 10 for every ace. */
  lemma {:induction false} SoftSumSplits(cards: seq<Card>)
    ensures SoftSum(cards) == HardSum(cards) + 10 * AceCount(cards)
    decreases |cards|
  {
    if |cards| > 0 {
      SoftSumSplits(cards[..|cards| - 1]);
    }
  }

  /** `t` is what the hand is worth for some choice of 1 or 11 for each ace. */
  ghost predicate Achievable(cards: seq<Card>, t: int)
  {
    Reachable(HardSum(cards), AceCount(cards), t)
  }

  /** `t` is `hard` plus 10 for some number of the `aces`. */
  ghost predicate Reachable(hard: int, aces: nat, t: int)
  {
    hard <= t <= hard + 10 * aces && (t - hard) % 10 == 0
  }

  /**
   * The blackjack value of a hand: an achievable total that is the largest
   * achievable one not above 21, and is the all-aces-low total when every
   * achievable total is above 21.
   */
  ghost predicate IsBestTotal(cards: seq<Card>, t: int)
  {
    && Achievable(cards, t)
    && (t > 21 ==> t == HardSum(cards))
    && (forall u :: Achievable(cards, u) && u <= 21 ==> u <= t)
  }

  /**
   * The demotion loop: while the total is over 21 and an ace still counts 11,
   * take 10 off and count one ace fewer. It takes off a multiple of 10, at most
   * one 10 per ace; it leaves a total over 21 only after demoting every ace;
   * and it never demotes past the first total that is at most 21.
   */
  function Demote(total: int, aces: nat): (r: int)
    ensures r <= total && total - r <= 10 * aces && (total - r) % 10 == 0
    ensures r > 21 ==> r == total - 10 * aces
    ensures r < total ==> r >= 12
    decreases aces
  {
    if total > 21 && aces > 0 then Demote(total - 10, aces - 1) else total
  }

  /** The hand total as the game computes it. */
  function Total(cards: seq<Card>): (t: int)
    ensures IsBestTotal(cards, t)
  {
    SoftSumSplits(cards);
    DemoteIsBest(HardSum(cards), AceCount(cards));
    Demote(SoftSum(cards), AceCount(cards))
  }

  /**
   * Demoting from the all-high total gives a reachable total that beats every
   * other reachable total not above 21, and is the all-low total when it is
   * still over 21.
   */
  lemma DemoteIsBest(hard: int, aces: nat)
    ensures Reachable(hard, aces, Demote(hard + 10 * aces, aces))
    ensures Demote(hard + 10 * aces, aces) > 21 ==> Demote(hard + 10 * aces, aces) == hard
    ensures forall u :: Reachable(hard, aces, u) && u <= 21 ==> u <= Demote(hard + 10 * aces, aces)
  {
  }

  /** The best-total description determines the value: nothing else satisfies it. */
  lemma BestTotalIsUnique(cards: seq<Card>, t: int)
    requires IsBestTotal(cards, t)
    ensures t == Total(cards)
  {
  }

  /** Every card is worth at least 1, so a hand's total is at least its size. */
  lemma {:induction false} HandSizeBound(cards: seq<Card>)
    ensures |cards| <= HardSum(cards) <= Total(cards)
    decreases |cards|
  {
    if |cards| > 0 {
      HandSizeBound(cards[..|cards| - 1]);
    }
  }

  /** Ten-valued ranks: 10, J, Q and K. */
  predicate TenValued(r: Rank)
  {
    r in {Ten, Jack, Queen, King}
  }

  /** Two cards make 21 exactly when one is an ace and the other is worth ten. */
  lemma TwoCardTwentyOne(a: Card, b: Card)
    ensures Total([a, b]) == 21 <==> (a.rank == Ace && TenValued(b.rank)) || (TenValued(a.rank) && b.rank == Ace)
  {
    PairSums(a, b);
    var h := [a, b];
    if (a.rank == Ace && TenValued(b.rank)) || (TenValued(a.rank) && b.rank == Ace) {
      assert Achievable(h, 21);
    }
  }

  lemma PairSums(a: Card, b: Card)
    ensures HardSum([a, b]) == HardValue(a.rank) + HardValue(b.rank)
    ensures AceCount([a, b]) == (if a.rank == Ace then 1 else 0) + (if b.rank == Ace then 1 else 0)
  {
    assert [a, b][..1] == [a];
    assert [a][..0] == [];
    assert HardSum([a]) == HardValue(a.rank);
    assert AceCount([a]) == (if a.rank == Ace then 1 else 0);
  }

  /** Two cards are never over 21: two aces count 12. */
  lemma TwoCardsNeverBust(a: Card, b: Card)
    ensures Total([a, b]) <= 21
  {
    PairSums(a, b);
  }

  /** Worked examples: A,K,5 is 16; A,A,9 is 21; K,Q is 20. */
  lemma Examples()
    ensures Total([Card(Spades, Ace), Card(Hearts, King), Card(Clubs, Five)]) == 16
    ensures Total([Card(Spades, Ace), Card(Hearts, Ace), Card(Clubs, Nine)]) == 21
    ensures Total([Card(Spades, King), Card(Hearts, Queen)]) == 20
  {
    var akf := [Card(Spades, Ace), Card(Hearts, King), Card(Clubs, Five)];
    assert akf[..2] == [Card(Spades, Ace), Card(Hearts, King)];
    PairSums(Card(Spades, Ace), Card(Hearts, King));
    BestTotalIsUnique(akf, 16);
    var aan := [Card(Spades, Ace), Card(Hearts, Ace), Card(Clubs, Nine)];
    assert aan[..2] == [Card(Spades, Ace), Card(Hearts, Ace)];
    PairSums(Card(Spades, Ace), Card(Hearts, Ace));
    BestTotalIsUnique(aan, 21);
    PairSums(Card(Spades, King), Card(Hearts, Queen));
    BestTotalIsUnique([Card(Spades, King), Card(Hearts, Queen)], 20);
  }
}
