/** Playing cards and the ordered 52-card deck the game builds for every round. */
module Cards {

  /** The four suits, in the order the deck is built: spades, hearts, diamonds, clubs. */
  datatype Suit = Spades | Hearts | Diamonds | Clubs

  /** The thirteen ranks, in the order the deck is built: 2 through 10, then J, Q, K, A. */
  datatype Rank = Two | Three | Four | Five | Six | Seven | Eight | Nine | Ten
                | Jack | Queen | King | Ace

  /** A card has no identity beyond its suit and rank. */
  datatype Card = Card(suit: Suit, rank: Rank)

  const Suits: seq<Suit> := [Spades, Hearts, Diamonds, Clubs]

  const Ranks: seq<Rank> := [Two, Three, Four, Five, Six, Seven, Eight, Nine, Ten, Jack, Queen, King, Ace]

  /** Position of a suit in `Suits`. */
  function SuitIndex(s: Suit): (k: nat)
    ensures k < |Suits| && Suits[k] == s
  {
    match s
    case Spades => 0
    case Hearts => 1
    case Diamonds => 2
    case Clubs => 3
  }

  /** Position of a rank in `Ranks`. */
  function RankIndex(r: Rank): (k: nat)
    ensures k < |Ranks| && Ranks[k] == r
  {
    match r
    case Two => 0
    case Three => 1
    case Four => 2
    case Five => 3
    case Six => 4
    case Seven => 5
    case Eight => 6
    case Nine => 7
    case Ten => 8
    case Jack => 9
    case Queen => 10
    case King => 11
    case Ace => 12
  }

  /** No element occurs twice. */
  ghost predicate Distinct<T>(s: seq<T>)
  {
    forall i, j :: 0 <= i < j < |s| ==> s[i] != s[j]
  }

  /**
   * The cards of one suit (the inner loop of the deck builder): 13 cards of
   * that suit whose ranks climb one step at a time from 2 to A, so no card
   * repeats and every card of the suit is there.
   */
  function SuitRow(s: Suit): (row: seq<Card>)
    ensures |row| == |Ranks|
    ensures forall k :: 0 <= k < |row| ==> row[k].suit == s && RankIndex(row[k].rank) == k
    ensures Distinct(row)
    ensures forall r: Rank :: Card(s, r) in row
  {
    var row := seq(|Ranks|, k requires 0 <= k < |Ranks| => Card(s, Ranks[k]));
    forall k | 0 <= k < |row|
      ensures RankIndex(row[k].rank) == k
    {
      RanksIndexed(k);
    }
    forall r: Rank
      ensures Card(s, r) in row
    {
      assert row[RankIndex(r)] == Card(s, r);
    }
    row
  }

  /** `RankIndex` undoes indexing into `Ranks`. */
  lemma RanksIndexed(k: nat)
    requires k < |Ranks|
    ensures RankIndex(Ranks[k]) == k
  {
  }

  /** One row per suit, concatenated in the order the suits are given (the outer loop). */
  function Rows(suits: seq<Suit>): (deck: seq<Card>)
    ensures |deck| == 13 * |suits|
    ensures forall i :: 0 <= i < |deck| ==> deck[i] == Card(suits[i / 13], Ranks[i % 13])
    decreases |suits|
  {
    if |suits| == 0 then []
    else
      var rest := Rows(suits[1..]);
      var row := SuitRow(suits[0]);
      var deck := row + rest;
      forall i | 0 <= i < 13
        ensures deck[i] == Card(suits[i / 13], Ranks[i % 13])
      {
        assert Ranks[RankIndex(row[i].rank)] == row[i].rank;
      }
      forall i | 13 <= i < |deck|
        ensures deck[i] == Card(suits[i / 13], Ranks[i % 13])
      {
        ShiftByRow(i);
        assert deck[i] == rest[i - 13];
      }
      deck
  }

  /**
   * The fresh deck: the 52 cards in suit-major, rank-minor order, every
   * suit-rank pair exactly once.
   */
  function CreateDeck(): (deck: seq<Card>)
    ensures |deck| == 52
    ensures forall s, r :: 0 <= s < 4 && 0 <= r < 13 ==> deck[13 * s + r] == Card(Suits[s], Ranks[r])
    ensures Distinct(deck)
    ensures forall c: Card :: c in deck
  {
    var deck := Rows(Suits);
    forall s, r | 0 <= s < 4 && 0 <= r < 13
      ensures deck[13 * s + r] == Card(Suits[s], Ranks[r])
    {
      PositionSplits(s, r);
    }
    forall i, j | 0 <= i < j < |deck|
      ensures deck[i] != deck[j]
    {
      PositionsDiffer(i, j);
    }
    forall c: Card
      ensures c in deck
    {
      var s, r := SuitIndex(c.suit), RankIndex(c.rank);
      PositionSplits(s, r);
      assert deck[13 * s + r] == c;
    }
    deck
  }

  lemma ShiftByRow(i: nat)
    requires i >= 13
    ensures (i - 13) / 13 == i / 13 - 1 && (i - 13) % 13 == i % 13
  {
  }

  lemma PositionSplits(s: nat, r: nat)
    requires r < 13
    ensures (13 * s + r) / 13 == s && (13 * s + r) % 13 == r
  {
  }

  /** Two different positions below 52 hold different suit-rank pairs. */
  lemma PositionsDiffer(i: nat, j: nat)
    requires i < j < 52
    ensures Card(Suits[i / 13], Ranks[i % 13]) != Card(Suits[j / 13], Ranks[j % 13])
  {
    if i / 13 == j / 13 {
      assert i % 13 != j % 13;
    }
  }
}
