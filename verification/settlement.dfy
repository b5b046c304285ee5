/**
 * The player's persistent record and the three ways a round is settled
 * against it: a bust, a showdown after the dealer has drawn, and a natural
 * (a two-card 21 for either side right after the deal).
 */
module Settlement {

  /**
   * The saved profile. Chips are a plain integer: nothing in the game keeps
   * the balance from going below zero.
   */
  datatype Profile = Profile(chips: int, gamesPlayed: nat, gamesWon: nat, gamesLost: nat, gamesTied: nat)

  /** How a round ended; a blackjack is a win paid 3:2 on top of the stake. */
  datatype Outcome = Win | Blackjack | Tie | Loss

  /** Every game played is counted as exactly one of won, lost or tied. */
  predicate Balanced(p: Profile)
  {
    p.gamesPlayed == p.gamesWon + p.gamesLost + p.gamesTied
  }

  /** The extra a blackjack pays: `floor(bet * 1.5)`. */
  function BonusOf(bet: int): (b: int)
    ensures 2 * b <= 3 * bet < 2 * b + 2
  {
    (3 * bet) / 2
  }

  /**
   * The change to the chip balance an outcome makes: the bet on a win, nothing
   * on a tie, minus the bet on a loss, and on a blackjack two and a half times
   * the bet rounded down.
   */
  function Payout(o: Outcome, bet: int): (d: int)
    ensures o == Win ==> d == bet
    ensures o == Tie ==> d == 0
    ensures o == Loss ==> d == -bet
    ensures o == Blackjack ==> 2 * d <= 5 * bet < 2 * d + 2
  {
    match o
    case Win => bet
    case Blackjack => bet + BonusOf(bet)
    case Tie => 0
    case Loss => -bet
  }

  /**
   * Apply a settled outcome: move the chips by the payout, count one more game
   * and one more win (blackjack included), loss or tie.
   */
  function Record(p: Profile, o: Outcome, bet: int): (q: Profile)
    ensures q.chips - p.chips == Payout(o, bet)
    ensures q.gamesPlayed == p.gamesPlayed + 1
    ensures q.gamesWon == p.gamesWon + (if o in {Win, Blackjack} then 1 else 0)
    ensures q.gamesLost == p.gamesLost + (if o == Loss then 1 else 0)
    ensures q.gamesTied == p.gamesTied + (if o == Tie then 1 else 0)
  {
    match o
    case Win | Blackjack => p.(chips := p.chips + Payout(o, bet), gamesWon := p.gamesWon + 1, gamesPlayed := p.gamesPlayed + 1)
    case Tie => p.(gamesTied := p.gamesTied + 1, gamesPlayed := p.gamesPlayed + 1)
    case Loss => p.(chips := p.chips - bet, gamesLost := p.gamesLost + 1, gamesPlayed := p.gamesPlayed + 1)
  }

  /** Settling a round keeps the game counters consistent. */
  lemma RecordKeepsBalance(p: Profile, o: Outcome, bet: int)
    ensures Balanced(Record(p, o, bet)) <==> Balanced(p)
  {
  }

  /**
   * The showdown after the dealer has drawn: the player wins when the dealer
   * is over 21 or the player is higher, ties on equal totals, and otherwise
   * loses.
   */
  function Showdown(playerTotal: int, dealerTotal: int): (o: Outcome)
    ensures o == Win <==> dealerTotal > 21 || playerTotal > dealerTotal
    ensures o == Tie <==> dealerTotal <= 21 && playerTotal == dealerTotal
    ensures o == Loss <==> dealerTotal <= 21 && playerTotal < dealerTotal
    ensures o != Blackjack
  {
    if dealerTotal > 21 || playerTotal > dealerTotal then Win
    else if dealerTotal == playerTotal then Tie
    else Loss
  }

  /**
   * Settlement of a natural, entered only when one side's first two cards make
   * 21: both is a tie, the player alone is a blackjack, the dealer alone a loss.
   */
  function Natural(playerTotal: int, dealerTotal: int): (o: Outcome)
    requires playerTotal == 21 || dealerTotal == 21
    ensures o == Tie <==> playerTotal == dealerTotal
    ensures o == Blackjack <==> playerTotal == 21 && dealerTotal != 21
    ensures o == Loss <==> playerTotal != 21
    ensures o != Win
  {
    if playerTotal == 21 && dealerTotal == 21 then Tie
    else if playerTotal == 21 then Blackjack
    else Loss
  }

  /** A blackjack on a bet of 100 adds 250 chips: the stake and 150 more. */
  lemma BlackjackOnHundred(p: Profile)
    ensures Record(p, Natural(21, 20), 100).chips == p.chips + 250
  {
  }

  /**
   * For a positive bet the chip change ranks the outcomes: a blackjack pays
   * more than a win, a win more than a tie, a tie more than a loss.
   */
  lemma PayoutOrder(bet: int)
    requires bet > 0
    ensures Payout(Loss, bet) < Payout(Tie, bet) < Payout(Win, bet) < Payout(Blackjack, bet)
  {
  }
}
