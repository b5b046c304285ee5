# Terminal blackjack, modelled in Dafny

A model of the game logic of a one-player terminal blackjack game
(`blackjack.js`). The game builds a fresh 52-card deck for every round and
shuffles it with Fisher-Yates. It deals two cards to the player and two to the
dealer, and settles a natural (a two-card 21) at once. Otherwise it lets the
player hit or stand; the dealer then draws to 17 or more, and the round is
settled against a saved profile (chips and game counters). Before each round,
a betting screen moves the bet with the arrow keys; Enter confirms it and
Enter again starts the round.

The modules follow the program's parts:

- `Cards` (`cards.dfy`): suits, ranks, cards, and the ordered fresh deck
  (`createDeck`).
- `Scoring` (`scoring.dfy`): the hand total (`calculateTotal`). It is proved
  to be the best blackjack value of the hand: the largest total not above 21
  over all choices of 1 or 11 per ace, or the all-aces-low total when every
  choice busts.
- `Shuffle` (`shuffle.dfy`): the Fisher-Yates shuffle (`shuffleDeck`), both
  as a pure function and as the in-place array loop. The random draws are an
  input: `oracle[i]` is the `j` drawn at position `i`, with `0 <= j <= i`.
- `Settlement` (`settlement.dfy`): the profile, the three ways a round is
  settled (showdown, bust, natural) and the chip payouts.
- `Round` (`round.dfy`): the table (deck and two hands), the initial deal,
  hits, and the dealer's drawing loop.
- `Game` (`game.dfy`): the key handlers as a state machine. The phases are
  betting, confirmed, player's turn, dealer's turn and settled. `Dispatch`
  handles one key to completion; `Run` handles a sequence of keys.

`Game.Valid` is the invariant every handled key preserves:

- the round's cards are exactly one deck's worth;
- the dealer holds two cards while the player plays;
- the player is under 21 while still to play.

From this the model proves that the deck is never empty when the game pops
it. A hand worth less than 21 holds at most 20 cards, so at least 30 cards
remain.

### Where the code differs from a textbook game

The model follows the code in each of these cases.

- **The deal does not alternate.** The player takes the top two cards and
  the dealer the next two (`Round.Deal`, `Game.EnterDeals`).
- **A blackjack credits the stake plus one and a half times the bet.** It
  adds `bet + floor(1.5 * bet)` to the chips: 250 on a bet of 100, not 150
  (`Settlement.BlackjackOnHundred`).
- **The bet is not kept within [50, chips].**
  - Up clamps only to the chip balance, and down clamps only to 50.
  - The opening bet of 50 can be confirmed with fewer than 50 chips.
  - The balance can go negative, and from a negative balance the up key
    gives a negative bet (`Game.BetBoundsNotEnforced`).

  The model keeps chips and bet as unbounded integers and states none of
  the textbook bounds.
- **Exactly 21 after a hit ends the player's turn.** The dealer then plays
  (`Game.TwentyOnePlaysDealer`). Standing below 21 is also allowed.
- **The dealer stands on every 17, soft 17 included.** The rule compares the
  computed total with 17.

## Model

| member | source | states |
|---|---|---|
| Cards.SuitRow | blackjack.js:303-305 | the inner loop yields 13 cards, all of the given suit, whose ranks climb one step at a time from 2 to A; so no card repeats and every card of the suit is there |
| Cards.Rows | blackjack.js:302-306 | the nested loops put card `i` at suit `i / 13` and rank `i % 13` |
| Cards.CreateDeck | blackjack.js:297-308 | the fresh deck has 52 cards, suit-major and rank-minor in source order, each suit-rank pair exactly once, and every card appears |
| Scoring.InitialValue | blackjack.js:578-585 | a card adds between 2 and 11; exactly an ace adds 11, and exactly 10, J, Q and K add 10 |
| Scoring.FaceValue | blackjack.js:583-584 | a number card 2 to 10 adds its face value, its place in the rank order plus 2 |
| Scoring.AceCount | blackjack.js:577-579 | the pass counts at most one ace per card |
| Scoring.AceCountCounts | blackjack.js:577-579 | the ace count equals the number of positions in the hand that hold an ace, proved by induction over the hand |
| Scoring.NoAces | blackjack.js:577-579 | the ace count is zero if and only if no card of the hand is an ace |
| Scoring.SoftSum | blackjack.js:577-586 | the summing pass adds at least 2 per card |
| Scoring.SoftSumSplits | blackjack.js:577-587 | the summing pass equals the all-aces-low sum plus 10 per ace |
| Scoring.Demote | blackjack.js:589-593 | the ace loop takes off a multiple of 10, at most one 10 per ace; it leaves more than 21 only after demoting every ace, and never goes below 12 once it has demoted |
| Scoring.DemoteIsBest | blackjack.js:589-593 | run from the all-high total, the ace loop stops at a reachable total that is at least every reachable total not above 21, and at the all-low total when it is still over 21 |
| Scoring.Total | blackjack.js:573-595 | the total is achievable by a choice of 1 or 11 per ace; it is the largest achievable total not above 21, and the all-low total when every choice busts |
| Scoring.BestTotalIsUnique | blackjack.js:573-595 | the best-value description has exactly one solution, so the loop computes that value and nothing else |
| Scoring.HandSizeBound | blackjack.js:573-595 | a hand's total is at least its number of cards |
| Scoring.TwoCardTwentyOne | blackjack.js:341-344 | two cards total 21 if and only if one is an ace and the other is worth ten |
| Scoring.TwoCardsNeverBust | blackjack.js:573-595 | no two-card hand is over 21 |
| Scoring.Examples | blackjack.js:573-595 | A,K,5 is 16; A,A,9 is 21; K,Q is 20 |
| Shuffle.Swap | blackjack.js:313 | the exchange moves `s[j]` to `i` and `s[i]` to `j` and leaves every other position alone |
| Shuffle.SwapPermutes | blackjack.js:313 | an exchange keeps the same cards |
| Shuffle.Passes | blackjack.js:311-314 | the loop's passes from position `i` down to 1 keep the deck's length |
| Shuffle.FisherYates | blackjack.js:310-316 | the shuffle keeps the length and the multiset of cards |
| Shuffle.PassesPermute | blackjack.js:311-314 | any run of passes keeps the same cards |
| Shuffle.IdentityDraws | blackjack.js:310-316 | if every draw picks its own position, the deck is unchanged |
| Shuffle.PassesFixAbove | blackjack.js:311-314 | the pass at `i` and all later passes never touch positions above `i` |
| Shuffle.TopCardIsFirstDraw | blackjack.js:310-316 | the top card of the shuffled deck is the card the first draw picked |
| Shuffle.ShuffleDeck | blackjack.js:310-316 | the in-place array loop yields exactly the functional shuffle, a permutation of the deck |
| Settlement.BonusOf | blackjack.js:477 | the blackjack bonus is `floor(1.5 * bet)`, bracketed by `2b <= 3 * bet < 2b + 2` |
| Settlement.Payout | blackjack.js:113-131 | chips change by the bet on a win, 0 on a tie, minus the bet on a loss (the showdown here, and the bust at blackjack.js:388), and on a blackjack by floor(2.5 * bet), bracketed by `2d <= 5 * bet < 2d + 2` (the natural's credit at blackjack.js:477-478) |
| Settlement.Record | blackjack.js:113-131 | chips move by the outcome's payout; one game is counted, plus exactly one of won (blackjack included), lost or tied |
| Settlement.RecordKeepsBalance | blackjack.js:113-131 | after settlement, played equals won + lost + tied if and only if it did before |
| Settlement.Showdown | blackjack.js:113-128 | win if and only if the dealer busts or the player is higher; tie if and only if the totals are equal and the dealer has not bust; loss otherwise |
| Settlement.Natural | blackjack.js:469-490 | with a 21 on either side: tie if and only if both have 21; blackjack if and only if only the player has 21; loss if and only if the player has no 21; never a plain win |
| Settlement.BlackjackOnHundred | blackjack.js:477-480 | a blackjack on a bet of 100 adds 250 chips |
| Settlement.PayoutOrder | blackjack.js:113-131 | for a positive bet: loss < tie < win < blackjack |
| Round.PopConserves | blackjack.js:330-331 | a pop removes the top card and nothing else |
| Round.PopTwo | blackjack.js:330 | two pops give the top two cards in pop order, and the rest of the deck |
| Round.Deal | blackjack.js:330-331 | the player gets the top two cards and the dealer the next two, with no alternation; no card appears or disappears |
| Round.HitPlayer | blackjack.js:369-370 | a hit appends the top card to the player's hand and pops it |
| Round.HitDealer | blackjack.js:92-93 | a dealer draw appends the top card to the dealer's hand and pops it |
| Round.StandingResult | blackjack.js:90 | a dealer on 17 or more draws nothing |
| Round.DrawingResult | blackjack.js:90-96 | one draw below 17 followed by a complete dealer turn is a complete dealer turn |
| Round.DrawnFromTop | blackjack.js:90-94 | if the cards after one draw were taken from the top in order, then counted from before that draw they still were: the old hand stays a prefix, the first card drawn is the old top, the later ones follow it down, and the deck keeps its bottom part |
| Round.DrawnBelowStand | blackjack.js:90-94 | if the hand before a draw was under 17 and the turn after that draw obeyed the stopping rule, then the whole turn obeyed it: every hand a card was drawn to was under 17, and the final hand is 17 or more |
| Round.DealerPlay | blackjack.js:90-96 | the dealer draws from the top, in order, only while under 17, and ends on 17 or more; the player's hand and the set of cards are unchanged |
| Round.CommonDraws | blackjack.js:90-96 | two dealer turns from one table agree card for card as far as both go |
| Round.StopsAtFirstStand | blackjack.js:90-96 | of two complete dealer turns from one table, neither draws more cards than the other, because the dealer stops at the first hand of 17 or more |
| Round.DealerResultUnique | blackjack.js:90-96 | the description of the dealer's turn determines it completely |
| Game.FullDeckSize | blackjack.js:297-331 | a round's cards number 52, wherever they are |
| Game.RaiseBet | blackjack.js:270-271 | up gives the bet plus 25, or the chip balance if that is lower |
| Game.LowerBet | blackjack.js:274-275 | down gives the bet minus 25, or 50 if that is higher |
| Game.BettingKey | blackjack.js:269-280 | only enter leaves betting, confirming the bet; up gives the smaller of the bet + 25 and the chips; down gives the larger of the bet - 25 and 50; other keys keep the bet; the profile is untouched |
| Game.DealFresh | blackjack.js:326-331 | a fresh shuffled deck is dealt from its top: positions 51 and 50 to the player, 49 and 48 to the dealer |
| Game.StartRound | blackjack.js:318-347 | the round is settled at once if and only if either two-card total is 21, and then by the natural rule; otherwise the player plays and nothing is settled |
| Game.ConfirmedKey | blackjack.js:281-290 | backspace returns to betting with the same bet; enter starts the round |
| Game.PlayerHit | blackjack.js:367-429 | a hit appends the top card: over 21 the round is lost at once; exactly 21 passes to the dealer; below 21 the player plays on |
| Game.PlayerKey | blackjack.js:367-443 | h hits (the deck is provably non-empty), s stands with the hand as it is, and other keys change nothing |
| Game.DealerHasCards | blackjack.js:90-93 | when the dealer's turn starts, the deck and the dealer's hand hold at least 17 cards, so no draw finds the deck empty |
| Game.FinishDealer | blackjack.js:76-131 | the dealer's turn ends settled by the showdown on the drawn hand, recorded in the profile |
| Game.SettledKey | blackjack.js:159-168 | only restart leaves the settled phase, for betting at 50; the profile keeps the settlement, and any other key changes nothing |
| Game.Step | blackjack.js:266-447 | every key keeps the round invariant and moves the profile only by settling |
| Game.Dispatch | blackjack.js:412-443 | a handled key never leaves the game in the dealer's turn; it keeps the invariant and the accounting |
| Game.DispatchKeepsBalance | blackjack.js:113-131 | handling a key keeps played equal to won + lost + tied, and never lowers played |
| Game.EnterDeals | blackjack.js:326-347 | enter on a confirmed bet deals the shuffled deck's top two cards to the player and the next two to the dealer |
| Game.NaturalSettles | blackjack.js:469-492 | a natural settles as tie (chips unchanged), blackjack (+bet + floor(1.5 * bet)) or loss (-bet), each counted once |
| Game.BettingKeys | blackjack.js:268-291 | up never exceeds the chips, down never goes below 50, enter confirms, backspace returns, and enter on a confirmed bet starts a round |
| Game.StandSettlesByShowdown | blackjack.js:431-443 | standing runs the dealer's draws and settles by the showdown |
| Game.BustSkipsDealer | blackjack.js:379-391 | a bust loses the bet at once, and the dealer draws nothing |
| Game.TwentyOnePlaysDealer | blackjack.js:412-424 | a hit onto 21 makes the dealer play to 17 or more, and the player cannot lose |
| Game.ChipChanges | blackjack.js:113-131 | chips move by bet, 0, -bet or bet + floor(1.5 * bet); only a natural pays a blackjack |
| Game.RestartOpensBetting | blackjack.js:159-168 | r after settlement opens betting at 50; any other key changes nothing |
| Game.Run | blackjack.js:268-447 | any sequence of keys keeps the round invariant and never stops in the dealer's turn |
| Game.RunKeepsBalance | blackjack.js:113-131 | over any sequence of keys, played stays equal to won + lost + tied |
| Game.BetBoundsNotEnforced | blackjack.js:270-275 | with 30 chips, 50 can be confirmed and up gives 30; with -20 chips, up gives -20 |

## Left out

- Rendering, card art, colours, and the screen and box set-up. None of it
  affects the game state. This includes the dealer's visible total, which is
  used only for display and logging.
- Logging and the log file. Neither affects the game state.
- Persisting the profile. The profile is read from `player.json` at start-up
  and written back after each settlement; the model takes the profile as an
  input, and the write is a no-op on the state. The counters are assumed to
  be non-negative integers.
- Delays between dealer draws and before results. They only pace the screen.
- The `isProcessing`/`gameActive` guards and the removal of key listeners.
  The model handles each key to completion before the next one, which is
  the behaviour those guards aim for. The dealer's turn listens for no key.
- Quitting with `q` and Ctrl-C (`process.exit`). This ends the program and
  has no state to model.
- The welcome screen that leads into the first betting phase. It takes any
  key.
- `Math.random`. It is replaced by an explicit sequence of draws, each in
  `[0, i]`. Whether the shuffle is uniform is a probabilistic property and is
  not stated.
- Floating point. JavaScript numbers are doubles. `Math.floor(bet * 1.5)`
  and the chip updates agree with the model's integer `(3 * bet) / 2` and
  `+`/`-` only while the values stay exactly representable. The model assumes
  chips and bets are integers of magnitude below about 2^51, as loaded from
  `player.json`. Rounding of larger values is not modelled.
- Shuffle.Passes: its contract states only the length. That the passes
  reorder the cards and leave the positions above `i` alone is stated by
  `Shuffle.PassesPermute` and `Shuffle.PassesFixAbove`. Putting those facts
  on the function makes every proof about the shuffle much costlier.
- Scoring.SoftSum: its contract states only the lower bound. The exact value
  (the all-low total plus 10 per ace) is `Scoring.SoftSumSplits`, for the
  same reason of proof cost.
- Scoring.InitialValue: its contract fixes the ace at 11 and the ten-valued
  ranks at 10, and bounds the rest to 2..9. That a number card adds its face
  value is `Scoring.FaceValue`. On the function, that fact makes proofs about
  hand totals much costlier.
- Scoring.AceCount: its contract states only the bound of one ace per card.
  That the count is the number of ace positions is `Scoring.AceCountCounts`,
  and that it is zero exactly when there is no ace is `Scoring.NoAces`, for
  the same reason of proof cost.
- Popping from an empty deck. It cannot happen: a hit or a dealer draw is
  made only while the hand is under 21 or under 17, and `Game.Valid` implies
  enough cards remain. The model therefore requires a non-empty deck.
