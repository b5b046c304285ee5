/**
 * The game as a state machine over the player's profile and the phase of
 * the current round. Key presses arrive one at a time and each is handled to
 * completion; the dealer's turn, which needs no key, runs as part of the
 * command that ends the player's turn.
 */
module Game {
  import opened Cards
  import opened Scoring
  import opened Shuffle
  import opened Settlement
  import opened Round

  /** The bet every betting phase starts from, and the floor the down key clamps to. */
  const MinimumBet: int := 50

  /** How far one up or down key press moves the bet. */
  const BetStep: int := 25

  datatype Phase =
    | Betting(bet: int)
    | Confirmed(bet: int)
    | PlayerTurn(table: Table, bet: int)
    | DealerTurn(table: Table, bet: int)
    | Settled(table: Table, bet: int, outcome: Outcome)

  /** The saved profile together with the phase of the current round. */
  datatype State = State(profile: Profile, phase: Phase)

  /** The keys the game reacts to (quitting is left out). */
  datatype Command = Up | Down | Enter | Backspace | Hit | Stand | Restart

  /** The cards of a round are exactly one fresh deck's worth. */
  ghost predicate FullDeck(t: Table)
  {
    CardsOf(t) == multiset(CreateDeck())
  }

  /**
   * What holds of a round in progress: the cards are those of one deck, the
   * dealer holds the two dealt cards, and the player has at least the two
   * dealt cards and is under 21 while still playing, at most 21 once the
   * dealer is to play.
   */
  ghost predicate Valid(g: State)
  {
    match g.phase
    case Betting(_) => true
    case Confirmed(_) => true
    case PlayerTurn(t, _) => FullDeck(t) && |t.dealer| == 2 && |t.player| >= 2 && Total(t.player) < 21
    case DealerTurn(t, _) => FullDeck(t) && |t.dealer| == 2 && |t.player| >= 2 && Total(t.player) <= 21
    case Settled(t, _, _) => FullDeck(t)
  }

  /**
   * `h` follows `g` with the profile moved only by settling the round: one
   * recorded outcome on the round's bet, and a blackjack only for a natural.
   */
  ghost predicate Accounted(g: State, h: State)
  {
    && (h.profile == g.profile
        || (h.phase.Settled? && !g.phase.Settled? && h.profile == Record(g.profile, h.phase.outcome, h.phase.bet)))
    && (h.phase.Settled? && h.phase.outcome == Blackjack && !g.phase.Settled? ==>
          g.phase.Confirmed? && Total(h.phase.table.player) == 21)
  }

  /** The round's cards are 52 in all, wherever they lie. */
  lemma FullDeckSize(t: Table)
    requires FullDeck(t)
    ensures |t.deck| + |t.player| + |t.dealer| == 52
  {
    assert |CardsOf(t)| == |multiset(CreateDeck())| == 52;
  }

  /** A fresh betting phase, as after the welcome screen and after every restart. */
  function NewBetting(p: Profile): (g: State)
  {
    State(p, Betting(MinimumBet))
  }

  /** The up key: raise the bet by one step, but not above the chip balance. */
  function RaiseBet(bet: int, chips: int): (b: int)
    ensures b <= chips && b <= bet + BetStep
    ensures b == bet + BetStep || b == chips
  {
    if bet + BetStep < chips then bet + BetStep else chips
  }

  /** The down key: lower the bet by one step, but not below the minimum. */
  function LowerBet(bet: int): (b: int)
    ensures b >= MinimumBet && b >= bet - BetStep
    ensures b == bet - BetStep || b == MinimumBet
  {
    if bet - BetStep > MinimumBet then bet - BetStep else MinimumBet
  }

  /**
   * The keys of the betting phase. Only enter leaves it, confirming the bet
   * as it stands. Up gives the smaller of the bet plus one step and the chip
   * balance; down gives the larger of the bet minus one step and the minimum;
   * any other key leaves the bet alone. The profile is never touched.
   */
  function BettingKey(p: Profile, bet: int, c: Command): (g: State)
    ensures g.profile == p
    ensures g.phase.Confirmed? <==> c == Enter
    ensures g.phase.Betting? <==> c != Enter
    ensures c !in {Up, Down} ==> g.phase.bet == bet
    ensures c == Up ==> g.phase.bet <= p.chips && g.phase.bet <= bet + BetStep
                        && (g.phase.bet == p.chips || g.phase.bet == bet + BetStep)
    ensures c == Down ==> g.phase.bet >= MinimumBet && g.phase.bet >= bet - BetStep
                          && (g.phase.bet == MinimumBet || g.phase.bet == bet - BetStep)
  {
    if c == Up then State(p, Betting(RaiseBet(bet, p.chips)))
    else if c == Down then State(p, Betting(LowerBet(bet)))
    else if c == Enter then State(p, Confirmed(bet))
    else State(p, Betting(bet))
  }

  /** A fresh deck, shuffled with the given draws and dealt. */
  function DealFresh(oracle: seq<nat>): (t: Table)
    requires ValidOracle(oracle, 52)
    ensures FullDeck(t) && |t.player| == 2 && |t.dealer| == 2
    ensures var deck := FisherYates(CreateDeck(), oracle);
            && |deck| == 52
            && t.player == [deck[51], deck[50]]
            && t.dealer == [deck[49], deck[48]]
            && t.deck == deck[..48]
  {
    var newDeck := CreateDeck();
    Deal(FisherYates(newDeck, oracle))
  }

  /**
   * A round starts on a freshly dealt deck. If either side's two cards make
   * 21 the round is settled as a natural at once; otherwise the player is to
   * play and nothing is settled yet.
   */
  function StartRound(p: Profile, bet: int, oracle: seq<nat>): (g: State)
    requires ValidOracle(oracle, 52)
    ensures Valid(g)
    ensures (g.phase.Settled? || g.phase.PlayerTurn?) && g.phase.bet == bet
    ensures var t := g.phase.table;
            g.phase.Settled? <==> Total(t.player) == 21 || Total(t.dealer) == 21
    ensures Accounted(State(p, Confirmed(bet)), g)
    ensures g.phase.PlayerTurn? ==> g.profile == p
    ensures g.phase.Settled? ==> g.phase.outcome == Natural(Total(g.phase.table.player), Total(g.phase.table.dealer))
                                 && g.profile == Record(p, g.phase.outcome, bet)
  {
    var t := DealFresh(oracle);
    var pt := Total(t.player);
    var dt := Total(t.dealer);
    if pt == 21 || dt == 21 then
      var o := Natural(pt, dt);
      State(Record(p, o, bet), Settled(t, bet, o))
    else
      HandSizeBound(t.player);
      TwoCardsNeverBust(t.player[0], t.player[1]);
      assert t.player == [t.player[0], t.player[1]];
      State(p, PlayerTurn(t, bet))
  }

  /** The keys of the confirmed phase: backspace goes back to betting, enter starts the round. */
  function ConfirmedKey(p: Profile, bet: int, c: Command, oracle: seq<nat>): (g: State)
    requires ValidOracle(oracle, 52)
    ensures Valid(g)
    ensures Accounted(State(p, Confirmed(bet)), g) && !g.phase.DealerTurn?
    ensures c == Backspace ==> g == State(p, Betting(bet))
    ensures c == Enter ==> g == StartRound(p, bet, oracle)
    ensures c !in {Backspace, Enter} ==> g == State(p, Confirmed(bet))
  {
    if c == Backspace then State(p, Betting(bet))
    else if c == Enter then StartRound(p, bet, oracle)
    else State(p, Confirmed(bet))
  }

  /**
   * The player hits: the top card is popped onto the player's hand. Over 21
   * the bet is lost at once and the dealer draws nothing; at exactly 21 the
   * turn passes to the dealer; below 21 the player plays on.
   */
  function PlayerHit(p: Profile, t: Table, bet: int): (g: State)
    requires Valid(State(p, PlayerTurn(t, bet))) && |t.deck| > 0
    ensures Valid(g)
    ensures !g.phase.Betting? && !g.phase.Confirmed? && g.phase.bet == bet
    ensures g.phase.table.player == t.player + [t.deck[|t.deck| - 1]]
    ensures g.phase.table.deck == t.deck[..|t.deck| - 1]
    ensures g.phase.table.dealer == t.dealer
    ensures Total(g.phase.table.player) > 21 <==> g.phase.Settled?
    ensures Total(g.phase.table.player) == 21 <==> g.phase.DealerTurn?
    ensures Total(g.phase.table.player) < 21 <==> g.phase.PlayerTurn?
    ensures g.phase.Settled? ==> g.phase.outcome == Loss && g.profile == Record(p, Loss, bet)
    ensures !g.phase.Settled? ==> g.profile == p
    ensures Accounted(State(p, PlayerTurn(t, bet)), g)
  {
    var u := HitPlayer(t);
    var total := Total(u.player);
    if total > 21 then State(Record(p, Loss, bet), Settled(u, bet, Loss))
    else if total == 21 then State(p, DealerTurn(u, bet))
    else State(p, PlayerTurn(u, bet))
  }

  /**
   * The keys of the player's turn: hit draws (the deck cannot be empty here,
   * since a hand under 21 holds at most 20 cards), stand passes the turn to
   * the dealer with the hand as it is.
   */
  function PlayerKey(p: Profile, t: Table, bet: int, c: Command): (g: State)
    requires Valid(State(p, PlayerTurn(t, bet)))
    ensures Valid(g)
    ensures Accounted(State(p, PlayerTurn(t, bet)), g) && (g.phase.DealerTurn? ==> g.profile == p)
    ensures c == Hit ==> |t.deck| > 0 && g == PlayerHit(p, t, bet)
    ensures c == Stand ==> g == State(p, DealerTurn(t, bet))
    ensures c !in {Hit, Stand} ==> g == State(p, PlayerTurn(t, bet))
  {
    HandSizeBound(t.player);
    FullDeckSize(t);
    if c == Hit then PlayerHit(p, t, bet)
    else if c == Stand then State(p, DealerTurn(t, bet))
    else State(p, PlayerTurn(t, bet))
  }

  /**
   * When the dealer's turn starts the deck and the dealer's hand hold at least
   * 17 cards between them, enough for any run of draws below 17.
   */
  lemma DealerHasCards(t: Table)
    requires FullDeck(t) && Total(t.player) <= 21
    ensures |t.deck| + |t.dealer| >= DealerStandsOn
  {
    HandSizeBound(t.player);
    FullDeckSize(t);
  }

  /** The end of the dealer's turn: draw to 17 or more, then settle by the showdown. */
  function FinishDealer(p: Profile, t: Table, bet: int): (g: State)
    requires Valid(State(p, DealerTurn(t, bet)))
    ensures Valid(g) && g.phase.Settled? && g.phase.bet == bet
    ensures DealerResult(t, g.phase.table)
    ensures g.phase.outcome == Showdown(Total(t.player), Total(g.phase.table.dealer))
    ensures g.profile == Record(p, g.phase.outcome, bet)
    ensures Accounted(State(p, DealerTurn(t, bet)), g)
  {
    DealerHasCards(t);
    var r := DealerPlay(t);
    var o := Showdown(Total(r.player), Total(r.dealer));
    State(Record(p, o, bet), Settled(r, bet, o))
  }

  /**
   * The keys once a round is settled: only restart leaves the settled phase,
   * for a betting phase at the minimum bet; the profile keeps the settlement.
   */
  function SettledKey(g: State, c: Command): (h: State)
    requires g.phase.Settled?
    ensures h.profile == g.profile
    ensures h.phase.Betting? <==> c == Restart
    ensures h.phase.Betting? ==> h.phase.bet == MinimumBet
    ensures !h.phase.Betting? ==> h == g
  {
    if c == Restart then NewBetting(g.profile) else g
  }

  /**
   * One key press, as the phase's handler reacts to it. Keys a phase does not
   * listen for change nothing; during the dealer's turn no key is listened for;
   * after settlement only the restart key does anything.
   */
  function Step(g: State, c: Command, oracle: seq<nat>): (h: State)
    requires Valid(g) && ValidOracle(oracle, 52)
    ensures Valid(h) && Accounted(g, h)
    ensures h.phase.DealerTurn? ==> !g.phase.Settled? && h.profile == g.profile
  {
    match g.phase
    case Betting(bet) => BettingKey(g.profile, bet, c)
    case Confirmed(bet) => ConfirmedKey(g.profile, bet, c, oracle)
    case PlayerTurn(t, bet) => PlayerKey(g.profile, t, bet, c)
    case DealerTurn(_, _) => g
    case Settled(_, _, _) => SettledKey(g, c)
  }

  /**
   * Handle one key press to completion: if it hands the turn to the dealer,
   * the dealer plays and the round is settled before the next key is read.
   */
  function Dispatch(g: State, c: Command, oracle: seq<nat>): (h: State)
    requires Valid(g) && ValidOracle(oracle, 52)
    ensures Valid(h) && !h.phase.DealerTurn? && Accounted(g, h)
  {
    var s := Step(g, c, oracle);
    match s.phase
    case DealerTurn(t, bet) => FinishDealer(s.profile, t, bet)
    case _ => s
  }

  /** Handling a key keeps every game played counted once as won, lost or tied. */
  lemma DispatchKeepsBalance(g: State, c: Command, oracle: seq<nat>)
    requires Valid(g) && ValidOracle(oracle, 52) && Balanced(g.profile)
    ensures Balanced(Dispatch(g, c, oracle).profile)
    ensures Dispatch(g, c, oracle).profile.gamesPlayed >= g.profile.gamesPlayed
  {
    var h := Dispatch(g, c, oracle);
    if h.profile != g.profile {
      RecordKeepsBalance(g.profile, h.phase.outcome, h.phase.bet);
    }
  }

  /**
   * Enter on a confirmed bet deals from the freshly shuffled deck: the player
   * gets its top two cards, the dealer the next two, 48 stay in the deck; the
   * round is settled at once exactly when either two-card hand makes 21.
   */
  lemma EnterDeals(p: Profile, bet: int, oracle: seq<nat>)
    requires ValidOracle(oracle, 52)
    ensures var h := Dispatch(State(p, Confirmed(bet)), Enter, oracle);
            var deck := FisherYates(CreateDeck(), oracle);
            && (h.phase.PlayerTurn? || h.phase.Settled?) && h.phase.bet == bet
            && h.phase.table.player == [deck[51], deck[50]]
            && h.phase.table.dealer == [deck[49], deck[48]]
            && h.phase.table.deck == deck[..48]
            && (h.phase.Settled? <==> Total(h.phase.table.player) == 21 || Total(h.phase.table.dealer) == 21)
  {
    var h := Dispatch(State(p, Confirmed(bet)), Enter, oracle);
    assert h == StartRound(p, bet, oracle);
    assert h.phase.table == DealFresh(oracle);
  }

  /**
   * A natural is settled on the bet alone: two 21s tie with the chips
   * unchanged, the player's 21 alone adds the bet plus half as much again
   * (rounded down), the dealer's 21 alone takes the bet; one game and exactly
   * one of won, lost or tied are counted.
   */
  lemma NaturalSettles(p: Profile, bet: int, oracle: seq<nat>)
    requires ValidOracle(oracle, 52)
    ensures var h := Dispatch(State(p, Confirmed(bet)), Enter, oracle);
            h.phase.Settled? ==>
              var pt, dt, q := Total(h.phase.table.player), Total(h.phase.table.dealer), h.profile;
              && q.gamesPlayed == p.gamesPlayed + 1
              && (pt == 21 && dt == 21 ==> q.chips == p.chips && q.gamesTied == p.gamesTied + 1
                                           && q.gamesWon == p.gamesWon && q.gamesLost == p.gamesLost)
              && (pt == 21 && dt != 21 ==> q.chips == p.chips + bet + BonusOf(bet) && q.gamesWon == p.gamesWon + 1
                                           && q.gamesTied == p.gamesTied && q.gamesLost == p.gamesLost)
              && (pt != 21 && dt == 21 ==> q.chips == p.chips - bet && q.gamesLost == p.gamesLost + 1
                                           && q.gamesWon == p.gamesWon && q.gamesTied == p.gamesTied)
  {
    var h := Dispatch(State(p, Confirmed(bet)), Enter, oracle);
    assert h == StartRound(p, bet, oracle);
  }

  /**
   * The betting keys: up never takes the bet above the chips, down never
   * below the minimum, enter confirms, backspace goes back with the same bet,
   * and enter on a confirmed bet starts a round with that bet.
   */
  lemma BettingKeys(p: Profile, bet: int, oracle: seq<nat>)
    requires ValidOracle(oracle, 52)
    ensures var up := Dispatch(State(p, Betting(bet)), Up, oracle);
            up.phase.Betting? && up.phase.bet <= p.chips && up.profile == p
            && (bet + BetStep <= p.chips ==> up.phase.bet == bet + BetStep)
    ensures var down := Dispatch(State(p, Betting(bet)), Down, oracle);
            down.phase.Betting? && down.phase.bet >= MinimumBet && down.profile == p
            && (bet - BetStep >= MinimumBet ==> down.phase.bet == bet - BetStep)
    ensures Dispatch(State(p, Betting(bet)), Enter, oracle) == State(p, Confirmed(bet))
    ensures Dispatch(State(p, Confirmed(bet)), Backspace, oracle) == State(p, Betting(bet))
    ensures var start := Dispatch(State(p, Confirmed(bet)), Enter, oracle);
            (start.phase.PlayerTurn? || start.phase.Settled?) && start.phase.bet == bet
  {
  }

  /**
   * Standing hands the turn to the dealer, who draws to 17 or more from the
   * top of the deck without touching the player's hand, and the round is
   * settled by the showdown: a win when the dealer busts or the player is
   * higher, a tie on equal totals, a loss otherwise.
   */
  lemma StandSettlesByShowdown(p: Profile, t: Table, bet: int, oracle: seq<nat>)
    requires Valid(State(p, PlayerTurn(t, bet))) && ValidOracle(oracle, 52)
    ensures var h := Dispatch(State(p, PlayerTurn(t, bet)), Stand, oracle);
            && h.phase.Settled? && h.phase.bet == bet
            && DealerResult(t, h.phase.table)
            && var pt, dt := Total(t.player), Total(h.phase.table.dealer);
            && (h.phase.outcome == Win <==> dt > 21 || pt > dt)
            && (h.phase.outcome == Tie <==> dt <= 21 && pt == dt)
            && (h.phase.outcome == Loss <==> dt <= 21 && pt < dt)
            && h.profile == Record(p, h.phase.outcome, bet)
  {
  }

  /**
   * A hit that takes the player over 21 loses the bet at once: one loss and
   * one game are counted, and the dealer keeps the two dealt cards.
   */
  lemma BustSkipsDealer(p: Profile, t: Table, bet: int, oracle: seq<nat>)
    requires Valid(State(p, PlayerTurn(t, bet))) && ValidOracle(oracle, 52)
    requires |t.deck| > 0 && Total(t.player + [t.deck[|t.deck| - 1]]) > 21
    ensures var h := Dispatch(State(p, PlayerTurn(t, bet)), Hit, oracle);
            && h.phase.Settled? && h.phase.outcome == Loss
            && h.phase.table.dealer == t.dealer
            && h.profile.chips == p.chips - bet
            && h.profile.gamesLost == p.gamesLost + 1
            && h.profile.gamesPlayed == p.gamesPlayed + 1
            && h.profile.gamesWon == p.gamesWon && h.profile.gamesTied == p.gamesTied
  {
  }

  /**
   * A hit that makes exactly 21 ends the player's turn: the dealer plays from
   * the hand with the new card and the round is settled by the showdown.
   */
  lemma TwentyOnePlaysDealer(p: Profile, t: Table, bet: int, oracle: seq<nat>)
    requires Valid(State(p, PlayerTurn(t, bet))) && ValidOracle(oracle, 52)
    requires |t.deck| > 0 && Total(t.player + [t.deck[|t.deck| - 1]]) == 21
    ensures var h := Dispatch(State(p, PlayerTurn(t, bet)), Hit, oracle);
            && h.phase.Settled?
            && h.phase.table.player == t.player + [t.deck[|t.deck| - 1]]
            && |h.phase.table.dealer| >= 2 && h.phase.table.dealer[..2] == t.dealer
            && Total(h.phase.table.dealer) >= DealerStandsOn
            && h.phase.outcome == Showdown(21, Total(h.phase.table.dealer))
            && h.phase.outcome != Loss
  {
  }

  /**
   * The chips move by the bet on a win, by nothing on a tie, by minus the bet
   * on a loss, and by the bet plus half as much again (rounded down) on a
   * blackjack; only a natural can pay a blackjack.
   */
  lemma ChipChanges(g: State, c: Command, oracle: seq<nat>)
    requires Valid(g) && ValidOracle(oracle, 52)
    ensures var h := Dispatch(g, c, oracle);
            h.profile != g.profile ==>
              && h.phase.Settled?
              && var bet, delta := h.phase.bet, h.profile.chips - g.profile.chips;
              && delta in {bet, 0, -bet, Payout(Blackjack, bet)}
              && (h.phase.outcome == Blackjack ==> g.phase.Confirmed? && Total(h.phase.table.player) == 21)
  {
  }

  /**
   * Once a round is settled only the restart key does anything: it opens a
   * new betting phase at the minimum bet with the settled profile.
   */
  lemma RestartOpensBetting(g: State, c: Command, oracle: seq<nat>)
    requires Valid(g) && ValidOracle(oracle, 52) && g.phase.Settled?
    ensures var h := Dispatch(g, c, oracle);
            && (c == Restart ==> h.phase == Betting(MinimumBet) && h.profile == g.profile)
            && (c != Restart ==> h == g)
  {
  }

  /** A sequence of key presses, each with the draws a shuffle at that point would use. */
  function Run(g: State, keys: seq<Command>, oracles: seq<seq<nat>>): (h: State)
    requires Valid(g) && |oracles| == |keys|
    requires forall i :: 0 <= i < |oracles| ==> ValidOracle(oracles[i], 52)
    ensures Valid(h) && (!h.phase.DealerTurn? || (keys == [] && h == g))
    decreases |keys|
  {
    if |keys| == 0 then g
    else
      Run(Dispatch(g, keys[0], oracles[0]), keys[1..], oracles[1..])
  }

  /** Over any sequence of key presses every game played is counted once as won, lost or tied. */
  lemma {:induction false} RunKeepsBalance(g: State, keys: seq<Command>, oracles: seq<seq<nat>>)
    requires Valid(g) && |oracles| == |keys|
    requires forall i :: 0 <= i < |oracles| ==> ValidOracle(oracles[i], 52)
    requires Balanced(g.profile)
    ensures Balanced(Run(g, keys, oracles).profile)
    ensures Run(g, keys, oracles).profile.gamesPlayed >= g.profile.gamesPlayed
    decreases |keys|
  {
    if |keys| > 0 {
      DispatchKeepsBalance(g, keys[0], oracles[0]);
      var h := Dispatch(g, keys[0], oracles[0]);
      RunKeepsBalance(h, keys[1..], oracles[1..]);
    }
  }

  /**
   * As written, the bet is not kept within [50, chips]: with 30 chips the
   * opening bet of 50 can be confirmed and lost, leaving a negative balance,
   * and from there the up key lowers the bet below zero.
   */
  lemma BetBoundsNotEnforced(oracle: seq<nat>)
    requires ValidOracle(oracle, 52)
    ensures var g := NewBetting(Profile(30, 0, 0, 0, 0));
            Dispatch(g, Enter, oracle) == State(g.profile, Confirmed(50))
    ensures Dispatch(NewBetting(Profile(30, 0, 0, 0, 0)), Up, oracle).phase == Betting(30)
    ensures Dispatch(NewBetting(Profile(-20, 1, 0, 1, 0)), Up, oracle).phase == Betting(-20)
  {
  }
}
