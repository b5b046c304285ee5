/**
 * The cards of one round: what is left of the deck and the two hands. The
 * top of the deck is its last element; every draw pops it.
 */
module Round {
  import opened Cards
  import opened Scoring

  /** The dealer draws while the hand is worth less than this, soft or hard alike. */
  const DealerStandsOn: int := 17

  datatype Table = Table(deck: seq<Card>, player: seq<Card>, dealer: seq<Card>)

  /** All the cards of the round, wherever they are. */
  function CardsOf(t: Table): multiset<Card>
  {
    multiset(t.deck) + multiset(t.player) + multiset(t.dealer)
  }

  /** The card a pop returns. */
  function Top(deck: seq<Card>): Card
    requires |deck| > 0
  {
    deck[|deck| - 1]
  }

  /** The deck after a pop. */
  function Rest(deck: seq<Card>): seq<Card>
    requires |deck| > 0
  {
    deck[..|deck| - 1]
  }

  lemma PopConserves(deck: seq<Card>)
    requires |deck| > 0
    ensures multiset(Rest(deck)) + multiset{Top(deck)} == multiset(deck)
  {
    assert deck == Rest(deck) + [Top(deck)];
  }

  /** Two pops in a row: the two cards in the order popped, and what is left. */
  function PopTwo(deck: seq<Card>): (r: (seq<Card>, seq<Card>))
    requires |deck| >= 2
    ensures r.0 == [deck[|deck| - 1], deck[|deck| - 2]]
    ensures r.1 == deck[..|deck| - 2]
    ensures multiset(r.1) + multiset(r.0) == multiset(deck)
  {
    var first := Top(deck);
    var rest := Rest(deck);
    PopConserves(deck);
    PopConserves(rest);
    ([first, Top(rest)], Rest(rest))
  }

  /**
   * The initial deal: the player takes the top two cards and the dealer the
   * next two (the deal does not alternate). No card appears or disappears.
   */
  function Deal(deck: seq<Card>): (t: Table)
    requires |deck| >= 4
    ensures t.player == [deck[|deck| - 1], deck[|deck| - 2]]
    ensures t.dealer == [deck[|deck| - 3], deck[|deck| - 4]]
    ensures t.deck == deck[..|deck| - 4]
    ensures CardsOf(t) == multiset(deck)
  {
    var (player, afterPlayer) := PopTwo(deck);
    var (dealer, afterDealer) := PopTwo(afterPlayer);
    Table(afterDealer, player, dealer)
  }

  /** The player hits: the popped top card goes on the end of the player's hand. */
  function HitPlayer(t: Table): (r: Table)
    requires |t.deck| > 0
    ensures r.player == t.player + [t.deck[|t.deck| - 1]]
    ensures r.deck == t.deck[..|t.deck| - 1] && r.dealer == t.dealer
    ensures CardsOf(r) == CardsOf(t)
  {
    PopConserves(t.deck);
    t.(deck := Rest(t.deck), player := t.player + [Top(t.deck)])
  }

  /** The dealer draws one card: the popped top card goes on the end of the dealer's hand. */
  function HitDealer(t: Table): (r: Table)
    requires |t.deck| > 0
    ensures r.dealer == t.dealer + [t.deck[|t.deck| - 1]]
    ensures r.deck == t.deck[..|t.deck| - 1] && r.player == t.player
    ensures CardsOf(r) == CardsOf(t)
  {
    PopConserves(t.deck);
    t.(deck := Rest(t.deck), dealer := t.dealer + [Top(t.deck)])
  }

  /**
   * `r` is what the dealer's turn can leave of `t`: the dealer's hand is the
   * old hand followed by cards popped from the top of the deck in order, the
   * player's hand is untouched, a card was drawn only while the dealer's hand
   * was worth less than 17, and the dealer ends on 17 or more.
   */
  ghost predicate DealerResult(t: Table, r: Table)
  {
    TakenFromTop(t, r) && StoppedAtStand(t, r)
  }

  /** The shape of a dealer's turn: the old hand, then cards popped from the top in order. */
  ghost predicate TakenFromTop(t: Table, r: Table)
  {
    && r.player == t.player
    && |t.dealer| <= |r.dealer|
    && |r.deck| + |r.dealer| == |t.deck| + |t.dealer|
    && r.dealer[..|t.dealer|] == t.dealer
    && r.deck == t.deck[..|r.deck|]
    && (forall k :: |t.dealer| <= k < |r.dealer| ==> r.dealer[k] == t.deck[|t.deck| - 1 - (k - |t.dealer|)])
  }

  /** The stopping rule of a dealer's turn: every draw was made under 17, and the hand ends on 17 or more. */
  ghost predicate StoppedAtStand(t: Table, r: Table)
  {
    && (forall m :: |t.dealer| <= m < |r.dealer| ==> Total(r.dealer[..m]) < DealerStandsOn)
    && Total(r.dealer) >= DealerStandsOn
  }

  /** A dealer already on 17 or more draws nothing. */
  lemma StandingResult(t: Table)
    requires Total(t.dealer) >= DealerStandsOn
    ensures DealerResult(t, t)
  {
  }

  /** Drawing one card below 17 and then finishing from there is a dealer's turn from the start. */
  lemma DrawingResult(t: Table, r: Table)
    requires |t.deck| > 0 && Total(t.dealer) < DealerStandsOn
    requires DealerResult(HitDealer(t), r)
    ensures DealerResult(t, r)
  {
    var u := HitDealer(t);
    DrawnFromTop(t, u, r);
    DrawnBelowStand(t, u, r);
  }

  /** The first card drawn is the old top, and the later ones follow it down the deck. */
  lemma DrawnFromTop(t: Table, u: Table, r: Table)
    requires |t.deck| > 0 && u == HitDealer(t)
    requires TakenFromTop(u, r)
    ensures TakenFromTop(t, r)
  {
    var n := |t.dealer|;
    assert r.dealer[..n] == r.dealer[..n + 1][..n];
    assert r.dealer[n] == u.dealer[n];
    assert u.deck[..|r.deck|] == t.deck[..|r.deck|];
    forall k | |u.dealer| <= k < |r.dealer|
      ensures r.dealer[k] == t.deck[|t.deck| - 1 - (k - |t.dealer|)]
    {
      assert u.deck[|u.deck| - 1 - (k - |u.dealer|)] == t.deck[|t.deck| - 1 - (k - |t.dealer|)];
    }
  }

  /** A hand under 17 followed by draws made under 17 was under 17 before every draw. */
  lemma DrawnBelowStand(t: Table, u: Table, r: Table)
    requires |u.dealer| == |t.dealer| + 1 <= |r.dealer| && r.dealer[..|t.dealer|] == t.dealer
    requires Total(t.dealer) < DealerStandsOn && StoppedAtStand(u, r)
    ensures StoppedAtStand(t, r)
  {
    forall m | |t.dealer| <= m < |r.dealer|
      ensures Total(r.dealer[..m]) < DealerStandsOn
    {
      if m == |t.dealer| {
        assert r.dealer[..m] == t.dealer;
      }
    }
  }

  /**
   * The dealer's loop: draw while the hand is worth less than 17. The deck
   * never runs out, because a hand worth less than 17 holds at most 16 cards.
   */
  function DealerPlay(t: Table): (r: Table)
    requires |t.deck| + |t.dealer| >= DealerStandsOn
    ensures DealerResult(t, r)
    ensures CardsOf(r) == CardsOf(t)
    decreases |t.deck|
  {
    if Total(t.dealer) < DealerStandsOn then
      HandSizeBound(t.dealer);
      var r := DealerPlay(HitDealer(t));
      DrawingResult(t, r);
      r
    else
      StandingResult(t);
      t
  }

  /** Two dealer's turns from the same table agree card for card as far as both go. */
  lemma CommonDraws(t: Table, r: Table, s: Table, m: nat)
    requires DealerResult(t, r) && DealerResult(t, s)
    requires m <= |r.dealer| && m <= |s.dealer|
    ensures r.dealer[..m] == s.dealer[..m]
  {
    var n := |t.dealer|;
    forall k | 0 <= k < m
      ensures r.dealer[k] == s.dealer[k]
    {
      if k < n {
        assert r.dealer[k] == r.dealer[..n][k] == t.dealer[k];
        assert s.dealer[k] == s.dealer[..n][k] == t.dealer[k];
      }
    }
  }

  /**
   * A dealer's turn stops at the first hand worth 17 or more, so no turn from
   * the same table draws more cards than another.
   */
  lemma StopsAtFirstStand(t: Table, r: Table, s: Table)
    requires DealerResult(t, r) && DealerResult(t, s)
    ensures |r.dealer| <= |s.dealer|
  {
    assert s.dealer[..|s.dealer|] == s.dealer;
    if |s.dealer| < |r.dealer| {
      CommonDraws(t, r, s, |s.dealer|);
      assert false;
    }
  }

  /**
   * The description of a dealer's turn leaves no freedom: a table that
   * satisfies it is the one the dealer's loop produces.
   */
  lemma DealerResultUnique(t: Table, r: Table)
    requires |t.deck| + |t.dealer| >= DealerStandsOn
    requires DealerResult(t, r)
    ensures r == DealerPlay(t)
  {
    var s := DealerPlay(t);
    StopsAtFirstStand(t, r, s);
    StopsAtFirstStand(t, s, r);
    CommonDraws(t, r, s, |r.dealer|);
    assert r.dealer == r.dealer[..|r.dealer|] == s.dealer[..|s.dealer|] == s.dealer;
  }
}
