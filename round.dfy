/** The rules of a round on values: settlement, the dealer's turn, and the invariant the
    page's state keeps from handler to handler, with one lemma per handler showing that the
    handler's change of state keeps it. */
module Round {
  import opened Cards
  import opened Scoring

  datatype Option<T> = None | Some(value: T)

  /** Idle: first load, only deal offered. PlayerTurn: hit and stand offered.
      Settled: the round is over and deal is offered again. Bankrupt: only restart offered. */
  datatype Phase = Idle | PlayerTurn | Settled | Bankrupt

  /** The deal handler either deals, or rejects the bet with one of its two alerts. */
  datatype DealResult = Dealt | InvalidBet | InsufficientChips

  datatype Outcome = Win | Lose | Push

  /** The balance on a first visit, after an unreadable or zero stored balance, and after restart. */
  const StartingChips: int := 100

  // ---- Settlement ----

  /** The branch the stand handler takes: the player wins on a dealer bust or a higher score,
      loses on a lower score, and pushes on a tie. */
  function Settle(playerScore: int, dealerScore: int): Outcome
  {
    if dealerScore > 21 || playerScore > dealerScore then Win
    else if playerScore < dealerScore then Lose
    else Push
  }

  /** What the stand handler credits; the bet itself was already debited by the deal. */
  function Payout(o: Outcome, bet: int): int
  {
    match o
    case Win => 2 * bet
    case Push => bet
    case Lose => 0
  }

  /** A total as it counts against the other side: a bust counts as nothing. */
  function Standing(score: int): int
  {
    if score > 21 then 0 else score
  }

  function Compare(mine: int, theirs: int): Outcome
  {
    if mine > theirs then Win else if mine < theirs then Lose else Push
  }

  /** For a player who has not bust, the stand handler's branches are a plain comparison of
      the two standings. */
  lemma SettleComparesStandings(playerScore: int, dealerScore: int)
    requires 0 < playerScore <= 21
    ensures Settle(playerScore, dealerScore) == Compare(Standing(playerScore), Standing(dealerScore))
  {
  }

  /** Counted from before the deal's debit, a round wins the bet, returns it, or loses it. */
  lemma RoundNetChange(o: Outcome, bet: int)
    ensures Payout(o, bet) - bet == match o case Win => bet case Push => 0 case Lose => -bet
  {
  }

  // ---- The dealer's turn ----

  /** The stand handler's dealer loop: draw from the end of the deck while the dealer's score
      is below 17. (It also stops on an empty deck, which a round never reaches: see DealerDraw.) */
  function DealerPlay(hand: seq<Card>, deck: seq<Card>): (seq<Card>, seq<Card>)
    decreases |deck|
  {
    if Score(hand) >= 17 || deck == [] then (hand, deck)
    else DealerPlay(hand + [deck[|deck| - 1]], deck[..|deck| - 1])
  }

  function Reversed(s: seq<Card>): (r: seq<Card>)
    ensures |r| == |s|
  {
    if s == [] then [] else Reversed(s[1..]) + [s[0]]
  }

  /** The dealer keeps its hand and adds cards taken one by one from the end of the deck (so
      the deck before the turn is the deck after it followed by the drawn cards in reverse);
      each card was drawn while the hand scored below 17, and the turn ends at 17 or more. */
  lemma {:induction false} DealerDrawsBelow17(hand: seq<Card>, deck: seq<Card>)
    ensures var r := DealerPlay(hand, deck);
      |hand| <= |r.0| && r.0[..|hand|] == hand &&
      deck == r.1 + Reversed(r.0[|hand|..]) &&
      (forall k :: |hand| <= k < |r.0| ==> Score(r.0[..k]) < 17) &&
      (Score(r.0) >= 17 || r.1 == [])
    decreases |deck|
  {
    var r := DealerPlay(hand, deck);
    if Score(hand) >= 17 || deck == [] {
      assert r.0[|hand|..] == [];
    } else {
      var top := deck[|deck| - 1];
      var hand', deck' := hand + [top], deck[..|deck| - 1];
      DealerDrawsBelow17(hand', deck');
      assert r == DealerPlay(hand', deck');
      assert r.0[..|hand|] == r.0[..|hand'|][..|hand|];
      var drawn := r.0[|hand|..];
      assert drawn[0] == top && drawn[1..] == r.0[|hand'|..];
      assert deck == deck' + [top];
      forall k | |hand| <= k < |r.0|
        ensures Score(r.0[..k]) < 17
      {
        if k == |hand| {
          assert r.0[..k] == hand;
        }
      }
    }
  }

  // ---- Cards in play ----

  /** The deck and the two hands hold the 52 cards between them. */
  ghost predicate AllCards(deck: seq<Card>, player: seq<Card>, dealer: seq<Card>)
  {
    multiset(deck) + multiset(player) + multiset(dealer) == multiset(FullDeck())
  }

  /** Moving the deck's last card to the end of the player's hand keeps all the cards in play. */
  lemma DrawToPlayer(deck: seq<Card>, player: seq<Card>, dealer: seq<Card>)
    requires deck != [] && AllCards(deck, player, dealer)
    ensures AllCards(deck[..|deck| - 1], player + [deck[|deck| - 1]], dealer)
  {
    assert deck == deck[..|deck| - 1] + [deck[|deck| - 1]];
  }

  /** Moving the deck's last card to the end of the dealer's hand keeps all the cards in play. */
  lemma DrawToDealer(deck: seq<Card>, player: seq<Card>, dealer: seq<Card>)
    requires deck != [] && AllCards(deck, player, dealer)
    ensures AllCards(deck[..|deck| - 1], player, dealer + [deck[|deck| - 1]])
  {
    assert deck == deck[..|deck| - 1] + [deck[|deck| - 1]];
  }

  /** With all 52 cards in play, each hand is drawn from the deck and the deck holds the rest. */
  lemma InPlay(deck: seq<Card>, player: seq<Card>, dealer: seq<Card>)
    requires AllCards(deck, player, dealer)
    ensures |deck| == 52 - |player| - |dealer|
    ensures multiset(player) <= multiset(FullDeck())
    ensures multiset(dealer) <= multiset(FullDeck())
  {
    assert |multiset(FullDeck())| == 52;
  }

  /** The deck never runs out: while the player has not bust and the dealer either holds
      the first two cards or is below 17, at least 32 cards remain. */
  lemma DeckNotEmpty(deck: seq<Card>, player: seq<Card>, dealer: seq<Card>)
    requires AllCards(deck, player, dealer)
    requires Score(player) <= 21 && (|dealer| == 2 || Score(dealer) < 17)
    ensures |deck| >= 32
  {
    InPlay(deck, player, dealer);
    HandSizeBound(player);
    HandSizeBound(dealer);
  }

  // ---- The state between handlers ----

  /** Between rounds nothing is dealt. Once a round has been dealt, the deck and the two
      hands together are exactly the 52 cards, the bet is positive and the chips are not
      negative. While the player acts, the player has not bust and the dealer holds two
      cards. The game is bankrupt exactly when a round ended with no chips. */
  ghost predicate Consistent(deck: seq<Card>, player: seq<Card>, dealer: seq<Card>,
                             chips: int, bet: int, phase: Phase)
  {
    (phase == Idle ==> deck == [] && player == [] && dealer == []) &&
    (phase != Idle ==>
       AllCards(deck, player, dealer) && 0 < bet && 0 <= chips &&
       |player| >= 2 && |dealer| >= 2) &&
    (phase == PlayerTurn ==> Score(player) <= 21 && |dealer| == 2) &&
    (phase == Settled ==> chips > 0) &&
    (phase == Bankrupt ==> chips == 0)
  }

  /** The phase endGame leaves: a balance of 0 or less hides deal and offers restart. */
  function EndPhase(chips: int): (p: Phase)
    ensures p == Bankrupt <==> chips <= 0
    ensures p == Settled <==> chips > 0
  {
    if chips <= 0 then Bankrupt else Settled
  }

  /** The phase after a hit: the player acts on unless the hand is bust. */
  function AfterHit(player: seq<Card>, chips: int): (p: Phase)
    ensures p == PlayerTurn <==> Score(player) <= 21
  {
    if Score(player) > 21 then EndPhase(chips) else PlayerTurn
  }

  /** A deal from a full shuffled deck: the player takes the last two cards and the dealer
      the two before them, and the player has not bust. */
  lemma DealKeeps(d: seq<Card>, chips: int, bet: int)
    requires |d| == 52 && multiset(d) == multiset(FullDeck())
    requires 0 < bet && 0 <= chips
    ensures Consistent(d[..48], [d[51], d[50]], [d[49], d[48]], chips, bet, PlayerTurn)
  {
    DealSplitsDeck(d);
    DeckCardIsStandard(d, 51);
    DeckCardIsStandard(d, 50);
    TwoCardScore([d[51], d[50]]);
  }

  /** Dealing moves four cards from the deck's end into the hands and loses none. */
  lemma DealSplitsDeck(d: seq<Card>)
    requires |d| == 52
    ensures multiset(d[..48]) + multiset([d[51], d[50]]) + multiset([d[49], d[48]]) == multiset(d)
  {
    assert d == d[..48] + [d[48], d[49], d[50], d[51]];
  }

  lemma DeckCardIsStandard(d: seq<Card>, i: nat)
    requires i < |d| && multiset(d) == multiset(FullDeck())
    ensures Standard(d[i])
  {
    assert d[i] in multiset(d);
    FullDeckExactlyOnce(d[i]);
  }

  /** A hit takes a card that is there, and leaves a consistent state in the phase it names. */
  lemma HitKeeps(deck: seq<Card>, player: seq<Card>, dealer: seq<Card>, chips: int, bet: int)
    requires Consistent(deck, player, dealer, chips, bet, PlayerTurn)
    ensures deck != []
    ensures var p := player + [deck[|deck| - 1]];
            Consistent(deck[..|deck| - 1], p, dealer, chips, bet, AfterHit(p, chips))
  {
    DeckNotEmpty(deck, player, dealer);
    DrawToPlayer(deck, player, dealer);
  }

  /** During the dealer's turn: all cards in play, the player standing on at most 21. */
  ghost predicate DealerTurn(deck: seq<Card>, player: seq<Card>, dealer: seq<Card>)
  {
    AllCards(deck, player, dealer) && Score(player) <= 21 && |player| >= 2 && |dealer| >= 2
  }

  /** Standing starts the dealer's turn. */
  lemma StandStarts(deck: seq<Card>, player: seq<Card>, dealer: seq<Card>, chips: int, bet: int)
    requires Consistent(deck, player, dealer, chips, bet, PlayerTurn)
    ensures DealerTurn(deck, player, dealer)
  {
  }

  /** Each pass of the dealer loop has a card to draw, and the turn goes on. */
  lemma DealerDraw(deck: seq<Card>, player: seq<Card>, dealer: seq<Card>)
    requires DealerTurn(deck, player, dealer) && Score(dealer) < 17
    ensures deck != []
    ensures DealerTurn(deck[..|deck| - 1], player, dealer + [deck[|deck| - 1]])
  {
    DeckNotEmpty(deck, player, dealer);
    DrawToDealer(deck, player, dealer);
  }

  /** Settling the round credits the payout and leaves a consistent settled or bankrupt state. */
  lemma SettleKeeps(deck: seq<Card>, player: seq<Card>, dealer: seq<Card>, chips: int, bet: int)
    requires DealerTurn(deck, player, dealer) && 0 < bet && 0 <= chips
    ensures var c := chips + Payout(Settle(Score(player), Score(dealer)), bet);
            Consistent(deck, player, dealer, c, bet, EndPhase(c))
  {
  }
}
