/** The page's globals (deck, hands, chips, current bet) as the fields of one game, and the
    deal, hit, stand and restart handlers as its methods. The controls the page enables,
    disables or hides are made explicit as a phase that each handler requires. */
module Blackjack {
  import opened Cards
  import opened Scoring
  import opened Round

  class Game {
    var deck: seq<Card>
    var playerHand: seq<Card>
    var dealerHand: seq<Card>
    var playerChips: int
    var currentBet: int
    var phase: Phase

    ghost predicate Valid()
      reads this
    {
      Consistent(deck, playerHand, dealerHand, playerChips, currentBet, phase)
    }

    /** Page load: the balance is the stored one as parseInt read it, or 100 when it is
        missing, unreadable or zero (`parseInt(...) || 100`). */
    constructor (stored: Option<int>)
      ensures Valid() && phase == Idle
      ensures playerChips == if stored.Some? && stored.value != 0 then stored.value else StartingChips
      ensures currentBet == 0 && deck == [] && playerHand == [] && dealerHand == []
    {
      deck, playerHand, dealerHand := [], [], [];
      playerChips := if stored.Some? && stored.value != 0 then stored.value else StartingChips;
      currentBet := 0;
      phase := Idle;
    }

    /** `deck.pop()`: take the last card of the deck. */
    method Pop() returns (c: Card)
      requires deck != []
      modifies this`deck
      ensures c == old(deck)[|old(deck)| - 1] && deck == old(deck)[..|old(deck)| - 1]
    {
      c := deck[|deck| - 1];
      deck := deck[..|deck| - 1];
    }

    /** `[deck.pop(), deck.pop()]`: the last card of the deck, then the one before it. */
    method PopPair() returns (pair: seq<Card>)
      requires |deck| >= 2
      modifies this`deck
      ensures pair == [old(deck)[|old(deck)| - 1], old(deck)[|old(deck)| - 2]]
      ensures deck == old(deck)[..|old(deck)| - 2]
    {
      var first := Pop();
      var second := Pop();
      pair := [first, second];
      assert old(deck)[..|old(deck)| - 1][..|old(deck)| - 2] == old(deck)[..|old(deck)| - 2];
    }

    /** The chip logic of endGame: a balance of 0 or less ends the game until restart. */
    method EndGame()
      modifies this`phase
      ensures phase == EndPhase(playerChips)
    {
      if playerChips <= 0 {
        phase := Bankrupt;
      } else {
        phase := Settled;
      }
    }

    /** The deal handler. A bet that did not parse or is not positive, or that exceeds the
        chips, is rejected and nothing changes. Otherwise the round is dealt. */
    method Deal(bet: Option<int>, js: seq<nat>) returns (r: DealResult)
      requires Valid() && (phase == Idle || phase == Settled)
      requires SwapIndices(js, 52)
      modifies this
      ensures Valid()
      ensures r == if bet.None? || bet.value <= 0 then InvalidBet
                   else if bet.value > old(playerChips) then InsufficientChips
                   else Dealt
      ensures r != Dealt ==> unchanged(this)
      ensures r == Dealt ==>
                var d := Shuffled(FullDeck(), js);
                phase == PlayerTurn && currentBet == bet.value &&
                playerChips == old(playerChips) - bet.value &&
                playerHand == [d[51], d[50]] && dealerHand == [d[49], d[48]] && deck == d[..48]
    {
      if bet.None? || bet.value <= 0 {
        return InvalidBet;
      }
      if bet.value > playerChips {
        return InsufficientChips;
      }
      DealCards(bet.value, js);
      r := Dealt;
    }

    /** An accepted bet: it is debited, a fresh deck is built and shuffled with the swap
        partners `js`, and the player takes the last two cards and the dealer the two
        before them. */
    method DealCards(bet: int, js: seq<nat>)
      requires 0 < bet <= playerChips
      requires SwapIndices(js, 52)
      modifies this
      ensures Valid()
      ensures var d := Shuffled(FullDeck(), js);
              phase == PlayerTurn && currentBet == bet &&
              playerChips == old(playerChips) - bet &&
              playerHand == [d[51], d[50]] && dealerHand == [d[49], d[48]] && deck == d[..48]
    {
      currentBet := bet;
      playerChips := playerChips - currentBet;
      deck := CreateDeck(js);
      ghost var d := deck;
      playerHand := PopPair();
      dealerHand := PopPair();
      phase := PlayerTurn;
      assert d[..50][..48] == d[..48];
      DealKeeps(d, playerChips, currentBet);
    }

    /** The hit handler: the last card of the deck goes to the end of the player's hand
        (the deck never runs out). A bust ends the round with no credit and no dealer draw. */
    method Hit() returns (bust: bool)
      requires Valid() && phase == PlayerTurn
      modifies this
      ensures Valid()
      ensures |old(deck)| > 0
      ensures playerHand == old(playerHand) + [old(deck)[|old(deck)| - 1]]
      ensures deck == old(deck)[..|old(deck)| - 1]
      ensures dealerHand == old(dealerHand) && playerChips == old(playerChips)
      ensures currentBet == old(currentBet)
      ensures bust <==> Score(playerHand) > 21
      ensures phase == if bust then EndPhase(playerChips) else PlayerTurn
    {
      HitKeeps(deck, playerHand, dealerHand, playerChips, currentBet);
      var c := Pop();
      playerHand := playerHand + [c];
      var score := CalculateScore(playerHand);
      bust := score > 21;
      if bust {
        EndGame();
      }
    }

    /** The stand handler: the dealer draws while below 17, then the round is settled:
        twice the bet back on a win, the bet back on a push, nothing on a loss. */
    method Stand() returns (outcome: Outcome)
      requires Valid() && phase == PlayerTurn
      modifies this
      ensures Valid()
      ensures (dealerHand, deck) == DealerPlay(old(dealerHand), old(deck))
      ensures Score(dealerHand) >= 17
      ensures playerHand == old(playerHand) && currentBet == old(currentBet)
      ensures outcome == Settle(Score(playerHand), Score(dealerHand))
      ensures playerChips == old(playerChips) + Payout(outcome, currentBet)
      ensures phase == EndPhase(playerChips)
    {
      StandStarts(deck, playerHand, dealerHand, playerChips, currentBet);
      var dScore := DealerTurnLoop();
      SettleKeeps(deck, playerHand, dealerHand, playerChips, currentBet);
      var pScore := CalculateScore(playerHand);
      if dScore > 21 || pScore > dScore {
        playerChips := playerChips + currentBet * 2;
        outcome := Win;
      } else if pScore < dScore {
        outcome := Lose;
      } else {
        playerChips := playerChips + currentBet;
        outcome := Push;
      }
      EndGame();
    }

    /** The stand handler's dealer loop: the last card of the deck goes to the dealer while
        the dealer scores below 17; the deck never runs out. */
    method DealerTurnLoop() returns (dScore: int)
      requires DealerTurn(deck, playerHand, dealerHand)
      modifies this`deck, this`dealerHand
      ensures DealerTurn(deck, playerHand, dealerHand)
      ensures (dealerHand, deck) == DealerPlay(old(dealerHand), old(deck))
      ensures dScore == Score(dealerHand) && dScore >= 17
    {
      dScore := CalculateScore(dealerHand);
      while dScore < 17
        invariant DealerPlay(dealerHand, deck) == DealerPlay(old(dealerHand), old(deck))
        invariant dScore == Score(dealerHand)
        invariant DealerTurn(deck, playerHand, dealerHand)
        decreases |deck|
      {
        DealerDraw(deck, playerHand, dealerHand);
        var c := Pop();
        dealerHand := dealerHand + [c];
        dScore := CalculateScore(dealerHand);
      }
    }

    /** The restart handler: the balance is reset to 100 and the page reloads into a fresh game. */
    method Restart()
      requires Valid() && phase == Bankrupt
      modifies this
      ensures Valid() && phase == Idle && playerChips == StartingChips
      ensures currentBet == 0 && deck == [] && playerHand == [] && dealerHand == []
    {
      playerChips := StartingChips;
      deck, playerHand, dealerHand := [], [], [];
      currentBet := 0;
      phase := Idle;
    }
  }
}
