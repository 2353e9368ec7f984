# Blackjack round engine in Dafny

This project models the game logic of a single-page blackjack table (`script.js`). The
player starts with a stored balance of chips, or 100. The player bets and receives two
cards; the dealer receives two. The player then hits or stands, and the dealer draws to
17. The round is settled with double the bet back on a win, the bet back on a tie, and
nothing on a loss. A player left with no chips can only restart with 100.

The model has four modules:

- `Cards` (`cards.dfy`): the card record, and the 52-card deck that `createDeck` builds
  with its nested loops. The Fisher–Yates swap loop runs in place on an `array`, with the
  random choice of each swap partner supplied as a sequence `js`. Also here: the per-card
  tallies (sum of values, count of a rank) that hand scoring is built from.
- `Scoring` (`scoring.dfy`): `calculateScore` as a method with its loop, proved equal to
  the function `Score`. Also the closed form of the ace-downgrade loop, its bounds, and
  the two-card natural that the page celebrates. A hand drawn from one deck always busts
  by its twelfth card, so the deck cannot run out.
- `Round` (`round.dfy`): rules on values. Settlement and payout; the dealer's turn as a
  function; the invariant that the page state keeps between handlers (`Consistent`); and
  one lemma per handler showing that the handler keeps that invariant.
- `Blackjack` (`game.dfy`): the page's globals (`deck`, `playerHand`, `dealerHand`,
  `playerChips`, `currentBet`) as fields of a class `Game`. The deal, hit, stand and
  restart handlers and `endGame`'s chip logic are its methods.

The page enables, disables or hides the deal, hit, stand and restart buttons. The model
makes this explicit as a `phase` field:

- `Idle`: first load.
- `PlayerTurn`: hit and stand are enabled.
- `Settled`: deal is enabled again.
- `Bankrupt`: only restart is shown.

Each handler requires the phase in which its button can be clicked.

## Model

| member | source | states |
|---|---|---|
| Cards.BuildCards | script.js:60-68 | the nested suit/rank loops produce exactly `FullDeck()`, suit by suit and rank by rank, each card's value set as at lines 63-65 |
| Cards.FullDeckIsRows | script.js:61-68 | the indexed description of the deck (card `i` has suit `i / 13` and rank `i % 13`) is the order in which the nested loops push the cards |
| Cards.FullDeckExactlyOnce | script.js:61-68 | the built deck holds every (suit, rank) pair once, with the value the source gives it, and no other card |
| Cards.FullDeckRankCount | script.js:61-68 | the built deck holds four cards of each of the 13 ranks and none of any other rank |
| Cards.ShuffleInPlace | script.js:69-72 | the in-place swap loop leaves the array equal to `Shuffled(old contents, js)`, for swap partners `j <= i` as `Math.floor(Math.random() * (i + 1))` yields |
| Cards.ShuffledIsPermutation | script.js:69-72 | the swap loop only permutes the deck: the multiset of cards is unchanged |
| Cards.CreateDeck | script.js:59-73 | `createDeck` returns the 52 cards, shuffled by the swap loop with partners `js`, as a permutation of the full deck |
| Cards.TallyPermutation | script.js:83-84 | the `reduce` sum of values and the `filter` count of aces do not depend on the order of the cards |
| Cards.TallySubMultiset | script.js:83-84 | a non-negative tally over cards drawn from a larger collection is at most the tally over that collection |
| Scoring.CalculateScore | script.js:82-90 | the method (sum, ace count, downgrade loop) returns `Score(h)` |
| Scoring.DowngradeClosedForm | script.js:85-88 | the loop takes 10 off once for each ace it needs, `min(aces, max(0, (total - 12) / 10))` times |
| Scoring.DowngradeFacts | script.js:85-88 | the loop removes at most 10 per ace; a total still above 21 has had every ace downgraded; a downgrade only happens from above 21 |
| Scoring.ScoreClosedForm | script.js:82-90 | a hand's score is its raw sum less 10 for each ace the loop had to downgrade |
| Scoring.ScoreBounds | script.js:82-90 | the score lies between the all-aces-as-1 total and the raw sum |
| Scoring.BustHasAllAcesLow | script.js:85-88 | a hand that still scores over 21 counts every ace as 1 |
| Scoring.DowngradeOnlyWhenBust | script.js:85-88 | if any ace was downgraded, the total just before the last downgrade was over 21 |
| Scoring.ScoreOrderIndependent | script.js:82-90 | two hands holding the same cards in any order score the same |
| Scoring.EmptyHandScore | script.js:83 | the empty hand scores 0 (the `reduce` seed) |
| Scoring.TwoAcesScore | script.js:85-88 | two aces score 12, not 22 |
| Scoring.AceAceNineScore | script.js:85-88 | ace, ace, nine score 21: exactly one ace is downgraded |
| Scoring.StandardValue | script.js:63-65 | a deck card is worth 2 to 11, and 11 exactly when it is an ace |
| Scoring.TwoCardScore | script.js:148-149 | two deck cards score between 4 and 21, so the opening hand never busts |
| Scoring.NaturalIsAceAndTen | script.js:124 | for deck cards, a two-card hand scoring 21 (the page's celebration test) is exactly an ace together with a ten-valued card |
| Scoring.HandSizeBound | script.js:159 | a hand drawn from one deck scores at least 3 per card less 12, so every hand of 12 or more cards is bust |
| Round.SettleComparesStandings | script.js:174-182 | for a player who has not bust, the stand handler's branches are a plain comparison, with a dealer bust counting as 0 |
| Round.RoundNetChange | script.js:174-182 | counted from before the deal's debit, a win gains the bet, a push gains nothing, a loss loses the bet |
| Round.DealerDrawsBelow17 | script.js:167-169 | the dealer keeps its hand and adds cards taken one by one from the end of the deck; each was drawn while the dealer scored below 17, and the turn ends at 17 or more |
| Round.DrawToPlayer | script.js:159 | moving the deck's last card to the player's hand keeps all 52 cards in play |
| Round.DrawToDealer | script.js:168 | moving the deck's last card to the dealer's hand keeps all 52 cards in play |
| Round.InPlay | script.js:146-149 | with all 52 cards between the deck and the hands, the deck holds 52 less the cards in the hands, and each hand is drawn from the deck |
| Round.DeckNotEmpty | script.js:158-169 | while the player has not bust and the dealer has two cards or is below 17, at least 32 cards remain, so `deck.pop()` never meets an empty deck |
| Round.DealSplitsDeck | script.js:148-149 | the four cards dealt from the end, together with the 48 left, are the whole deck |
| Round.DealKeeps | script.js:146-149 | dealing from a full shuffled deck leaves a consistent player-turn state: all cards in play, a positive bet, chips not negative, the player not bust |
| Round.HitKeeps | script.js:158-164 | a hit always finds a card, and leaves a consistent state: still the player's turn, or settled/bankrupt on a bust |
| Round.StandStarts | script.js:166-167 | standing from a consistent player turn starts the dealer's turn with the player on 21 or less |
| Round.DealerDraw | script.js:167-169 | each pass of the dealer loop finds a card, and the dealer's turn stays consistent |
| Round.SettleKeeps | script.js:174-182 | crediting the payout and ending the round leaves a consistent settled or bankrupt state |
| Blackjack.Game.constructor | script.js:6 | the balance is the stored one, or 100 when it is missing, unreadable or zero; nothing is dealt |
| Blackjack.Game.Pop | script.js:148 | `deck.pop()` returns the deck's last card and removes it |
| Blackjack.Game.PopPair | script.js:148-149 | `[deck.pop(), deck.pop()]` is the last card then the one before it, and both leave the deck |
| Blackjack.Game.EndGame | script.js:199-203 | a balance of 0 or less ends the game until restart; otherwise the round is settled |
| Blackjack.Game.Deal | script.js:136-156 | an unparsable or non-positive bet, or one above the chips, is rejected and nothing changes; otherwise the bet is debited, and the player gets the shuffled deck's last two cards and the dealer the two before them |
| Blackjack.Game.DealCards | script.js:146-149 | debit, fresh shuffled deck, player takes cards 51 and 50 and dealer cards 49 and 48; the game invariant holds |
| Blackjack.Game.Hit | script.js:158-164 | the deck's last card goes to the end of the player's hand; bust exactly when the new score is over 21, which ends the round with no credit |
| Blackjack.Game.DealerTurnLoop | script.js:167-169 | the dealer loop computes `DealerPlay` and stops at 17 or more, keeping all cards in play |
| Blackjack.Game.Stand | script.js:166-183 | the dealer plays out to 17 or more; the outcome is `Settle` of the two scores; the chips rise by the payout; the phase follows `endGame` |
| Blackjack.Game.Restart | script.js:206-210 | the balance is reset to 100 and the game returns to its first-load state |

## Left out

- Sound (the Web Audio synthesiser, `soundDeal`, `soundChip`, `soundWin`, `soundLose`) and
  the choice of sound by searching the end-of-round message for a word: presentation only.
- The DOM: `updateUI`, card HTML, the hidden dealer card, score labels, status messages,
  alerts and the 21-point animation. The animation's condition (line 124) is modelled as
  `Scoring.IsNatural`; what it draws is not.
- `localStorage` and `location.reload`. The constructor takes the stored balance as it
  was parsed (`None` for a missing or unreadable value). Restart models the reload as a
  return to the first-load state with 100 chips. `saveChips` is not modelled.
- `Math.random`: each swap partner is supplied in `js`. `SwapIndices` requires
  `js[i] <= i`, which is the range `Math.floor(Math.random() * (i + 1))` produces.
- `parseInt` on the bet text: the bet arrives as `Option<int>`, where `None` stands for
  `NaN`. Truncation of the text such as "2.5" or "10abc" to an integer is not modelled.
- Numbers are unbounded integers. JavaScript doubles lose precision beyond 2^53 chips;
  the model ignores this.
- Blackjack.Game.Deal: the source stores the parsed bet in `currentBet` before validating
  it. The model leaves the whole state unchanged on a rejected bet. No handler reads
  `currentBet` before the next accepted deal overwrites it.
- Round.DealerPlay also stops on an empty deck. This only makes the function total:
  `Round.DeckNotEmpty` shows a round never reaches that case.
- The phases stand for the enabled, disabled and hidden buttons. A click the page does
  not allow (hit after a bust, deal while bankrupt) is excluded by each method's
  precondition instead of being modelled.
- An `Idle` game with a negative stored balance is accepted as loaded. It can never
  deal, since every positive bet exceeds the balance.
