/** Hand scoring (calculateScore) and the two-card natural. */
module Scoring {
  import opened Cards

  function Value(c: Card): int
  {
    c.value
  }

  /** The sum of the cards' high values (the source's `reduce`). */
  function RawSum(h: seq<Card>): int
  {
    Tally(h, Value)
  }

  /** The number of aces in the hand (the source's `filter(...).length`). */
  function AceCount(h: seq<Card>): int
  {
    Tally(h, RankMark(Ace))
  }

  /** The downgrade loop: 10 comes off the total, one ace at a time, while the total
      is above 21 and an ace is left. */
  function Downgrade(total: int, aces: int): int
    decreases aces
  {
    if total > 21 && aces > 0 then Downgrade(total - 10, aces - 1) else total
  }

  /** The value calculateScore returns for a hand. */
  function Score(h: seq<Card>): int
  {
    Downgrade(RawSum(h), AceCount(h))
  }

  /** calculateScore: the raw sum, then the downgrade loop. */
  method CalculateScore(h: seq<Card>) returns (score: int)
    ensures score == Score(h)
  {
    score := RawSum(h);
    var aceCount := AceCount(h);
    while score > 21 && aceCount > 0
      invariant Downgrade(score, aceCount) == Score(h)
      decreases aceCount
    {
      score := score - 10;
      aceCount := aceCount - 1;
    }
  }

  /** A two-card hand worth 21, the case the source celebrates. */
  predicate IsNatural(h: seq<Card>)
  {
    |h| == 2 && Score(h) == 21
  }

  // ---- What the downgrade loop computes ----

  function Min(a: int, b: int): int
  {
    if a <= b then a else b
  }

  function Max(a: int, b: int): int
  {
    if a <= b then b else a
  }

  /** The number of aces the loop downgrades: as many as bring the total to 21 or below,
      but no more than there are aces. */
  function DowngradesNeeded(total: int, aces: int): int
  {
    Min(aces, Max(0, (total - 12) / 10))
  }

  lemma {:induction false} DowngradeClosedForm(total: int, aces: int)
    requires aces >= 0
    ensures Downgrade(total, aces) == total - 10 * DowngradesNeeded(total, aces)
    decreases aces
  {
    if total > 21 && aces > 0 {
      DowngradeClosedForm(total - 10, aces - 1);
      assert (total - 22) / 10 == (total - 12) / 10 - 1;
    } else if total <= 21 {
      assert (total - 12) / 10 <= 0;
    }
  }

  /** The loop never takes off more than one 10 per ace; a total it leaves above 21 has had
      every ace downgraded; and each downgrade it made was taken from a total above 21. */
  lemma {:induction false} DowngradeFacts(total: int, aces: int)
    requires aces >= 0
    ensures total - 10 * aces <= Downgrade(total, aces) <= total
    ensures Downgrade(total, aces) > 21 ==> Downgrade(total, aces) == total - 10 * aces
    ensures Downgrade(total, aces) < total ==> Downgrade(total, aces) + 10 > 21
    decreases aces
  {
    if total > 21 && aces > 0 {
      DowngradeFacts(total - 10, aces - 1);
    }
  }

  lemma AceCountBounds(h: seq<Card>)
    ensures 0 <= AceCount(h)
  {
    TallyNonNegative(h, RankMark(Ace));
  }

  /** The score is the raw sum less 10 for each ace the loop needed to downgrade. */
  lemma ScoreClosedForm(h: seq<Card>)
    ensures Score(h) == RawSum(h) - 10 * DowngradesNeeded(RawSum(h), AceCount(h))
  {
    AceCountBounds(h);
    DowngradeClosedForm(RawSum(h), AceCount(h));
  }

  /** The score lies between the all-aces-low total and the raw sum. */
  lemma ScoreBounds(h: seq<Card>)
    ensures RawSum(h) - 10 * AceCount(h) <= Score(h) <= RawSum(h)
  {
    AceCountBounds(h);
    DowngradeFacts(RawSum(h), AceCount(h));
  }

  /** A hand that still scores above 21 has every ace counted as 1. */
  lemma BustHasAllAcesLow(h: seq<Card>)
    requires Score(h) > 21
    ensures Score(h) == RawSum(h) - 10 * AceCount(h)
  {
    AceCountBounds(h);
    DowngradeFacts(RawSum(h), AceCount(h));
  }

  /** If an ace was downgraded, the total before the last downgrade was above 21. */
  lemma DowngradeOnlyWhenBust(h: seq<Card>)
    requires Score(h) < RawSum(h)
    ensures Score(h) + 10 > 21
  {
    AceCountBounds(h);
    DowngradeFacts(RawSum(h), AceCount(h));
  }

  /** The score does not depend on the order of the cards. */
  lemma ScoreOrderIndependent(h1: seq<Card>, h2: seq<Card>)
    requires multiset(h1) == multiset(h2)
    ensures Score(h1) == Score(h2)
  {
    TallyPermutation(h1, h2, Value);
    TallyPermutation(h1, h2, RankMark(Ace));
  }

  lemma TallyPair(a: Card, b: Card, f: Card -> int)
    ensures Tally([a, b], f) == f(a) + f(b)
  {
    assert [a, b][1..] == [b];
    assert [b][1..] == [];
    assert Tally([b], f) == f(b) + Tally([], f);
    assert Tally([a, b], f) == f(a) + Tally([b], f);
  }

  lemma EmptyHandScore()
    ensures Score([]) == 0
  {
  }

  /** Two aces count 12, never 22. */
  lemma TwoAcesScore(s1: Suit, s2: Suit)
    ensures Score([MakeCard(s1, Ace), MakeCard(s2, Ace)]) == 12
  {
    var h := [MakeCard(s1, Ace), MakeCard(s2, Ace)];
    TallyPair(h[0], h[1], Value);
    TallyPair(h[0], h[1], RankMark(Ace));
    assert RawSum(h) == 22 && AceCount(h) == 2;
    assert Downgrade(22, 2) == Downgrade(12, 1) == 12;
  }

  /** Ace, ace, nine counts 21: exactly one ace is downgraded. */
  lemma AceAceNineScore(s1: Suit, s2: Suit, s3: Suit)
    ensures Score([MakeCard(s1, Ace), MakeCard(s2, Ace), MakeCard(s3, Pip(9))]) == 21
  {
    var h := [MakeCard(s1, Ace), MakeCard(s2, Ace), MakeCard(s3, Pip(9))];
    assert h == [h[0]] + [h[1], h[2]];
    TallyConcat([h[0]], [h[1], h[2]], Value);
    TallyConcat([h[0]], [h[1], h[2]], RankMark(Ace));
    TallyPair(h[1], h[2], Value);
    TallyPair(h[1], h[2], RankMark(Ace));
    assert RawSum(h) == 31 && AceCount(h) == 2;
  }

  // ---- Two-card hands and the natural ----

  lemma StandardValue(c: Card)
    requires Standard(c)
    ensures 2 <= c.value <= 11
    ensures c.value == 11 <==> c.rank == Ace
  {
  }

  /** Two cards from the deck never bust, and score at least 4. */
  lemma TwoCardScore(h: seq<Card>)
    requires |h| == 2 && Standard(h[0]) && Standard(h[1])
    ensures 4 <= Score(h) <= 21
  {
    StandardValue(h[0]);
    StandardValue(h[1]);
    assert h == [h[0], h[1]];
    TallyPair(h[0], h[1], Value);
    TallyPair(h[0], h[1], RankMark(Ace));
  }

  /** With cards from the deck, a natural is exactly an ace together with a ten-valued card. */
  lemma NaturalIsAceAndTen(h: seq<Card>)
    requires forall i :: 0 <= i < |h| ==> Standard(h[i])
    ensures IsNatural(h) <==>
            |h| == 2 && ((h[0].rank == Ace && h[1].value == 10) || (h[1].rank == Ace && h[0].value == 10))
  {
    if |h| == 2 {
      StandardValue(h[0]);
      StandardValue(h[1]);
      assert h == [h[0], h[1]];
      TallyPair(h[0], h[1], Value);
      TallyPair(h[0], h[1], RankMark(Ace));
    }
  }

  // ---- Hands drawn from one deck are short ----

  /** Every deck card is worth at least 3 once an ace counts 1 (3 - 2) and a two counts 2 (3 - 1). */
  lemma {:induction false} LowValueBound(h: seq<Card>)
    requires forall i :: 0 <= i < |h| ==> Standard(h[i])
    ensures RawSum(h) - 8 * AceCount(h) + Tally(h, RankMark(Pip(2))) >= 3 * |h|
  {
    if h != [] {
      LowValueBound(h[1..]);
      assert Standard(h[0]);
    }
  }

  /** Every card of a hand drawn from the deck is a deck card. */
  lemma FromDeckIsStandard(h: seq<Card>)
    requires multiset(h) <= multiset(FullDeck())
    ensures forall i :: 0 <= i < |h| ==> Standard(h[i])
  {
    forall i | 0 <= i < |h|
      ensures Standard(h[i])
    {
      assert h[i] in multiset(h);
      FullDeckExactlyOnce(h[i]);
    }
  }

  /** A hand drawn from the deck holds at most four cards of any rank. */
  lemma FromDeckRankBound(h: seq<Card>, r: Rank)
    requires multiset(h) <= multiset(FullDeck())
    ensures Tally(h, RankMark(r)) <= 4
  {
    TallySubMultiset(h, FullDeck(), RankMark(r));
    FullDeckRankCount(r);
  }

  /** A hand drawn from one deck scores at least 3 per card less 12 (its at most four aces
      and four twos), so a hand of 12 or more cards is always bust. */
  lemma HandSizeBound(h: seq<Card>)
    requires multiset(h) <= multiset(FullDeck())
    ensures Score(h) >= 3 * |h| - 12
  {
    FromDeckIsStandard(h);
    LowValueBound(h);
    FromDeckRankBound(h, Ace);
    FromDeckRankBound(h, Pip(2));
    ScoreBounds(h);
  }
}
