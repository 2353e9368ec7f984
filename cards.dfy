/** Cards, the 52-card deck that createDeck builds, its Fisher–Yates shuffle,
    and the per-card tallies (sums and counts) that hand scoring is made of. */
module Cards {

  datatype Suit = Hearts | Diamonds | Clubs | Spades

  /** A rank label: the numerals 2..10 (read with parseInt in the source), the court cards and the ace. */
  datatype Rank = Pip(n: int) | Jack | Queen | King | Ace

  /** The card object `{ suit, rank, value }`; `value` is the high point value (11 for an ace). */
  datatype Card = Card(suit: Suit, rank: Rank, value: int)

  const Suits: seq<Suit> := [Hearts, Diamonds, Clubs, Spades]
  const Ranks: seq<Rank> :=
    [Pip(2), Pip(3), Pip(4), Pip(5), Pip(6), Pip(7), Pip(8), Pip(9), Pip(10), Jack, Queen, King, Ace]

  /** The value createDeck attaches to a rank: the numeral, 10 for J/Q/K, 11 for A. */
  function RankValue(r: Rank): int
  {
    match r
    case Pip(n) => n
    case Jack => 10
    case Queen => 10
    case King => 10
    case Ace => 11
  }

  function MakeCard(s: Suit, r: Rank): Card
  {
    Card(s, r, RankValue(r))
  }

  /** A card createDeck can produce: one of the listed ranks, carrying that rank's value. */
  predicate Standard(c: Card)
  {
    c.rank in Ranks && c.value == RankValue(c.rank)
  }

  /** The cards the inner loop pushes for suit `s`, for the ranks `rs` in order. */
  function Row(s: Suit, rs: seq<Rank>): seq<Card>
  {
    if rs == [] then [] else Row(s, rs[..|rs| - 1]) + [MakeCard(s, rs[|rs| - 1])]
  }

  /** The cards the nested loops push for the suits `ss` (outer) and the ranks `rs` (inner). */
  function Rows(ss: seq<Suit>, rs: seq<Rank>): seq<Card>
  {
    if ss == [] then [] else Rows(ss[..|ss| - 1], rs) + Row(ss[|ss| - 1], rs)
  }

  /** The deck before it is shuffled, in the order createDeck pushes it: suit by suit,
      and within a suit rank by rank. */
  function FullDeck(): (d: seq<Card>)
    ensures |d| == 52
  {
    seq(52, i requires 0 <= i < 52 => MakeCard(Suits[i / 13], Ranks[i % 13]))
  }

  /** The deck is what the nested loops push. */
  lemma FullDeckIsRows()
    ensures FullDeck() == Rows(Suits, Ranks)
  {
    RowsLength(Suits, Ranks);
    forall i | 0 <= i < 52
      ensures Rows(Suits, Ranks)[i] == FullDeck()[i]
    {
      RowsAt(Suits, Ranks, i / 13, i % 13);
    }
  }

  lemma {:induction false} RowsAt(ss: seq<Suit>, rs: seq<Rank>, m: nat, k: nat)
    requires m < |ss| && k < |rs|
    ensures |Rows(ss, rs)| == |ss| * |rs|
    ensures Rows(ss, rs)[m * |rs| + k] == MakeCard(ss[m], rs[k])
  {
    RowsLength(ss, rs);
    var init := ss[..|ss| - 1];
    RowsLength(init, rs);
    RowLength(ss[|ss| - 1], rs);
    if m < |ss| - 1 {
      RowsAt(init, rs, m, k);
      assert m * |rs| + k < |init| * |rs| by {
        MulLess(m, |init|, |rs|, k);
      }
    } else {
      RowAt(ss[m], rs, k);
    }
  }

  lemma MulLess(m: nat, n: nat, w: nat, k: nat)
    requires m < n && k < w
    ensures m * w + k < n * w
  {
    assert (m + 1) * w <= n * w;
  }

  lemma {:induction false} RowAt(s: Suit, rs: seq<Rank>, k: nat)
    requires k < |rs|
    ensures |Row(s, rs)| == |rs| && Row(s, rs)[k] == MakeCard(s, rs[k])
  {
    RowLength(s, rs);
    RowLength(s, rs[..|rs| - 1]);
    if k < |rs| - 1 {
      RowAt(s, rs[..|rs| - 1], k);
    }
  }

  lemma {:induction false} RowLength(s: Suit, rs: seq<Rank>)
    ensures |Row(s, rs)| == |rs|
  {
    if rs != [] {
      RowLength(s, rs[..|rs| - 1]);
    }
  }

  lemma {:induction false} RowCount(s: Suit, rs: seq<Rank>, c: Card)
    ensures multiset(Row(s, rs))[c] ==
            if c.suit == s && c.value == RankValue(c.rank) then multiset(rs)[c.rank] else 0
  {
    if rs != [] {
      var init := rs[..|rs| - 1];
      RowCount(s, init, c);
      assert rs == init + [rs[|rs| - 1]];
    }
  }

  lemma {:induction false} RowsLength(ss: seq<Suit>, rs: seq<Rank>)
    ensures |Rows(ss, rs)| == |ss| * |rs|
  {
    if ss != [] {
      var init, last := ss[..|ss| - 1], ss[|ss| - 1];
      RowsLength(init, rs);
      RowLength(last, rs);
      assert |ss| * |rs| == |init| * |rs| + |rs|;
    }
  }

  /** With suits that do not repeat, a card occurs in the rows as often as in the row of its own suit. */
  lemma {:induction false} RowsCount(ss: seq<Suit>, rs: seq<Rank>, c: Card)
    requires multiset(ss)[c.suit] <= 1
    ensures multiset(Rows(ss, rs))[c] == if c.suit in ss then multiset(Row(c.suit, rs))[c] else 0
  {
    if ss != [] {
      var init, last := ss[..|ss| - 1], ss[|ss| - 1];
      assert ss == init + [last];
      RowsCount(init, rs, c);
      if last != c.suit {
        RowCount(last, rs, c);
      }
    }
  }

  /** A sequence without repeated elements holds each of its elements once. */
  lemma {:induction false} DistinctOnce<T>(s: seq<T>, x: T)
    requires forall i, j :: 0 <= i < j < |s| ==> s[i] != s[j]
    ensures multiset(s)[x] == if x in s then 1 else 0
  {
    if s != [] {
      DistinctOnce(s[1..], x);
      assert s == [s[0]] + s[1..];
    }
  }

  lemma RanksOnce(r: Rank)
    ensures multiset(Ranks)[r] == if r in Ranks then 1 else 0
  {
    RanksInOrder();
    DistinctOnce(Ranks, r);
  }

  lemma RanksInOrder()
    ensures forall i, j :: 0 <= i < j < |Ranks| ==> Ranks[i] != Ranks[j]
  {
    assert forall i :: 0 <= i < |Ranks| ==> RankOrder(Ranks[i]) == i + 2;
  }

  /** The position of a rank in rank order, counting the numerals by their face value. */
  function RankOrder(r: Rank): int
  {
    match r
    case Pip(n) => n
    case Jack => 11
    case Queen => 12
    case King => 13
    case Ace => 14
  }

  lemma SuitsOnce(s: Suit)
    ensures multiset(Suits)[s] == 1
  {
  }

  /** createDeck yields 52 cards: exactly one of every (suit, rank) pair with its value, and nothing else. */
  lemma FullDeckExactlyOnce(c: Card)
    ensures multiset(FullDeck())[c] == if Standard(c) then 1 else 0
  {
    FullDeckIsRows();
    SuitsOnce(c.suit);
    RowsCount(Suits, Ranks, c);
    RowCount(c.suit, Ranks, c);
    RanksOnce(c.rank);
  }

  /** The nested loops of createDeck: for each suit, for each rank, push the card. */
  method BuildCards() returns (cards: seq<Card>)
    ensures cards == FullDeck()
  {
    cards := [];
    for si := 0 to |Suits|
      invariant cards == Rows(Suits[..si], Ranks)
    {
      var suit := Suits[si];
      ghost var done := cards;
      for ri := 0 to |Ranks|
        invariant cards == done + Row(suit, Ranks[..ri])
      {
        var rank := Ranks[ri];
        RowStep(suit, Ranks, ri);
        cards := cards + [MakeCard(suit, rank)];
      }
      RowsStep(Suits, si, Ranks);
    }
    assert Suits[..|Suits|] == Suits;
    FullDeckIsRows();
  }

  lemma {:induction false} RowStep(s: Suit, rs: seq<Rank>, i: nat)
    requires i < |rs|
    ensures Row(s, rs[..i + 1]) == Row(s, rs[..i]) + [MakeCard(s, rs[i])]
  {
    assert rs[..i + 1][..i] == rs[..i];
  }

  lemma {:induction false} RowsStep(ss: seq<Suit>, i: nat, rs: seq<Rank>)
    requires i < |ss|
    ensures Rows(ss[..i + 1], rs) == Rows(ss[..i], rs) + Row(ss[i], rs[..|rs|])
  {
    assert ss[..i + 1][..i] == ss[..i];
    assert rs[..|rs|] == rs;
  }

  /** createDeck: the 52 cards, then the swap loop; the random choice of each swap partner
      is supplied as `js` (js[i] is the partner of position i). */
  method CreateDeck(js: seq<nat>) returns (deck: seq<Card>)
    requires SwapIndices(js, 52)
    ensures deck == Shuffled(FullDeck(), js)
    ensures |deck| == 52 && multiset(deck) == multiset(FullDeck())
  {
    var cards := BuildCards();
    var a := new Card[|cards|](i requires 0 <= i < |cards| => cards[i]);
    assert a[..] == cards;
    ShuffleInPlace(a, js);
    deck := a[..];
    ShuffledIsPermutation(cards, js);
  }

  // ---- The swap loop ----

  /** `js` can drive the swap loop over `n` cards: one partner per position, never above that position. */
  predicate SwapIndices(js: seq<nat>, n: nat)
  {
    |js| == n && forall i :: 0 <= i < n ==> js[i] <= i
  }

  /** `s` with the cards at positions `i` and `j` exchanged. */
  function Swap(s: seq<Card>, i: nat, j: nat): seq<Card>
    requires i < |s| && j < |s|
  {
    s[i := s[j]][j := s[i]]
  }

  /** The swap loop resumed at position `i` and run down to position 1. */
  function ShuffleFrom(s: seq<Card>, js: seq<nat>, i: nat): (r: seq<Card>)
    requires i < |s| && SwapIndices(js, |s|)
    ensures |r| == |s|
    decreases i
  {
    if i == 0 then s else ShuffleFrom(Swap(s, i, js[i]), js, i - 1)
  }

  /** The order the swap loop leaves `s` in. */
  function Shuffled(s: seq<Card>, js: seq<nat>): (r: seq<Card>)
    requires SwapIndices(js, |s|)
    ensures |r| == |s|
  {
    if s == [] then s else ShuffleFrom(s, js, |s| - 1)
  }

  lemma {:induction false} ShuffleFromIsPermutation(s: seq<Card>, js: seq<nat>, i: nat)
    requires i < |s| && SwapIndices(js, |s|)
    ensures |ShuffleFrom(s, js, i)| == |s|
    ensures multiset(ShuffleFrom(s, js, i)) == multiset(s)
    decreases i
  {
    if i > 0 {
      var t := Swap(s, i, js[i]);
      SwapIsPermutation(s, i, js[i]);
      ShuffleFromIsPermutation(t, js, i - 1);
    }
  }

  lemma SwapIsPermutation(s: seq<Card>, i: nat, j: nat)
    requires i < |s| && j < |s|
    ensures |Swap(s, i, j)| == |s| && multiset(Swap(s, i, j)) == multiset(s)
  {
    var t := s[i := s[j]];
    assert multiset(t) == multiset(s) - multiset{s[i]} + multiset{s[j]};
    assert multiset(t[j := s[i]]) == multiset(t) - multiset{t[j]} + multiset{s[i]};
  }

  /** The swap loop only exchanges cards: for any admissible partners the result has the
      same length and the same cards, each as often as before. */
  lemma ShuffledIsPermutation(s: seq<Card>, js: seq<nat>)
    requires SwapIndices(js, |s|)
    ensures |Shuffled(s, js)| == |s|
    ensures multiset(Shuffled(s, js)) == multiset(s)
  {
    if s != [] {
      ShuffleFromIsPermutation(s, js, |s| - 1);
    }
  }

  /** The swap loop of createDeck, run in place. */
  method ShuffleInPlace(a: array<Card>, js: seq<nat>)
    requires SwapIndices(js, a.Length)
    modifies a
    ensures a[..] == Shuffled(old(a[..]), js)
  {
    var i: int := a.Length - 1;
    while i > 0
      invariant -1 <= i < a.Length
      invariant i < 0 ==> a.Length == 0
      invariant i >= 0 ==> ShuffleFrom(a[..], js, i) == Shuffled(old(a[..]), js)
      decreases i
    {
      var j := js[i];
      ghost var before := a[..];
      var t := a[i];
      a[i] := a[j];
      a[j] := t;
      assert a[..] == Swap(before, i, j);
      i := i - 1;
    }
  }

  // ---- Tallies over a hand ----

  /** The sum of `f` over the cards of `h`; the source's `reduce` over values and
      `filter(...).length` over aces are both tallies. */
  function Tally(h: seq<Card>, f: Card -> int): int
  {
    if h == [] then 0 else f(h[0]) + Tally(h[1..], f)
  }

  lemma {:induction false} TallyConcat(a: seq<Card>, b: seq<Card>, f: Card -> int)
    ensures Tally(a + b, f) == Tally(a, f) + Tally(b, f)
  {
    if a != [] {
      assert (a + b)[0] == a[0];
      assert (a + b)[1..] == a[1..] + b;
      TallyConcat(a[1..], b, f);
    } else {
      assert a + b == b;
    }
  }

  lemma {:induction false} TallyRemove(b: seq<Card>, i: nat, f: Card -> int)
    requires i < |b|
    ensures Tally(b, f) == f(b[i]) + Tally(b[..i] + b[i + 1..], f)
  {
    var pre, x, post := b[..i], b[i], b[i + 1..];
    assert b == pre + ([x] + post);
    TallyConcat(pre, [x] + post, f);
    TallyConcat(pre, post, f);
    assert ([x] + post)[0] == x && ([x] + post)[1..] == post;
    assert Tally([x] + post, f) == f(x) + Tally(post, f);
  }

  lemma RemoveAt(b: seq<Card>, i: nat)
    requires i < |b|
    ensures multiset(b[..i] + b[i + 1..]) == multiset(b) - multiset{b[i]}
  {
    assert b == b[..i] + [b[i]] + b[i + 1..];
    assert multiset(b) == multiset(b[..i]) + multiset{b[i]} + multiset(b[i + 1..]);
  }

  lemma Uncons(a: seq<Card>)
    requires a != []
    ensures multiset(a[1..]) == multiset(a) - multiset{a[0]}
  {
    assert a == [a[0]] + a[1..];
  }

  lemma IndexOf(b: seq<Card>, x: Card) returns (i: nat)
    requires x in multiset(b)
    ensures i < |b| && b[i] == x
  {
    assert x in b;
    i :| 0 <= i < |b| && b[i] == x;
  }

  /** A tally does not depend on the order of the cards. */
  lemma {:induction false} TallyPermutation(a: seq<Card>, b: seq<Card>, f: Card -> int)
    requires multiset(a) == multiset(b)
    ensures Tally(a, f) == Tally(b, f)
  {
    if a != [] {
      var i := IndexOf(b, a[0]);
      RemoveAt(b, i);
      Uncons(a);
      TallyPermutation(a[1..], b[..i] + b[i + 1..], f);
      TallyRemove(b, i, f);
    }
  }

  lemma {:induction false} TallyNonNegative(h: seq<Card>, f: Card -> int)
    requires forall c :: f(c) >= 0
    ensures Tally(h, f) >= 0
  {
    if h != [] {
      TallyNonNegative(h[1..], f);
    }
  }

  /** A non-negative tally over some of the cards of `b` is at most the tally over all of `b`. */
  lemma {:induction false} TallySubMultiset(a: seq<Card>, b: seq<Card>, f: Card -> int)
    requires multiset(a) <= multiset(b)
    requires forall c :: f(c) >= 0
    ensures Tally(a, f) <= Tally(b, f)
  {
    if a == [] {
      TallyNonNegative(b, f);
    } else {
      var i := IndexOf(b, a[0]);
      RemoveAt(b, i);
      Uncons(a);
      TallySubMultiset(a[1..], b[..i] + b[i + 1..], f);
      TallyRemove(b, i, f);
    }
  }

  /** 1 for a card of rank `r`, 0 otherwise; its tally counts the cards of that rank. */
  function RankMark(r: Rank): Card -> int
  {
    (c: Card) => if c.rank == r then 1 else 0
  }

  lemma {:induction false} RowRankTally(s: Suit, rs: seq<Rank>, r: Rank)
    ensures Tally(Row(s, rs), RankMark(r)) == multiset(rs)[r]
  {
    if rs != [] {
      var init, last := rs[..|rs| - 1], rs[|rs| - 1];
      RowRankTally(s, init, r);
      TallyConcat(Row(s, init), [MakeCard(s, last)], RankMark(r));
      assert rs == init + [last];
    }
  }

  lemma {:induction false} RowsRankTally(ss: seq<Suit>, rs: seq<Rank>, r: Rank)
    ensures Tally(Rows(ss, rs), RankMark(r)) == |ss| * multiset(rs)[r]
  {
    if ss != [] {
      var init, last := ss[..|ss| - 1], ss[|ss| - 1];
      RowsRankTally(init, rs, r);
      RowRankTally(last, rs, r);
      TallyConcat(Rows(init, rs), Row(last, rs), RankMark(r));
      MulStep(|init|, multiset(rs)[r]);
    }
  }

  lemma MulStep(m: int, k: int)
    ensures (m + 1) * k == m * k + k
  {
  }

  /** The deck holds four cards of every rank and none of any other. */
  lemma FullDeckRankCount(r: Rank)
    ensures Tally(FullDeck(), RankMark(r)) == if r in Ranks then 4 else 0
  {
    FullDeckRankTally(r);
    RanksOnce(r);
    if r in Ranks {
      assert multiset(Ranks)[r] == 1;
    } else {
      assert multiset(Ranks)[r] == 0;
    }
  }

  lemma FullDeckRankTally(r: Rank)
    ensures Tally(FullDeck(), RankMark(r)) == 4 * multiset(Ranks)[r]
  {
    FullDeckIsRows();
    RowsRankTally(Suits, Ranks, r);
  }
}
