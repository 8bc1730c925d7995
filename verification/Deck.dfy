/** A deal of the whole deck, and what a round of each mode hands out. */
module Deck {
  import opened Cards
  import opened Rules

  function AllCards(hands: Hands): seq<Card> {
    hands[N] + hands[E] + hands[S] + hands[W]
  }

  /** Each of the 52 cards is dealt exactly once, thirteen to a side. */
  ghost predicate ProperDeal(deal: Hands) {
    && (forall s: Side :: |deal[s]| == TRICKS_PER_ROUND)
    && (forall c: Card :: multiset(AllCards(deal))[c] == 1)
  }

  /** The penalty points a full round of the mode hands out. */
  function RoundTotal(mode: Mode): nat {
    match mode
    case TrickPenalty => 13
    case HeartPenalty => 13
    case QueenPenalty => 20
    case KingJackPenalty => 16
    case HeartKingPenalty => 18
    case SeventhLastTrickPenalty => 20
    case Everything => 100
  }

  /** What the tricks from trickNo to the last cost, besides their cards. */
  function BasesFrom(mode: Mode, trickNo: int): nat
    decreases TRICKS_PER_ROUND + 1 - trickNo
  {
    if trickNo > TRICKS_PER_ROUND then 0 else BasePenalty(mode, trickNo) + BasesFrom(mode, trickNo + 1)
  }

  function HandsPenalty(mode: Mode, hands: Hands): nat {
    CardsPenalty(mode, hands[N]) + CardsPenalty(mode, hands[E])
    + CardsPenalty(mode, hands[S]) + CardsPenalty(mode, hands[W])
  }

  // ---------------------------------------------------------------- penalties depend on the multiset only

  lemma {:induction false} CardsPenaltyAppend(mode: Mode, a: seq<Card>, b: seq<Card>)
    ensures CardsPenalty(mode, a + b) == CardsPenalty(mode, a) + CardsPenalty(mode, b)
  {
    if b == [] {
      assert a + b == a;
    } else {
      assert (a + b)[..|a + b| - 1] == a + b[..|b| - 1];
      CardsPenaltyAppend(mode, a, b[..|b| - 1]);
    }
  }

  lemma {:induction false} CardsPenaltyRm(mode: Mode, h: Hand, c: Card)
    requires c in h
    ensures CardsPenalty(mode, h) == CardsPenalty(mode, Rm(h, c)) + CardPenalty(mode, c)
  {
    assert h == [h[0]] + h[1..];
    CardsPenaltyAppend(mode, [h[0]], h[1..]);
    CardsPenaltyStep(mode, [h[0]], 0);
    assert [h[0]][..1] == [h[0]] && [h[0]][..0] == [];
    if h[0] != c {
      CardsPenaltyRm(mode, h[1..], c);
      CardsPenaltyAppend(mode, [h[0]], Rm(h[1..], c));
    }
  }

  lemma {:induction false} CardsPenaltyPermutation(mode: Mode, a: seq<Card>, b: seq<Card>)
    requires multiset(a) == multiset(b)
    ensures CardsPenalty(mode, a) == CardsPenalty(mode, b)
  {
    if a == [] {
      assert |multiset(b)| == 0;
      assert b == [];
    } else {
      var c := a[0];
      assert c in multiset(a);
      assert c in multiset(b);
      RmCounts(a, c);
      RmCounts(b, c);
      assert multiset(Rm(a, c)) == multiset(a) - multiset{c} == multiset(Rm(b, c));
      CardsPenaltyPermutation(mode, Rm(a, c), Rm(b, c));
      CardsPenaltyRm(mode, a, c);
      CardsPenaltyRm(mode, b, c);
    }
  }

  // ---------------------------------------------------------------- the whole deck

  const DECK_SIZE: nat := 52

  function CardAt(i: nat): Card
    requires i < DECK_SIZE
  {
    Card(2 + i % 13, if i < 13 then Clubs else if i < 26 then Diamonds else if i < 39 then Hearts else Spades)
  }

  function DeckUpTo(n: nat): seq<Card>
    requires n <= DECK_SIZE
  {
    if n == 0 then [] else DeckUpTo(n - 1) + [CardAt(n - 1)]
  }

  function DeckPenalty(mode: Mode, n: nat): nat
    requires n <= DECK_SIZE
  {
    if n == 0 then 0 else DeckPenalty(mode, n - 1) + CardPenalty(mode, CardAt(n - 1))
  }

  function PlaceOf(c: Card): (i: nat)
    ensures i < DECK_SIZE && CardAt(i) == c
    ensures forall j: nat :: j < DECK_SIZE && CardAt(j) == c ==> j == i
  {
    c.rank - 2 + (match c.color case Clubs => 0 case Diamonds => 13 case Hearts => 26 case Spades => 39)
  }

  lemma {:induction false} DeckCounts(n: nat, c: Card)
    requires n <= DECK_SIZE
    ensures multiset(DeckUpTo(n))[c] == if PlaceOf(c) < n then 1 else 0
  {
    if n > 0 {
      DeckCounts(n - 1, c);
      assert CardAt(n - 1) == c <==> PlaceOf(c) == n - 1;
    }
  }

  lemma {:induction false} DeckPenaltyIsSum(mode: Mode, n: nat)
    requires n <= DECK_SIZE
    ensures CardsPenalty(mode, DeckUpTo(n)) == DeckPenalty(mode, n)
  {
    if n > 0 {
      DeckPenaltyIsSum(mode, n - 1);
      assert DeckUpTo(n)[..n - 1 + |DeckUpTo(n)| - n] == DeckUpTo(n - 1);
    }
  }

  /** The n first cards of the deck: hearts start at place 26, a suit's jack, queen and king are at 9, 10 and 11. */
  function DeckClosedForm(mode: Mode, n: int): int
    decreases mode == Everything
  {
    match mode
    case HeartPenalty => if n < 26 then 0 else if n < 39 then n - 26 else 13
    case QueenPenalty => 5 * ((n + 2) / 13)
    case KingJackPenalty => 2 * ((n + 1) / 13 + (n + 3) / 13)
    case HeartKingPenalty => if n < 38 then 0 else 18
    case Everything =>
      DeckClosedForm(HeartPenalty, n) + DeckClosedForm(QueenPenalty, n)
      + DeckClosedForm(KingJackPenalty, n) + DeckClosedForm(HeartKingPenalty, n)
    case _ => 0
  }

  lemma {:induction false} DeckPenaltyClosed(mode: Mode, n: nat)
    requires n <= DECK_SIZE
    ensures DeckPenalty(mode, n) == DeckClosedForm(mode, n)
  {
    if n > 0 {
      DeckPenaltyClosed(mode, n - 1);
      DeckClosedStep(mode, n - 1, (n - 1) / 13, (n - 1) % 13);
    }
  }

  /** The card at a place of a suit. */
  lemma CardAtPlace(n: nat, suit: nat, place: nat)
    requires n < DECK_SIZE && place < 13 && n == 13 * suit + place
    ensures CardAt(n).rank == 2 + place && (CardAt(n).color == Hearts <==> 26 <= n < 39)
  {
    assert n % 13 == place;
  }

  lemma Quotient(n: nat, suit: nat, place: nat, k: nat)
    requires place < 13 && n == 13 * suit + place && k <= 13
    ensures (n + k) / 13 == if place + k >= 13 then suit + 1 else suit
  {
  }

  lemma OneModeStep(mode: Mode, n: nat, suit: nat, place: nat)
    requires n < DECK_SIZE && place < 13 && n == 13 * suit + place && mode != Everything
    ensures DeckClosedForm(mode, n + 1) == DeckClosedForm(mode, n) + CardPenalty(mode, CardAt(n))
  {
    hide CardAt;
    CardAtPlace(n, suit, place);
    match mode {
      case QueenPenalty => QueenStep(n, suit, place);
      case KingJackPenalty => KingJackStep(n, suit, place);
      case _ =>
    }
  }

  lemma QueenStep(n: nat, suit: nat, place: nat)
    requires place < 13 && n == 13 * suit + place
    ensures (n + 3) / 13 == (n + 2) / 13 + if place == 10 then 1 else 0
  {
    Quotient(n, suit, place, 2);
    Quotient(n, suit, place, 3);
  }

  lemma KingJackStep(n: nat, suit: nat, place: nat)
    requires place < 13 && n == 13 * suit + place
    ensures (n + 2) / 13 == (n + 1) / 13 + if place == 11 then 1 else 0
    ensures (n + 4) / 13 == (n + 3) / 13 + if place == 9 then 1 else 0
  {
    Quotient(n, suit, place, 1);
    Quotient(n, suit, place, 2);
    Quotient(n, suit, place, 3);
    Quotient(n, suit, place, 4);
  }

  /** One more card makes the penalty of a suit's prefix grow as the closed form says. */
  lemma DeckClosedStep(mode: Mode, n: nat, suit: nat, place: nat)
    requires n < DECK_SIZE && place < 13 && n == 13 * suit + place
    ensures DeckClosedForm(mode, n + 1) == DeckClosedForm(mode, n) + CardPenalty(mode, CardAt(n))
  {
    hide CardAt;
    if mode == Everything {
      OneModeStep(HeartPenalty, n, suit, place);
      OneModeStep(QueenPenalty, n, suit, place);
      OneModeStep(KingJackPenalty, n, suit, place);
      OneModeStep(HeartKingPenalty, n, suit, place);
    } else {
      OneModeStep(mode, n, suit, place);
    }
  }

  lemma {:induction false} BasesFromClosed(mode: Mode, t: nat)
    requires 1 <= t <= TRICKS_PER_ROUND + 1
    ensures BasesFrom(mode, t) == match mode
      case TrickPenalty => 14 - t
      case SeventhLastTrickPenalty => if t <= 7 then 20 else if t <= 13 then 10 else 0
      case Everything => 14 - t + if t <= 7 then 20 else if t <= 13 then 10 else 0
      case _ => 0
    decreases TRICKS_PER_ROUND + 1 - t
  {
    if t <= TRICKS_PER_ROUND {
      BasesFromClosed(mode, t + 1);
    }
  }

  lemma DealtCardsAreTheDeck(mode: Mode, all: seq<Card>)
    requires forall c: Card :: multiset(all)[c] == 1
    ensures CardsPenalty(mode, all) == DeckClosedForm(mode, DECK_SIZE)
  {
    hide DeckUpTo, DeckPenalty, DeckClosedForm, CardsPenalty, PlaceOf;
    var deck := DeckUpTo(DECK_SIZE);
    forall c: Card ensures multiset(all)[c] == multiset(deck)[c] {
      DeckCounts(DECK_SIZE, c);
    }
    assert multiset(all) == multiset(deck);
    CardsPenaltyPermutation(mode, all, deck);
    DeckPenaltyIsSum(mode, DECK_SIZE);
    DeckPenaltyClosed(mode, DECK_SIZE);
  }

  /** Before the first trick the cards and tricks still to come are worth the round's total. */
  lemma DealIsWorthTheTotal(mode: Mode, deal: Hands)
    requires ProperDeal(deal)
    ensures HandsPenalty(mode, deal) + BasesFrom(mode, 1) == RoundTotal(mode)
  {
    hide CardPenalty, CardsPenalty, BasePenalty, BasesFrom;
    DealtCardsAreTheDeck(mode, AllCards(deal));
    CardsPenaltyAppend(mode, deal[N], deal[E]);
    CardsPenaltyAppend(mode, deal[N] + deal[E], deal[S]);
    CardsPenaltyAppend(mode, deal[N] + deal[E] + deal[S], deal[W]);
    BasesFromClosed(mode, 1);
  }

  lemma {:induction false} DeckSize(n: nat)
    requires n <= DECK_SIZE
    ensures |DeckUpTo(n)| == n
  {
    if n > 0 {
      DeckSize(n - 1);
    }
  }

  /** There are proper deals: the sorted deck, thirteen cards to a side. */
  lemma SortedDealIsProper() returns (deal: Hands)
    ensures ProperDeal(deal)
  {
    hide DeckUpTo, PlaceOf;
    var d := DeckUpTo(DECK_SIZE);
    DeckSize(DECK_SIZE);
    deal := PerSide(d[..13], d[13..26], d[26..39], d[39..]);
    assert AllCards(deal) == d;
    forall s: Side ensures |deal[s]| == TRICKS_PER_ROUND {
      match s { case N => case E => case S => case W => }
    }
    forall c: Card ensures multiset(AllCards(deal))[c] == 1 {
      DeckCounts(DECK_SIZE, c);
    }
  }

  // ---------------------------------------------------------------- consequences of a proper deal

  /** No card is dealt twice, to one side or to two. */
  lemma DealtOnce(deal: Hands, s: Side)
    requires ProperDeal(deal)
    ensures NoDup(deal[s])
    ensures forall t: Side, c :: t != s && c in deal[s] ==> c !in deal[t]
  {
    var m := multiset(deal[N]) + multiset(deal[E]) + multiset(deal[S]) + multiset(deal[W]);
    assert m == multiset(AllCards(deal));
    forall i, j | 0 <= i < j < |deal[s]| ensures deal[s][i] != deal[s][j] {
      TwiceMeansTwo(deal[s], i, j);
      assert m[deal[s][i]] == 1;
    }
    forall t: Side, c | t != s && c in deal[s] ensures c !in deal[t] {
      assert m[c] == 1;
      assert multiset(deal[s])[c] >= 1;
      assert multiset(deal[t])[c] == 0;
    }
  }

  lemma TwiceMeansTwo(h: Hand, i: nat, j: nat)
    requires i < j < |h|
    ensures h[i] == h[j] ==> multiset(h)[h[i]] >= 2
  {
    assert h == h[..j] + h[j..];
    assert h[i] in multiset(h[..j]) by { assert h[..j][i] == h[i]; }
    assert h[j] in multiset(h[j..]) by { assert h[j..][0] == h[j]; }
  }
}
