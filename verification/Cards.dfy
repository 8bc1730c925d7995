/** Sides, cards and hands (common/common_types.h, common/card.cpp, common/utils.cpp). */
module Cards {

  datatype Side = N | E | S | W

  datatype Color = Clubs | Diamonds | Hearts | Spades

  /** Rank of a card: 11 is the jack, 12 the queen, 13 the king and 14 the ace. */
  type Rank = r: int | 2 <= r <= 14 witness 2

  /** The value string and the comparison rank of a card determine each other. */
  datatype Card = Card(rank: Rank, color: Color)

  type Hand = seq<Card>

  /** One hand for each of the four sides. */
  type Hands = m: map<Side, Hand> | forall s: Side :: s in m
    witness PerSide([], [], [], [])

  function PerSide<T>(n: T, e: T, s: T, w: T): (m: map<Side, T>)
    ensures forall x: Side :: x in m
    ensures m[N] == n && m[E] == e && m[S] == s && m[W] == w
  {
    var m := map[N := n, E := e, S := s, W := w];
    FourSides(m.Keys);
    m
  }

  lemma FourSides(ss: set<Side>)
    requires N in ss && E in ss && S in ss && W in ss
    ensures forall x: Side :: x in ss
  {
    forall x: Side ensures x in ss {
      match x { case N => case E => case S => case W => }
    }
  }

  /** The order in which the server's loops visit the sides. */
  const SIDES: seq<Side> := [N, S, W, E]

  const TRICKS_PER_ROUND := 13

  // ---------------------------------------------------------------- turns

  function Next(s: Side): Side {
    match s
    case N => E
    case E => S
    case S => W
    case W => N
  }

  /** The side reached from s after k turns. */
  function Nth(s: Side, k: nat): Side {
    if k == 0 then s else Next(Nth(s, k - 1))
  }

  /** Number of turns that lead from a to b, between 0 and 3. */
  function Turns(a: Side, b: Side): (k: nat)
    ensures k < 4
  {
    if a == b then 0 else if Next(a) == b then 1 else if Next(Next(a)) == b then 2 else 3
  }

  /** Turns inverts Nth, so the four players of a trick are the four sides, and four turns lead back. */
  lemma TurnsInvertsNth(a: Side, b: Side, k: nat)
    requires k < 4
    ensures Nth(a, Turns(a, b)) == b
    ensures Turns(a, Nth(a, k)) == k
    ensures Nth(a, 4) == a
  {
    assert Nth(a, 1) == Next(a);
    assert Nth(a, 2) == Next(Next(a));
    assert Nth(a, 3) == Next(Next(Next(a)));
    assert Nth(a, 4) == Next(Next(Next(Next(a))));
  }

  // ---------------------------------------------------------------- removing cards from a hand

  /** The hand without the first occurrence of c. */
  function Rm(h: Hand, c: Card): Hand {
    if h == [] then []
    else if h[0] == c then h[1..]
    else [h[0]] + Rm(h[1..], c)
  }

  /** The hand after each card of cs has been removed in turn. */
  function RmAll(h: Hand, cs: seq<Card>): Hand {
    if cs == [] then h
    else Rm(RmAll(h, cs[..|cs| - 1]), cs[|cs| - 1])
  }

  lemma RmAllSnoc(h: Hand, cs: seq<Card>, c: Card)
    ensures RmAll(h, cs + [c]) == Rm(RmAll(h, cs), c)
  {
    assert (cs + [c])[..|cs|] == cs;
  }

  /** Removing a held card takes away exactly one occurrence of it; removing another changes nothing. */
  lemma {:induction false} RmCounts(h: Hand, c: Card)
    ensures c in h ==> multiset(h) == multiset(Rm(h, c)) + multiset{c} && |Rm(h, c)| == |h| - 1
    ensures c !in h ==> Rm(h, c) == h
  {
    if h != [] {
      assert h == [h[0]] + h[1..];
      RmCounts(h[1..], c);
    }
  }

  lemma RmSubset(h: Hand, c: Card, x: Card)
    requires x in Rm(h, c)
    ensures x in h
  {
    RmCounts(h, c);
    if c in h {
      assert x in multiset(Rm(h, c));
      assert x in multiset(h);
    }
  }

  lemma {:induction false} RmAllSubset(h: Hand, cs: seq<Card>, x: Card)
    requires x in RmAll(h, cs)
    ensures x in h
  {
    if cs != [] {
      RmSubset(RmAll(h, cs[..|cs| - 1]), cs[|cs| - 1], x);
      RmAllSubset(h, cs[..|cs| - 1], x);
    }
  }

  /** Cards the hand does not hold can be removed from it without effect. */
  lemma {:induction false} RmAllDisjoint(h: Hand, cs: seq<Card>)
    requires forall i :: 0 <= i < |cs| ==> cs[i] !in h
    ensures RmAll(h, cs) == h
  {
    if cs != [] {
      RmAllDisjoint(h, cs[..|cs| - 1]);
      RmCounts(h, cs[|cs| - 1]);
    }
  }

  predicate NoDup<T(==)>(h: seq<T>) {
    forall i, j :: 0 <= i < j < |h| ==> h[i] != h[j]
  }

  /** In a hand without repetitions, removing the card at an index is removing that card. */
  lemma {:induction false} RmAt(h: Hand, i: nat)
    requires i < |h| && NoDup(h)
    ensures Rm(h, h[i]) == h[..i] + h[i + 1..]
  {
    if i > 0 {
      assert h[0] != h[i];
      assert h[i] == h[1..][i - 1];
      RmAt(h[1..], i - 1);
      assert h[1..][..i - 1] == h[1..i];
      assert h[..i] == [h[0]] + h[1..i];
      assert h[1..][i..] == h[i + 1..];
    } else {
      assert h[..0] == [];
    }
  }

  lemma RmNoDup(h: Hand, c: Card)
    requires NoDup(h)
    ensures NoDup(Rm(h, c))
  {
    if c in h {
      var i :| 0 <= i < |h| && h[i] == c;
      RmAt(h, i);
    } else {
      RmCounts(h, c);
    }
  }

  lemma {:induction false} RmAllNoDup(h: Hand, cs: seq<Card>)
    requires NoDup(h)
    ensures NoDup(RmAll(h, cs))
  {
    if cs != [] {
      RmAllNoDup(h, cs[..|cs| - 1]);
      RmNoDup(RmAll(h, cs[..|cs| - 1]), cs[|cs| - 1]);
    }
  }

  lemma RmFrom(h: Hand, it: nat, c: Card)
    requires it < |h|
    ensures Rm(h[it..], c) == if h[it] == c then h[it + 1..] else [h[it]] + Rm(h[it + 1..], c)
  {
    assert h[it..][1..] == h[it + 1..];
  }

  /** Erases the first equal card, if there is one. */
  method RmCardIfPresent(hand: Hand, card: Card) returns (res: Hand)
    ensures res == Rm(hand, card)
  {
    hide Rm;
    res := hand;
    var it := 0;
    assert hand[..0] == [] && hand[0..] == hand;
    while it < |hand|
      invariant 0 <= it <= |hand|
      invariant res == hand
      invariant Rm(hand, card) == hand[..it] + Rm(hand[it..], card)
    {
      RmFrom(hand, it, card);
      if hand[it].color == card.color && hand[it].rank == card.rank {
        res := hand[..it] + hand[it + 1..];
        return;
      }
      assert hand[..it + 1] == hand[..it] + [hand[it]];
      it := it + 1;
    }
    RmNothing(card);
    assert hand[it..] == [] && hand[..it] == hand;
  }

  lemma RmNothing(c: Card)
    ensures Rm([], c) == []
  {
  }

  /** Erases every card of the table from the hand. */
  method RmIntersection(hand: Hand, table: seq<Card>) returns (res: Hand)
    ensures res == RmAll(hand, table)
  {
    res := hand;
    for i := 0 to |table|
      invariant res == RmAll(hand, table[..i])
    {
      res := RmCardIfPresent(res, table[i]);
      RmAllSnoc(hand, table[..i], table[i]);
      assert table[..i + 1] == table[..i] + [table[i]];
    }
    assert table[..|table|] == table;
  }
}
