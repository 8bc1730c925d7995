/** The rules of the game (server/game_rules.cpp). */
module Rules {
  import opened Cards

  datatype Mode =
    | TrickPenalty | HeartPenalty | QueenPenalty | KingJackPenalty
    | HeartKingPenalty | SeventhLastTrickPenalty | Everything

  // ---------------------------------------------------------------- what the rules say

  /** Follow suit if you can, and play a card you hold. */
  ghost predicate LegalMove(hand: Hand, card: Card, table: seq<Card>) {
    && card in hand
    && (table != [] && card.color != table[0].color ==> forall c :: c in hand ==> c.color != table[0].color)
  }

  /** Card i takes the trick: it is of the led colour and no card of that colour beats it. */
  ghost predicate Takes(table: seq<Card>, i: nat) {
    && i < |table|
    && table[i].color == table[0].color
    && forall j :: 0 <= j < |table| && table[j].color == table[0].color ==> table[j].rank <= table[i].rank
  }

  /** What a card costs the side that takes it. */
  function CardPenalty(mode: Mode, c: Card): nat {
    match mode
    case TrickPenalty => 0
    case HeartPenalty => if c.color == Hearts then 1 else 0
    case QueenPenalty => if c.rank == 12 then 5 else 0
    case KingJackPenalty => if c.rank == 13 || c.rank == 11 then 2 else 0
    case HeartKingPenalty => if c.rank == 13 && c.color == Hearts then 18 else 0
    case SeventhLastTrickPenalty => 0
    case Everything =>
      (if c.color == Hearts then 1 else 0) + (if c.rank == 12 then 5 else 0)
      + (if c.rank == 13 || c.rank == 11 then 2 else 0) + (if c.rank == 13 && c.color == Hearts then 18 else 0)
  }

  /** What the trick itself costs, whatever its cards. */
  function BasePenalty(mode: Mode, trickNo: int): nat {
    match mode
    case TrickPenalty => 1
    case SeventhLastTrickPenalty => if trickNo == 7 || trickNo == TRICKS_PER_ROUND then 10 else 0
    case Everything => 1 + (if trickNo == 7 || trickNo == TRICKS_PER_ROUND then 10 else 0)
    case _ => 0
  }

  function CardsPenalty(mode: Mode, cs: seq<Card>): nat {
    if cs == [] then 0 else CardsPenalty(mode, cs[..|cs| - 1]) + CardPenalty(mode, cs[|cs| - 1])
  }

  function TrickPenaltyOf(mode: Mode, table: seq<Card>, trickNo: int): nat {
    BasePenalty(mode, trickNo) + CardsPenalty(mode, table)
  }

  /** Index of the card that takes the trick made of the first n cards. */
  function BestUpTo(table: seq<Card>, n: nat): (b: nat)
    requires 1 <= n <= |table|
    ensures b < n && Takes(table[..n], b)
    ensures table[b].color == table[0].color
  {
    if n == 1 then 0
    else
      var b := BestUpTo(table, n - 1);
      assert table[..n][..n - 1] == table[..n - 1];
      assert forall j :: 0 <= j < n - 1 ==> table[..n][j] == table[..n - 1][j];
      if table[n - 1].color == table[0].color && table[n - 1].rank > table[b].rank then n - 1 else b
  }

  /** The side that takes a full trick led by leader. */
  function Taker(leader: Side, table: seq<Card>): Side
    requires |table| == 4
  {
    Nth(leader, BestUpTo(table, 4))
  }

  /**
   * With distinct cards on the table exactly one card takes the trick, and its player is the taker; the same side is
   * found when the search starts where the turn has got to after four cards.
   */
  lemma TakerPlayedTheHighest(leader: Side, table: seq<Card>, i: nat)
    requires |table| == 4 && i < 4 && NoDup(table)
    ensures Takes(table, i) <==> Taker(leader, table) == Nth(leader, i)
    ensures Takes(table, i) <==> Taker(Nth(leader, |table|), table) == Nth(leader, i)
  {
    assert table[..4] == table;
    var b := BestUpTo(table, 4);
    TurnsInvertsNth(leader, leader, b);
    TurnsInvertsNth(leader, leader, i);
    assert i != b ==> table[i] != table[b];
  }

  /** Mode EVERYTHING costs what the six other modes cost together on the same trick. */
  lemma {:induction false} EverythingIsTheSum(table: seq<Card>, trickNo: int)
    ensures TrickPenaltyOf(Everything, table, trickNo)
         == TrickPenaltyOf(TrickPenalty, table, trickNo) + TrickPenaltyOf(HeartPenalty, table, trickNo)
          + TrickPenaltyOf(QueenPenalty, table, trickNo) + TrickPenaltyOf(KingJackPenalty, table, trickNo)
          + TrickPenaltyOf(HeartKingPenalty, table, trickNo) + TrickPenaltyOf(SeventhLastTrickPenalty, table, trickNo)
  {
    if table != [] {
      EverythingIsTheSum(table[..|table| - 1], trickNo);
    }
  }

  // ---------------------------------------------------------------- the functions of game_rules.cpp

  method IsMoveLegal(s: Side, c: Card, state: Hands, table: seq<Card>) returns (legal: bool)
    ensures legal <==> LegalMove(state[s], c, table)
  {
    var hand := state[s];
    if table != [] {
      var wanted := table[0].color;
      if c.color != wanted {
        for i := 0 to |hand|
          invariant forall j :: 0 <= j < i ==> hand[j].color != wanted
        {
          if hand[i].color == wanted {
            return false;
          }
        }
      }
    }
    for i := 0 to |hand|
      invariant c !in hand[..i]
    {
      if hand[i].color == c.color && hand[i].rank == c.rank {
        return true;
      }
    }
    return false;
  }

  /** The switch over the modes: what the trick costs, added up card by card. */
  method Penalty(table: seq<Card>, mode: Mode, trickNo: int) returns (pen: int)
    ensures pen == TrickPenaltyOf(mode, table, trickNo)
  {
    assert table[..|table|] == table;
    match mode {
      case TrickPenalty =>
        NoCardPenalty(mode, table);
        return 1;
      case HeartPenalty =>
        pen := 0;
        for i := 0 to |table|
          invariant pen == CardsPenalty(mode, table[..i])
        {
          CardsPenaltyStep(mode, table, i);
          if table[i].color == Hearts { pen := pen + 1; }
        }
      case QueenPenalty =>
        pen := 0;
        for i := 0 to |table|
          invariant pen == CardsPenalty(mode, table[..i])
        {
          CardsPenaltyStep(mode, table, i);
          if table[i].rank == 12 { pen := pen + 5; }
        }
      case KingJackPenalty =>
        pen := 0;
        for i := 0 to |table|
          invariant pen == CardsPenalty(mode, table[..i])
        {
          CardsPenaltyStep(mode, table, i);
          if table[i].rank == 13 || table[i].rank == 11 { pen := pen + 2; }
        }
      case HeartKingPenalty =>
        pen := 0;
        for i := 0 to |table|
          invariant pen == CardsPenalty(mode, table[..i])
        {
          CardsPenaltyStep(mode, table, i);
          if table[i].rank == 13 && table[i].color == Hearts { pen := pen + 18; }
        }
      case SeventhLastTrickPenalty =>
        NoCardPenalty(mode, table);
        return if trickNo == 7 || trickNo == TRICKS_PER_ROUND then 10 else 0;
      case Everything =>
        pen := 1;
        pen := pen + if trickNo == 7 || trickNo == TRICKS_PER_ROUND then 10 else 0;
        for i := 0 to |table|
          invariant pen == BasePenalty(mode, trickNo) + CardsPenalty(mode, table[..i])
        {
          CardsPenaltyStep(mode, table, i);
          if table[i].color == Hearts { pen := pen + 1; }
          if table[i].rank == 12 { pen := pen + 5; }
          if table[i].rank == 13 || table[i].rank == 11 { pen := pen + 2; }
          if table[i].rank == 13 && table[i].color == Hearts { pen := pen + 18; }
        }
    }
  }

  lemma CardsPenaltyStep(mode: Mode, cs: seq<Card>, i: nat)
    requires i < |cs|
    ensures CardsPenalty(mode, cs[..i + 1]) == CardsPenalty(mode, cs[..i]) + CardPenalty(mode, cs[i])
  {
    assert cs[..i + 1][..i] == cs[..i];
  }

  lemma {:induction false} NoCardPenalty(mode: Mode, cs: seq<Card>)
    requires mode == TrickPenalty || mode == SeventhLastTrickPenalty
    ensures CardsPenalty(mode, cs) == 0
  {
    if cs != [] {
      NoCardPenalty(mode, cs[..|cs| - 1]);
    }
  }

  /** The side that takes the trick and what it costs. */
  method WhoTakes(startingSide: Side, table: seq<Card>, mode: Mode, trickNo: int)
    returns (takerSide: Side, pen: int)
    requires |table| == 4
    ensures exists i :: Takes(table, i) && takerSide == Nth(startingSide, i)
    ensures takerSide == Taker(startingSide, table)
    ensures pen == TrickPenaltyOf(mode, table, trickNo)
  {
    var takerIx := 0;
    var wanted := table[0].color;
    for i := 1 to 4
      invariant takerIx == BestUpTo(table, i)
    {
      if table[i].color == wanted && table[i].rank > table[takerIx].rank {
        takerIx := i;
      }
    }
    assert table[..4] == table;
    assert Takes(table, takerIx);
    takerSide := startingSide;
    for i := 0 to takerIx
      invariant takerSide == Nth(startingSide, i)
    {
      takerSide := Next(takerSide);
    }
    pen := Penalty(table, mode, trickNo);
  }
}
