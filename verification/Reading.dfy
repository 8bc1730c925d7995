/** Reading the fields of a parsed message (common/card.cpp, the casts in client/client.cpp). */
module Reading {
  import opened Cards
  import opened Rules
  import opened Wire
  import opened Grammar

  datatype Option<T> = None | Some(value: T)

  /** The table of card values. */
  function RankOf(value: string): Option<Rank> {
    if value == "2" then Some(2) else if value == "3" then Some(3) else if value == "4" then Some(4)
    else if value == "5" then Some(5) else if value == "6" then Some(6) else if value == "7" then Some(7)
    else if value == "8" then Some(8) else if value == "9" then Some(9) else if value == "10" then Some(10)
    else if value == "J" then Some(11) else if value == "Q" then Some(12) else if value == "K" then Some(13)
    else if value == "A" then Some(14) else None
  }

  function ColorOf(c: char): Option<Color> {
    if c == 'C' then Some(Clubs) else if c == 'D' then Some(Diamonds)
    else if c == 'H' then Some(Hearts) else if c == 'S' then Some(Spades) else None
  }

  function SideOf(c: char): Option<Side> {
    if c == 'N' then Some(N) else if c == 'E' then Some(E) else if c == 'S' then Some(S) else if c == 'W' then Some(W)
      else None
  }

  function ModeOf(c: char): Option<Mode> {
    if c == '1' then Some(TrickPenalty) else if c == '2' then Some(HeartPenalty)
      else if c == '3' then Some(QueenPenalty)
    else if c == '4' then Some(KingJackPenalty) else if c == '5' then Some(HeartKingPenalty)
    else if c == '6' then Some(SeventhLastTrickPenalty) else if c == '7' then Some(Everything) else None
  }

  /** Card::fromString. */
  function CardFromString(s: string): Option<Card> {
    if s == "" then None
    else
      var rank, color := RankOf(s[..|s| - 1]), ColorOf(s[|s| - 1]);
      if rank.Some? && color.Some? then Some(Card(rank.value, color.value)) else None
  }

  lemma RankOfValueText(r: Rank)
    ensures RankOf(ValueText(r)) == Some(r)
  {
    assert Dec(10) == Dec(1) + "0" && Dec(1) == "1";
  }

  lemma ValueTextOfRank(v: string)
    requires RankOf(v).Some?
    ensures ValueText(RankOf(v).value) == v
  {
    assert Dec(10) == Dec(1) + "0" && Dec(1) == "1";
  }

  /** Card::fromString undoes Card::toString. */
  lemma CardTextIsRead(c: Card)
    ensures CardFromString(Code(c)) == Some(c)
  {
    hide RankOf, ValueText;
    assert Code(c)[..|Code(c)| - 1] == ValueText(c.rank);
    RankOfValueText(c.rank);
  }

  /** What Card::fromString reads is printed as it was read. */
  lemma ReadCardIsPrinted(s: string)
    requires CardFromString(s).Some?
    ensures Code(CardFromString(s).value) == s
  {
    hide RankOf, ValueText;
    ValueTextOfRank(s[..|s| - 1]);
    assert s == s[..|s| - 1] + [s[|s| - 1]];
  }

  lemma SideOfSideChar(s: Side)
    ensures SideOf(SideChar(s)) == Some(s)
  {
  }

  lemma ModeOfModeNo(m: Mode)
    ensures Dec(ModeNo(m)) != "" && ModeOf(Dec(ModeNo(m))[0]) == Some(m)
  {
  }

  /** atoi undoes std::to_string. */
  lemma ValOfNoText(n: int)
    requires n >= 0
    ensures Val(NoText(n)) == n
  {
    ValOfDec(n);
  }
}
