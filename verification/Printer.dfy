/** The printers (common/send_job.cpp), and the way from a message to its text and back. */
module Printer {
  import opened Rules
  import opened Cards
  import opened Jobs
  import opened Wire
  import opened Grammar
  import opened Parser

  // ---------------------------------------------------------------- messages and their fields

  /** An order in which an unordered container with these keys is visited. */
  ghost predicate Lists(order: seq<Side>, keys: set<Side>) {
    NoDup(order) && forall s: Side :: s in order <==> s in keys
  }

  /** The sides an unordered container of the message holds. */
  function Keys(j: Job): set<Side> {
    match j
    case Busy(sides) => sides
    case Score(m) => m.Keys
    case Total(m) => m.Keys
    case _ => {}
  }

  ghost predicate Printable(j: Job, serverSide: bool) {
    if serverSide then ValidToServer(j) else ValidToClient(j)
  }

  function EntriesOf(scores: map<Side, int>, order: seq<Side>): seq<(Side, nat)>
    requires ValidScores(scores)
  {
    if order == [] then []
      else EntriesOf(scores, order[..|order| - 1]) + [(order[|order| - 1], scores[order[|order| - 1]])]
  }

  /** The fields of a message, its unordered containers visited in the given order. */
  ghost function ToWire(j: Job, order: seq<Side>, serverSide: bool): Wire
    requires Printable(j, serverSide)
  {
    match j
    case Intro(s) => WIam(s)
    case Busy(_) => WBusy(order)
    case Deal(mode, starting, cards) => WDeal(mode, starting, cards)
    case Trick(table, no) => if serverSide then WMove(no, table[0]) else WTrick(no, table)
    case Taken(table, taker, no) => WTaken(no, table, taker)
    case Wrong(no) => WWrong(no)
    case Score(m) => WScore(EntriesOf(m, order))
    case Total(m) => WTotal(EntriesOf(m, order))
  }

  /** A score table filled entry by entry. */
  function TableOf(es: seq<(Side, nat)>): map<Side, int> {
    if es == [] then map[] else TableOf(es[..|es| - 1])[es[|es| - 1].0 := es[|es| - 1].1]
  }

  /** The message that a reader makes of the fields. */
  function Meaning(w: Wire): Job {
    match w
    case WIam(s) => Intro(s)
    case WBusy(sides) => Busy(set s | s in sides)
    case WDeal(mode, side, cards) => Deal(mode, side, cards)
    case WTrick(no, cards) => Trick(cards, no)
    case WMove(no, card) => Trick([card], no)
    case WWrong(no) => Wrong(no)
    case WTaken(no, cards, side) => Taken(cards, side, no)
    case WScore(es) => Score(TableOf(es))
    case WTotal(es) => Total(TableOf(es))
  }

  lemma {:induction false} TableOfEntries(scores: map<Side, int>, order: seq<Side>)
    requires ValidScores(scores)
    ensures |EntriesOf(scores, order)| == |order|
    ensures var t := TableOf(EntriesOf(scores, order));
            forall s: Side :: (s in t <==> s in order) && (s in order ==> t[s] == scores[s])
  {
    if order != [] {
      TableOfEntries(scores, order[..|order| - 1]);
      assert order == order[..|order| - 1] + [order[|order| - 1]];
    }
  }

  lemma AllFour(order: seq<Side>)
    requires NoDup(order)
    ensures |order| <= 4
    ensures (forall s: Side :: s in order) ==> |order| == 4
  {
    var ss := set s | s in order;
    SetOfDistinct(order);
    AtMostFour(ss);
    if forall s: Side :: s in order {
      FourSides({N, E, S, W});
      assert ss == {N, E, S, W};
    }
  }

  lemma AtMostFour(ss: set<Side>)
    ensures |ss| <= 4
  {
    FourSides({N, E, S, W});
    assert ss <= {N, E, S, W};
    Subset(ss, {N, E, S, W});
  }

  lemma {:induction false} Subset<T>(a: set<T>, b: set<T>)
    requires a <= b
    ensures |a| <= |b|
  {
    if x :| x in a {
      Subset(a - {x}, b - {x});
    }
  }

  lemma {:induction false} SetOfDistinct(order: seq<Side>)
    requires NoDup(order)
    ensures |set s | s in order| == |order|
  {
    if order != [] {
      var init, last := order[..|order| - 1], order[|order| - 1];
      SetOfDistinct(init);
      assert (set s | s in order) == (set s | s in init) + {last};
    }
  }

  /** The fields of a message that may be sent are in the ranges of the grammar, and they mean the message. */
  lemma WireMeans(j: Job, order: seq<Side>, serverSide: bool)
    requires Printable(j, serverSide) && Lists(order, Keys(j))
    ensures var w := ToWire(j, order, serverSide); Valid(w) && ForServer(w) == serverSide && Meaning(w) == j
  {
    hide EntriesOf, TableOf;
    match j {
      case Busy(sides) =>
        AllFour(order);
        assert order != [] by { var s :| s in sides; assert s in order; }
        assert (set s | s in order) == sides;
      case Score(m) =>
        AllFour(order);
        TableOfEntries(m, order);
        assert TableOf(EntriesOf(m, order)) == m;
      case Total(m) =>
        AllFour(order);
        TableOfEntries(m, order);
        assert TableOf(EntriesOf(m, order)) == m;
      case _ =>
    }
  }

  // ---------------------------------------------------------------- printers

  const SEPARATOR := "\r\n"

  method GenBusy(taken: seq<Side>) returns (res: string)
    ensures res == Text(WBusy(taken)) + SEPARATOR
  {
    hide SideChar;
    res := "BUSY";
    for i := 0 to |taken|
      invariant res == "BUSY" + SideTexts(taken[..i])
    {
      assert taken[..i + 1][..i] == taken[..i];
      res := res + [SideChar(taken[i])];
    }
    assert taken[..|taken|] == taken;
    res := res + SEPARATOR;
  }

  /** The body of SCORE and of TOTAL. */
  method GenScores(prefix: string, scores: map<Side, int>, order: seq<Side>) returns (res: string)
    requires forall s :: s in order ==> s in scores
    ensures ValidScores(scores) ==> res == prefix + Entries(EntriesOf(scores, order)) + SEPARATOR
  {
    hide SideChar, NoText, Entries, EntriesOf, EntryText;
    res := prefix;
    NoEntriesYet(scores);
    for i := 0 to |order|
      invariant ValidScores(scores) ==> res == prefix + Entries(EntriesOf(scores, order[..i]))
    {
      if ValidScores(scores) {
        EntriesOfSnoc(scores, order, i);
        EntryAdded(prefix, Entries(EntriesOf(scores, order[..i])), order[i], scores[order[i]]);
      }
      res := res + [SideChar(order[i])];
      res := res + NoText(scores[order[i]]);
    }
    assert order[..|order|] == order;
    res := res + SEPARATOR;
  }

  lemma NoEntriesYet(scores: map<Side, int>)
    ensures ValidScores(scores) ==> Entries(EntriesOf(scores, [])) == ""
  {
  }

  lemma EntryAdded(prefix: string, before: string, s: Side, n: nat)
    ensures prefix + before + [SideChar(s)] + NoText(n) == prefix + (before + EntryText((s, n)))
  {
    hide SideChar, Dec;
  }

  lemma EntriesOfSnoc(scores: map<Side, int>, order: seq<Side>, i: nat)
    requires ValidScores(scores) && i < |order|
    ensures Entries(EntriesOf(scores, order[..i + 1]))
         == Entries(EntriesOf(scores, order[..i])) + EntryText((order[i], scores[order[i]]))
  {
    hide EntryText;
    assert order[..i + 1][..i] == order[..i];
    var es := EntriesOf(scores, order[..i]);
    var e: (Side, nat) := (order[i], scores[order[i]]);
    assert (es + [e])[..|es|] == es;
  }

  method GenCards(prefix: string, cards: seq<Card>) returns (res: string)
    ensures res == prefix + Codes(cards)
  {
    hide Code;
    res := prefix;
    for i := 0 to |cards|
      invariant res == prefix + Codes(cards[..i])
    {
      assert cards[..i + 1][..i] == cards[..i];
      res := res + Code(cards[i]);
    }
    assert cards[..|cards|] == cards;
  }

  /** The text of a message with the separator; order is the order in which its unordered container is visited. */
  method GenMsg(j: Job, order: seq<Side>, ghost serverSide: bool) returns (res: string)
    requires Lists(order, Keys(j))
    ensures Printable(j, serverSide) ==> res == Text(ToWire(j, order, serverSide)) + SEPARATOR
  {
    hide SideChar, Dec, Codes, Entries, EntriesOf, SideTexts, NoText;
    match j {
      case Intro(s) =>
        res := "IAM" + [SideChar(s)] + SEPARATOR;
      case Busy(_) =>
        res := GenBusy(order);
      case Deal(mode, starting, cards) =>
        res := "DEAL" + Dec(ModeNo(mode));
        res := res + [SideChar(starting)];
        res := GenCards(res, cards);
        res := res + SEPARATOR;
      case Trick(table, no) =>
        res := GenCards("TRICK" + NoText(no), table);
        res := res + SEPARATOR;
        assert |table| == 1 ==> table == [table[0]];
      case Taken(table, taker, no) =>
        res := GenCards("TAKEN" + NoText(no), table);
        res := res + [SideChar(taker)];
        res := res + SEPARATOR;
      case Wrong(no) =>
        res := "WRONG" + NoText(no) + SEPARATOR;
      case Score(m) =>
        res := GenScores("SCORE", m, order);
      case Total(m) =>
        res := GenScores("TOTAL", m, order);
    }
  }

  /** Whatever may be sent is read back on the other side, field by field, and means the message that was sent. */
  method PrintThenParse(j: Job, order: seq<Side>, serverSide: bool) returns (fields: seq<Field>)
    requires Printable(j, serverSide) && Lists(order, Keys(j))
    ensures fields == Fields(ToWire(j, order, serverSide))
    ensures exists w :: Fields(w) == fields && Reads(w, Text(w), serverSide) && Meaning(w) == j
  {
    hide Text, Fields, Valid, ToWire, Meaning, Printable;
    var text := GenMsg(j, order, serverSide);
    ghost var w := ToWire(j, order, serverSide);
    WireMeans(j, order, serverSide);
    assert text[..|text| - 2] == Text(w);
    assert Reads(w, Text(w), serverSide);
    fields := ParseNetMsg(text[..|text| - 2], serverSide);
  }

  /** A message has only one text for each visiting order, and different messages have different texts. */
  lemma DifferentMessagesDiffer(i: Job, j: Job, orderI: seq<Side>, orderJ: seq<Side>, serverSide: bool)
    requires Printable(i, serverSide) && Lists(orderI, Keys(i))
    requires Printable(j, serverSide) && Lists(orderJ, Keys(j))
    requires Text(ToWire(i, orderI, serverSide)) == Text(ToWire(j, orderJ, serverSide))
    ensures i == j
  {
    hide Text, Fields, Valid, ToWire, Meaning, Printable;
    WireMeans(i, orderI, serverSide);
    WireMeans(j, orderJ, serverSide);
    Unambiguous(ToWire(i, orderI, serverSide), ToWire(j, orderJ, serverSide));
  }

  // ---------------------------------------------------------------- the letters and digits of the protocol

  /** Sides and modes, some in shorter lists than are ever sent. */
  lemma LettersOfSides()
    ensures Text(WIam(N)) == "IAMN" && Text(WIam(E)) == "IAME" && Text(WIam(S)) == "IAMS" && Text(WIam(W)) == "IAMW"
    ensures Text(WBusy([N, E])) == "BUSYNE" && Text(WDeal(Everything, S, [])) == "DEAL7S"
    ensures [ModeNo(TrickPenalty), ModeNo(HeartPenalty), ModeNo(QueenPenalty), ModeNo(KingJackPenalty),
             ModeNo(HeartKingPenalty), ModeNo(SeventhLastTrickPenalty), ModeNo(Everything)] == [1, 2, 3, 4, 5, 6, 7]
    ensures SEPARATOR == "\r\n"
  {
    hide Dec, SideTexts, Entries, Code;
    Numerals();
    TwoSides(N, E, 0, 0);
  }

  /** Cards and trick numbers. */
  lemma LettersOfCards()
    ensures Text(WTrick(7, [Card(14, Spades), Card(2, Clubs)])) == "TRICK7AS2C"
    ensures Text(WMove(13, Card(10, Diamonds))) == "TRICK1310D" && Text(WWrong(5)) == "WRONG5"
    ensures Text(WTaken(1, [Card(11, Hearts), Card(12, Clubs)], W)) == "TAKEN1JHQCW"
    ensures Code(Card(13, Spades)) == "KS"
  {
    TrickLiterally();
    MoveLiterally();
    TakenLiterally();
    CardNames();
  }

  lemma TrickLiterally()
    ensures Text(WTrick(7, [Card(14, Spades), Card(2, Clubs)])) == "TRICK7AS2C"
  {
    hide Dec, Codes, Code;
    Numerals();
    TwoCards(Card(14, Spades), Card(2, Clubs));
    CardNames();
  }

  lemma MoveLiterally()
    ensures Text(WMove(13, Card(10, Diamonds))) == "TRICK1310D" && Text(WWrong(5)) == "WRONG5"
  {
    hide Dec, Codes, Code;
    Numerals();
    TwoCards(Card(10, Diamonds), Card(10, Diamonds));
    CardNames();
  }

  lemma TakenLiterally()
    ensures Text(WTaken(1, [Card(11, Hearts), Card(12, Clubs)], W)) == "TAKEN1JHQCW"
  {
    hide Dec, Codes, Code;
    Numerals();
    TwoCards(Card(11, Hearts), Card(12, Clubs));
    CardNames();
  }

  /** Scores. */
  lemma DigitsOfScores()
    ensures Text(WScore([(N, 0), (E, 10)])) == "SCOREN0E10" && Text(WTotal([(W, 13), (S, 2)])) == "TOTALW13S2"
  {
    hide Dec, Entries;
    Numerals();
    TwoSides(N, E, 0, 10);
    TwoSides(W, S, 13, 2);
  }

  lemma Numerals()
    ensures Dec(0) == "0" && Dec(1) == "1" && Dec(2) == "2" && Dec(5) == "5" && Dec(7) == "7"
    ensures Dec(10) == "10" && Dec(13) == "13"
  {
    assert Dec(10) == Dec(1) + ['0'];
    assert Dec(13) == Dec(1) + ['3'];
  }

  lemma CardNames()
    ensures Code(Card(14, Spades)) == "AS" && Code(Card(2, Clubs)) == "2C" && Code(Card(10, Diamonds)) == "10D"
    ensures Code(Card(11, Hearts)) == "JH" && Code(Card(12, Clubs)) == "QC" && Code(Card(13, Spades)) == "KS"
  {
    hide Dec;
    Numerals();
  }

  /** Lists are written from their beginning. */
  lemma TwoCards(c: Card, d: Card)
    ensures Codes([c]) == Code(c) && Codes([c, d]) == Code(c) + Code(d)
  {
    hide Code;
    assert [c][..0] == [] && [c, d][..1] == [c];
    assert Codes([]) == "" && "" + Code(c) == Code(c);
  }

  lemma TwoSides(s: Side, t: Side, m: nat, n: nat)
    ensures SideTexts([s, t]) == [SideChar(s)] + [SideChar(t)]
    ensures Entries([(s, m), (t, n)]) == [SideChar(s)] + Dec(m) + ([SideChar(t)] + Dec(n))
  {
    hide SideChar, Dec, EntryText;
    assert [s][..0] == [] && [s, t][..1] == [s];
    assert SideTexts([s]) == "" + [SideChar(s)] == [SideChar(s)];
    var e: (Side, nat) := (s, m);
    var f: (Side, nat) := (t, n);
    assert [e][..0] == [] && [e, f][..1] == [e];
    assert Entries([e]) == "" + EntryText(e) == EntryText(e);
    assert Entries([e, f]) == EntryText(e) + EntryText(f);
    EntryIs(s, m);
    EntryIs(t, n);
  }

  lemma EntryIs(s: Side, n: nat)
    ensures EntryText((s, n)) == [SideChar(s)] + Dec(n)
  {
  }
}
