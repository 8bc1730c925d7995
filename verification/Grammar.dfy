/** Each pattern accepts exactly the texts of its kind of message, and no text has two readings. */
module Grammar {
  import opened Cards
  import opened Rules
  import opened Regex
  import opened Wire

  // ---------------------------------------------------------------- lists of items

  function Flat(ts: seq<string>): string {
    if ts == [] then "" else Flat(ts[..|ts| - 1]) + ts[|ts| - 1]
  }

  lemma {:induction false} FlatCons(t: string, ts: seq<string>)
    ensures Flat([t] + ts) == t + Flat(ts)
  {
    if ts == [] {
      assert [t] + ts == [t] && [t][..0] == [];
    } else {
      assert ([t] + ts)[..|[t] + ts| - 1] == [t] + ts[..|ts| - 1];
      FlatCons(t, ts[..|ts| - 1]);
    }
  }

  ghost predicate AllMatch(r: Re, ts: seq<string>) {
    forall i :: 0 <= i < |ts| ==> Matches(r, ts[i])
  }

  lemma {:induction false} TimesSplits(r: Re, lo: int, hi: nat, s: string) returns (ts: seq<string>)
    requires Times(r, lo, hi, s)
    ensures lo <= |ts| <= hi && AllMatch(r, ts) && Flat(ts) == s
    decreases hi
  {
    if lo <= 0 && s == "" {
      ts := [];
    } else {
      var k :| 0 <= k <= |s| && TimesSplit(r, lo, hi, s, k);
      var rest := TimesSplits(r, lo - 1, hi - 1, s[k..]);
      ts := [s[..k]] + rest;
      FlatCons(s[..k], rest);
    }
  }

  lemma {:induction false} FlatTimes(r: Re, lo: int, hi: nat, ts: seq<string>)
    requires lo <= |ts| <= hi && AllMatch(r, ts)
    ensures Times(r, lo, hi, Flat(ts))
    decreases hi
  {
    if ts != [] {
      assert ts == [ts[0]] + ts[1..];
      FlatCons(ts[0], ts[1..]);
      FlatTimes(r, lo - 1, hi - 1, ts[1..]);
      TimesMatches(r, lo, hi, ts[0], Flat(ts[1..]));
    }
  }

  // ---------------------------------------------------------------- numbers

  function DigitValue(c: char): nat {
    if '0' <= c <= '9' then c as int - '0' as int else 0
  }

  /** atoi on a string of digits. */
  function Val(s: string): nat {
    if s == "" then 0 else 10 * Val(s[..|s| - 1]) + DigitValue(s[|s| - 1])
  }

  ghost predicate AllDigits(s: string) {
    forall i :: 0 <= i < |s| ==> s[i] in DIGITS
  }

  lemma {:induction false} ValOfDec(n: nat)
    ensures Val(Dec(n)) == n
    ensures n > 0 ==> Dec(n)[0] != '0'
  {
    if n >= 10 {
      ValOfDec(n / 10);
      assert Dec(n)[..|Dec(n)| - 1] == Dec(n / 10);
    } else {
      assert Dec(n)[..0] == "";
    }
  }

  lemma DecInjective(a: nat, b: nat)
    requires Dec(a) == Dec(b)
    ensures a == b
  {
    ValOfDec(a);
    ValOfDec(b);
  }

  lemma {:induction false} DecOfVal(s: string)
    requires s != "" && AllDigits(s) && (|s| > 1 ==> s[0] != '0')
    ensures Dec(Val(s)) == s
    ensures s[0] != '0' ==> Val(s) > 0
  {
    hide Dec, DigitValue;
    var init, d := s[..|s| - 1], s[|s| - 1];
    Digit(d);
    if |s| > 1 {
      assert init[0] == s[0];
      DecOfVal(init);
      DecSnoc(Val(init), DigitValue(d));
    } else {
      assert init == "";
    }
  }

  lemma Digit(c: char)
    requires c in DIGITS
    ensures DigitValue(c) < 10 && DIGITS[DigitValue(c)] == c && Dec(DigitValue(c)) == [c]
    ensures DigitValue(c) == 0 <==> c == '0'
  {
  }

  lemma DecSnoc(n: nat, d: nat)
    requires n > 0 && d < 10
    ensures Dec(10 * n + d) == Dec(n) + [DIGITS[d]]
  {
    assert (10 * n + d) / 10 == n && (10 * n + d) % 10 == d;
  }

  lemma {:induction false} DigitsRepeat(s: string)
    requires AllDigits(s)
    ensures Repeated(OneOf(DIGITS), s)
  {
    if s != "" {
      DigitsRepeat(s[1..]);
      assert s == [s[0]] + s[1..];
      StarMatches(OneOf(DIGITS), [s[0]], s[1..]);
    }
  }

  lemma {:induction false} RepeatIsDigits(s: string)
    requires Repeated(OneOf(DIGITS), s)
    ensures AllDigits(s)
  {
    if s != "" {
      var k :| 1 <= k <= |s| && RepeatedSplit(OneOf(DIGITS), s, k);
      RepeatIsDigits(s[k..]);
      assert Matches(OneOf(DIGITS), s[..k]);
      assert |s[..k]| == 1 && s[..k][0] in DIGITS;
      forall i | 0 <= i < |s| ensures s[i] in DIGITS {
        if i >= 1 {
          assert s[i] == s[1..][i - 1];
        }
      }
    }
  }

  lemma NumReads(s: string)
    requires Matches(NUM, s)
    ensures Dec(Val(s)) == s
  {
    hide Dec, Val;
    if s == "0" {
      Zero();
    } else {
      var k := CatSplits(OneOf("123456789"), Star(OneOf(DIGITS)), s);
      RepeatIsDigits(s[k..]);
      assert k == 1 && s[0] == s[..k][0];
      forall i | 0 <= i < |s| ensures s[i] in DIGITS {
        if i >= 1 {
          assert s[i] == s[1..][i - 1];
        }
      }
      DecOfVal(s);
    }
  }

  lemma Zero()
    ensures Dec(Val("0")) == "0" && Dec(0) == "0"
  {
    assert Val("") == 0;
  }

  lemma NumAccepts(n: nat)
    ensures Matches(NUM, Dec(n))
  {
    hide Dec, Val;
    var s := Dec(n);
    ValOfDec(n);
    if n > 0 {
      assert AllDigits(s[1..]);
      DigitsRepeat(s[1..]);
      assert s == [s[0]] + s[1..];
      CatMatches(OneOf("123456789"), Star(OneOf(DIGITS)), [s[0]], s[1..]);
    } else {
      Zero();
    }
  }

  lemma NumMeans(s: string)
    ensures Matches(NUM, s) <==> exists n: nat :: Dec(n) == s
  {
    hide Matches, Dec, Val;
    if Matches(NUM, s) {
      NumReads(s);
      assert Dec(Val(s)) == s;
    }
    if n: nat :| Dec(n) == s {
      NumAccepts(n);
    }
  }

  lemma NoTextIs(n: int)
    requires 1 <= n <= 13
    ensures NoText(n) == if n < 10 then [DIGITS[n]] else "1" + [DIGITS[n - 10]]
  {
    if n >= 10 {
      assert n / 10 == 1 && n % 10 == n - 10;
      assert Dec(1) == "1";
    }
  }

  lemma RnAccepts(n: int)
    requires 1 <= n <= 13
    ensures Matches(RN, NoText(n))
  {
    hide Dec, NoText;
    NoTextIs(n);
    if n >= 10 {
      CatMatches(Lit("1"), OneOf("0123"), "1", [DIGITS[n - 10]]);
    }
  }

  lemma RnReadsOne(s: string) returns (n: int)
    requires Matches(OneOf("123456789"), s)
    ensures 1 <= n <= 9 && NoText(n) == s
  {
    hide Dec, NoText;
    n := DigitValue(s[0]);
    NoTextIs(n);
    assert DIGITS[n] == s[0];
    assert s == [s[0]];
  }

  lemma RnReadsTwo(s: string) returns (n: int)
    requires Matches(OneOf("0123"), s)
    ensures 10 <= n <= 13 && NoText(n) == "1" + s
  {
    hide Dec, NoText;
    n := 10 + DigitValue(s[0]);
    NoTextIs(n);
    assert DIGITS[n - 10] == s[0];
    assert s == [s[0]];
  }

  lemma RnReads(s: string) returns (n: int)
    requires Matches(RN, s)
    ensures 1 <= n <= 13 && NoText(n) == s
  {
    hide NoText;
    if Matches(OneOf("123456789"), s) {
      n := RnReadsOne(s);
    } else {
      var k := CatSplits(Lit("1"), OneOf("0123"), s);
      n := RnReadsTwo(s[k..]);
      assert s == "1" + s[k..];
    }
  }

  /** Trick numbers: the pattern accepts 1 to 13. */
  lemma RnMeans(s: string)
    ensures Matches(RN, s) <==> exists n :: 1 <= n <= 13 && NoText(n) == s
  {
    if Matches(RN, s) {
      var n := RnReads(s);
    }
    if n :| 1 <= n <= 13 && NoText(n) == s {
      RnAccepts(n);
    }
  }

  // ---------------------------------------------------------------- sides and cards

  lemma SideMeans(s: string)
    ensures Matches(SIDE, s) <==> exists x :: [SideChar(x)] == s
  {
    assert [SideChar(N)] == "N" && [SideChar(E)] == "E" && [SideChar(S)] == "S" && [SideChar(W)] == "W";
    if Matches(SIDE, s) {
      assert s == [s[0]];
    }
  }

  const VALUE := Or(Or(OneOf("23456789"), Lit("10")), OneOf("JQKA"))

  lemma FaceTexts()
    ensures ValueText(10) == "10" && ValueText(11) == "J" && ValueText(12) == "Q" && ValueText(13) == "K"
            && ValueText(14) == "A"
  {
    assert Dec(10) == Dec(1) + "0" && Dec(1) == "1";
  }

  lemma DigitText(r: Rank)
    requires r <= 9
    ensures ValueText(r) == [DIGITS[r]]
  {
  }

  lemma ValueReads(s: string) returns (r: Rank)
    requires Matches(VALUE, s)
    ensures ValueText(r) == s
  {
    hide ValueText;
    FaceTexts();
    if Matches(OneOf("23456789"), s) {
      r := DigitValue(s[0]);
      DigitText(r);
      assert DIGITS[r] == s[0];
      assert s == [s[0]];
    } else if Matches(OneOf("JQKA"), s) {
      assert s == [s[0]];
      r := if s[0] == 'J' then 11 else if s[0] == 'Q' then 12 else if s[0] == 'K' then 13 else 14;
    } else {
      r := 10;
    }
  }

  lemma ValueAccepts(r: Rank)
    ensures Matches(VALUE, ValueText(r))
  {
    hide ValueText;
    FaceTexts();
    if r <= 9 {
      DigitText(r);
      assert DIGITS[r] in "23456789";
      assert Matches(OneOf("23456789"), [DIGITS[r]]);
    } else if r == 10 {
      assert Matches(Lit("10"), "10");
    } else {
      assert Matches(OneOf("JQKA"), ValueText(r));
    }
  }

  lemma ValueMeans(s: string)
    ensures Matches(VALUE, s) <==> exists r: Rank :: ValueText(r) == s
  {
    hide Matches, ValueText;
    if Matches(VALUE, s) {
      var r := ValueReads(s);
    }
    if r: Rank :| ValueText(r) == s {
      ValueAccepts(r);
    }
  }

  lemma ColorMeans(s: string)
    ensures Matches(OneOf("CDHS"), s) <==> exists c :: [ColorChar(c)] == s
  {
    assert [ColorChar(Clubs)] == "C" && [ColorChar(Diamonds)] == "D" && [ColorChar(Hearts)] == "H"
           && [ColorChar(Spades)] == "S";
    if Matches(OneOf("CDHS"), s) {
      assert s == [s[0]];
    }
  }

  lemma CardMeans(s: string)
    ensures Matches(CARD, s) <==> exists c :: Code(c) == s
  {
    if Matches(CARD, s) {
      var k := CatSplits(VALUE, OneOf("CDHS"), s);
      ValueMeans(s[..k]);
      ColorMeans(s[k..]);
      var r: Rank :| ValueText(r) == s[..k];
      var c :| [ColorChar(c)] == s[k..];
      assert Code(Card(r, c)) == s;
    }
    if c :| Code(c) == s {
      ValueMeans(ValueText(c.rank));
      ColorMeans([ColorChar(c.color)]);
      CatMatches(VALUE, OneOf("CDHS"), ValueText(c.rank), [ColorChar(c.color)]);
    }
  }

  lemma EntryMeans(s: string)
    ensures Matches(Cat(SIDE, NUM), s) <==> exists e :: EntryText(e) == s
  {
    if Matches(Cat(SIDE, NUM), s) {
      var k := CatSplits(SIDE, NUM, s);
      SideMeans(s[..k]);
      NumMeans(s[k..]);
      var x :| [SideChar(x)] == s[..k];
      var n: nat :| Dec(n) == s[k..];
      assert EntryText((x, n)) == s;
    }
    if e :| EntryText(e) == s {
      SideMeans([SideChar(e.0)]);
      NumAccepts(e.1);
      CatMatches(SIDE, NUM, [SideChar(e.0)], Dec(e.1));
    }
  }

  // ---------------------------------------------------------------- lists of cards, sides and entries

  lemma {:induction false} ReadCards(ts: seq<string>) returns (cs: seq<Card>)
    requires AllMatch(CARD, ts)
    ensures |cs| == |ts| && Codes(cs) == Flat(ts)
  {
    hide Matches, Code;
    if ts == [] {
      cs := [];
    } else {
      var init := ReadCards(ts[..|ts| - 1]);
      CardMeans(ts[|ts| - 1]);
      var c :| Code(c) == ts[|ts| - 1];
      cs := init + [c];
    }
  }

  lemma {:induction false} CardsMatch(cs: seq<Card>) returns (ts: seq<string>)
    ensures |ts| == |cs| && AllMatch(CARD, ts) && Flat(ts) == Codes(cs)
  {
    hide Matches, Code;
    if cs == [] {
      ts := [];
    } else {
      var init := CardsMatch(cs[..|cs| - 1]);
      var c := cs[|cs| - 1];
      CardMeans(Code(c));
      ts := init + [Code(c)];
    }
  }

  lemma {:induction false} ReadSides(ts: seq<string>) returns (ss: seq<Side>)
    requires AllMatch(SIDE, ts)
    ensures |ss| == |ts| && SideTexts(ss) == Flat(ts)
  {
    hide Matches;
    if ts == [] {
      ss := [];
    } else {
      var init := ReadSides(ts[..|ts| - 1]);
      SideMeans(ts[|ts| - 1]);
      var x :| [SideChar(x)] == ts[|ts| - 1];
      ss := init + [x];
    }
  }

  lemma {:induction false} SidesMatch(ss: seq<Side>) returns (ts: seq<string>)
    ensures |ts| == |ss| && AllMatch(SIDE, ts) && Flat(ts) == SideTexts(ss)
  {
    hide Matches;
    if ss == [] {
      ts := [];
    } else {
      var init := SidesMatch(ss[..|ss| - 1]);
      SideMeans([SideChar(ss[|ss| - 1])]);
      ts := init + [[SideChar(ss[|ss| - 1])]];
    }
  }

  lemma {:induction false} ReadEntries(ts: seq<string>) returns (es: seq<(Side, nat)>)
    requires AllMatch(Cat(SIDE, NUM), ts)
    ensures |es| == |ts| && Entries(es) == Flat(ts)
  {
    hide Matches, EntryText;
    if ts == [] {
      es := [];
    } else {
      var init := ReadEntries(ts[..|ts| - 1]);
      EntryMeans(ts[|ts| - 1]);
      var e :| EntryText(e) == ts[|ts| - 1];
      es := init + [e];
    }
  }

  lemma {:induction false} EntriesMatch(es: seq<(Side, nat)>) returns (ts: seq<string>)
    ensures |ts| == |es| && AllMatch(Cat(SIDE, NUM), ts) && Flat(ts) == Entries(es)
  {
    hide Matches, EntryText;
    if es == [] {
      ts := [];
    } else {
      var init := EntriesMatch(es[..|es| - 1]);
      EntryMeans(EntryText(es[|es| - 1]));
      ts := init + [EntryText(es[|es| - 1])];
    }
  }

  lemma RepCardsMeans(lo: nat, hi: nat, s: string)
    ensures Matches(Rep(CARD, lo, hi), s) <==> exists cs :: lo <= |cs| <= hi && Codes(cs) == s
  {
    hide Times, Codes;
    if Matches(Rep(CARD, lo, hi), s) {
      var ts := TimesSplits(CARD, lo, hi, s);
      var cs := ReadCards(ts);
    }
    if cs :| lo <= |cs| <= hi && Codes(cs) == s {
      var ts := CardsMatch(cs);
      FlatTimes(CARD, lo, hi, ts);
    }
  }

  lemma RepSidesMeans(lo: nat, hi: nat, s: string)
    ensures Matches(Rep(SIDE, lo, hi), s) <==> exists ss :: lo <= |ss| <= hi && SideTexts(ss) == s
  {
    hide Times, SideTexts;
    if Matches(Rep(SIDE, lo, hi), s) {
      var ts := TimesSplits(SIDE, lo, hi, s);
      var ss := ReadSides(ts);
    }
    if ss :| lo <= |ss| <= hi && SideTexts(ss) == s {
      var ts := SidesMatch(ss);
      FlatTimes(SIDE, lo, hi, ts);
    }
  }

  lemma RepEntriesMeans(lo: nat, hi: nat, s: string)
    ensures Matches(Rep(Cat(SIDE, NUM), lo, hi), s) <==> exists es :: lo <= |es| <= hi && Entries(es) == s
  {
    hide Times, Entries;
    if Matches(Rep(Cat(SIDE, NUM), lo, hi), s) {
      var ts := TimesSplits(Cat(SIDE, NUM), lo, hi, s);
      var es := ReadEntries(ts);
    }
    if es :| lo <= |es| <= hi && Entries(es) == s {
      var ts := EntriesMatch(es);
      FlatTimes(Cat(SIDE, NUM), lo, hi, ts);
    }
  }

  // ---------------------------------------------------------------- patterns accept exactly the texts

  lemma ModeAccepted(m: Mode)
    ensures Matches(OneOf("1234567"), Dec(ModeNo(m))) && |Dec(ModeNo(m))| == 1
  {
  }

  lemma ModeRead(s: string) returns (m: Mode)
    requires Matches(OneOf("1234567"), s)
    ensures Dec(ModeNo(m)) == s
  {
    m := if s[0] == '1' then TrickPenalty else if s[0] == '2' then HeartPenalty else if s[0] == '3' then QueenPenalty
         else if s[0] == '4' then KingJackPenalty else if s[0] == '5' then HeartKingPenalty
         else if s[0] == '6' then SeventhLastTrickPenalty else Everything;
    assert s == [s[0]];
  }

  lemma LitText(t: string, r: Re, s: string)
    requires Matches(r, s)
    ensures Matches(Cat(Lit(t), r), t + s)
  {
    CatMatches(Lit(t), r, t, s);
  }

  lemma DealAccepted(mode: Mode, side: Side, cards: seq<Card>)
    requires |cards| == 13
    ensures Matches(DEAL_BODY, Dec(ModeNo(mode)) + ([SideChar(side)] + Codes(cards)))
  {
    hide Matches, Dec, Codes, SideChar;
    ModeAccepted(mode);
    SideMeans([SideChar(side)]);
    RepCardsMeans(13, 13, Codes(cards));
    CatMatches(SIDE, Rep(CARD, 13, 13), [SideChar(side)], Codes(cards));
    CatMatches(OneOf("1234567"), Cat(SIDE, Rep(CARD, 13, 13)), Dec(ModeNo(mode)), [SideChar(side)] + Codes(cards));
  }

  lemma TrickAccepted(no: int, cards: seq<Card>)
    requires 1 <= no <= 13 && |cards| <= 3
    ensures Matches(TRICK_BODY, NoText(no) + Codes(cards))
  {
    hide Matches, NoText, Codes;
    RnAccepts(no);
    RepCardsMeans(0, 3, Codes(cards));
    CatMatches(RN, Rep(CARD, 0, 3), NoText(no), Codes(cards));
  }

  lemma MoveAccepted(no: int, card: Card)
    requires 1 <= no <= 13
    ensures Matches(MOVE_BODY, NoText(no) + Code(card))
  {
    hide Matches, NoText, Code;
    RnAccepts(no);
    CardMeans(Code(card));
    CatMatches(RN, CARD, NoText(no), Code(card));
  }

  lemma TakenAccepted(no: int, cards: seq<Card>, side: Side)
    requires 1 <= no <= 13 && |cards| == 4
    ensures Matches(TAKEN_BODY, NoText(no) + (Codes(cards) + [SideChar(side)]))
  {
    hide Matches, NoText, Codes, SideChar;
    RnAccepts(no);
    RepCardsMeans(4, 4, Codes(cards));
    SideMeans([SideChar(side)]);
    CatMatches(Rep(CARD, 4, 4), SIDE, Codes(cards), [SideChar(side)]);
    CatMatches(RN, Cat(Rep(CARD, 4, 4), SIDE), NoText(no), Codes(cards) + [SideChar(side)]);
  }

  /** The text of a message behind its keyword. */
  function Body(w: Wire): string {
    match w
    case WIam(side) => [SideChar(side)]
    case WBusy(sides) => SideTexts(sides)
    case WDeal(mode, side, cards) => Dec(ModeNo(mode)) + ([SideChar(side)] + Codes(cards))
    case WTrick(no, cards) => NoText(no) + Codes(cards)
    case WMove(no, card) => NoText(no) + Code(card)
    case WWrong(no) => NoText(no)
    case WTaken(no, cards, side) => NoText(no) + (Codes(cards) + [SideChar(side)])
    case WScore(es) => Entries(es)
    case WTotal(es) => Entries(es)
  }

  const KEYWORDS: seq<string> := ["IAM", "BUSY", "DEAL", "TRICK", "TRICK", "WRONG", "TAKEN", "SCORE", "TOTAL"]
  const BODIES: seq<Re> :=
    [SIDE, Rep(SIDE, 1, 4), DEAL_BODY, TRICK_BODY, MOVE_BODY, RN, TAKEN_BODY, SCORES_BODY, SCORES_BODY]

  lemma TextIsKeywordAndBody(w: Wire)
    ensures Text(w) == KEYWORDS[Kind(w)] + Body(w)
  {
    hide Dec, NoText, Codes, SideTexts, Entries, SideChar, Code, ModeNo;
    match w {
      case WDeal(mode, side, cards) => Regroup("DEAL", Dec(ModeNo(mode)), [SideChar(side)], Codes(cards));
      case WTrick(no, cards) => Regroup("TRICK", NoText(no), Codes(cards), "");
      case WMove(no, card) =>
        OneCard(card);
        Regroup("TRICK", NoText(no), Code(card), "");
      case WTaken(no, cards, side) => Regroup("TAKEN", NoText(no), Codes(cards), [SideChar(side)]);
      case _ =>
    }
  }

  lemma Regroup(a: string, b: string, c: string, d: string)
    ensures a + b + c + d == a + (b + (c + d))
    ensures a + b + c == a + (b + c)
  {
  }

  lemma PatternIsKeywordAndBody(k: nat)
    requires k < |PATTERNS|
    ensures PATTERNS[k] == Cat(Lit(KEYWORDS[k]), BODIES[k])
  {
  }

  lemma BodyAccepted(w: Wire)
    requires Valid(w)
    ensures Matches(BODIES[Kind(w)], Body(w))
  {
    hide Matches, Dec, NoText, Codes, SideTexts, Entries, SideChar, Code;
    match w {
      case WIam(side) => SideMeans([SideChar(side)]);
      case WBusy(sides) => RepSidesMeans(1, 4, SideTexts(sides));
      case WDeal(mode, side, cards) => DealAccepted(mode, side, cards);
      case WTrick(no, cards) => TrickAccepted(no, cards);
      case WMove(no, card) => MoveAccepted(no, card);
      case WWrong(no) => RnAccepts(no);
      case WTaken(no, cards, side) => TakenAccepted(no, cards, side);
      case WScore(es) => RepEntriesMeans(4, 4, Entries(es));
      case WTotal(es) => RepEntriesMeans(4, 4, Entries(es));
    }
  }

  /** The printers stay inside the grammar. */
  lemma TextMatches(w: Wire)
    requires Valid(w)
    ensures Matches(PATTERNS[Kind(w)], Text(w))
  {
    hide Matches, Text, Body, Valid;
    TextIsKeywordAndBody(w);
    PatternIsKeywordAndBody(Kind(w));
    BodyAccepted(w);
    LitText(KEYWORDS[Kind(w)], BODIES[Kind(w)], Body(w));
  }

  lemma OneCard(c: Card)
    ensures Codes([c]) == Code(c)
  {
    assert [c][..0] == [];
  }

  lemma LitSplits(t: string, r: Re, s: string)
    requires Matches(Cat(Lit(t), r), s)
    ensures |s| >= |t| && s[..|t|] == t && Matches(r, s[|t|..]) && s == t + s[|t|..]
  {
    var k := CatSplits(Lit(t), r, s);
  }

  lemma DealRead(t: string) returns (w: Wire)
    requires Matches(DEAL_BODY, t)
    ensures w.WDeal? && Valid(w) && Body(w) == t
  {
    hide Matches, Dec, Codes, SideChar;
    var i := CatSplits(OneOf("1234567"), Cat(SIDE, Rep(CARD, 13, 13)), t);
    var m := ModeRead(t[..i]);
    var u := t[i..];
    var j := CatSplits(SIDE, Rep(CARD, 13, 13), u);
    SideMeans(u[..j]);
    var x :| [SideChar(x)] == u[..j];
    RepCardsMeans(13, 13, u[j..]);
    var cs :| 13 <= |cs| <= 13 && Codes(cs) == u[j..];
    w := WDeal(m, x, cs);
  }

  lemma TrickRead(t: string) returns (w: Wire)
    requires Matches(TRICK_BODY, t)
    ensures w.WTrick? && Valid(w) && Body(w) == t
  {
    hide Matches, NoText, Codes;
    var i := CatSplits(RN, Rep(CARD, 0, 3), t);
    var n := RnReads(t[..i]);
    RepCardsMeans(0, 3, t[i..]);
    var cs :| 0 <= |cs| <= 3 && Codes(cs) == t[i..];
    w := WTrick(n, cs);
  }

  lemma MoveRead(t: string) returns (w: Wire)
    requires Matches(MOVE_BODY, t)
    ensures w.WMove? && Valid(w) && Body(w) == t
  {
    hide Matches, NoText, Code;
    var i := CatSplits(RN, CARD, t);
    var n := RnReads(t[..i]);
    CardMeans(t[i..]);
    var c :| Code(c) == t[i..];
    w := WMove(n, c);
  }

  lemma TakenRead(t: string) returns (w: Wire)
    requires Matches(TAKEN_BODY, t)
    ensures w.WTaken? && Valid(w) && Body(w) == t
  {
    hide Matches, NoText, Codes, SideChar;
    var i := CatSplits(RN, Cat(Rep(CARD, 4, 4), SIDE), t);
    var n := RnReads(t[..i]);
    var u := t[i..];
    var j := CatSplits(Rep(CARD, 4, 4), SIDE, u);
    RepCardsMeans(4, 4, u[..j]);
    var cs :| 4 <= |cs| <= 4 && Codes(cs) == u[..j];
    SideMeans(u[j..]);
    var x :| [SideChar(x)] == u[j..];
    w := WTaken(n, cs, x);
  }

  lemma BusyRead(t: string) returns (w: Wire)
    requires Matches(Rep(SIDE, 1, 4), t)
    ensures w.WBusy? && Valid(w) && Body(w) == t
  {
    hide Matches, SideTexts;
    RepSidesMeans(1, 4, t);
    var ss :| 1 <= |ss| <= 4 && SideTexts(ss) == t;
    w := WBusy(ss);
  }

  lemma ScoresRead(t: string) returns (es: seq<(Side, nat)>)
    requires Matches(SCORES_BODY, t)
    ensures |es| == 4 && Entries(es) == t
  {
    hide Matches, Entries;
    RepEntriesMeans(4, 4, t);
    es :| 4 <= |es| <= 4 && Entries(es) == t;
  }

  lemma BodyRead(k: nat, t: string) returns (w: Wire)
    requires k < |BODIES| && Matches(BODIES[k], t)
    ensures Valid(w) && Kind(w) == k && Body(w) == t
  {
    hide Matches, Dec, NoText, Codes, SideTexts, Entries, SideChar, Code, ModeNo;
    match k {
      case 0 =>
        SideMeans(t);
        var x :| [SideChar(x)] == t;
        w := WIam(x);
      case 1 => w := BusyRead(t);
      case 2 => w := DealRead(t);
      case 3 => w := TrickRead(t);
      case 4 => w := MoveRead(t);
      case 5 =>
        var n := RnReads(t);
        w := WWrong(n);
      case 6 => w := TakenRead(t);
      case _ =>
        var es := ScoresRead(t);
        w := if k == 7 then WScore(es) else WTotal(es);
    }
  }

  /** Whatever a pattern accepts is the text of a message of its kind. */
  lemma MatchesIsText(k: nat, s: string) returns (w: Wire)
    requires k < |PATTERNS| && Matches(PATTERNS[k], s)
    ensures Valid(w) && Kind(w) == k && Text(w) == s
  {
    hide Matches, Text, Body, Valid;
    PatternIsKeywordAndBody(k);
    LitSplits(KEYWORDS[k], BODIES[k], s);
    w := BodyRead(k, s[|KEYWORDS[k]|..]);
    TextIsKeywordAndBody(w);
  }

  // ---------------------------------------------------------------- unambiguity

  lemma CodeShape(c: Card)
    ensures 2 <= |Code(c)| <= 3
    ensures |Code(c)| == 3 <==> Code(c)[0] == '1'
    ensures |Code(c)| == 3 <==> Code(c)[|Code(c)| - 2] == '0'
    ensures Code(c)[|Code(c)| - 1] == ColorChar(c.color) && ColorChar(c.color) !in DIGITS
    ensures Code(c)[0] !in "0CDHS"
  {
    assert Dec(10) == Dec(1) + "0" && Dec(1) == "1";
  }

  lemma CodeInjective(a: Card, b: Card)
    requires Code(a) == Code(b)
    ensures a == b
  {
    CodeShape(a);
    CodeShape(b);
    assert ColorChar(a.color) == ColorChar(b.color);
    assert ValueText(a.rank) == Code(a)[..|Code(a)| - 1] == ValueText(b.rank);
    ValueInjective(a.rank, b.rank);
  }

  lemma ValueShape(r: Rank)
    ensures ValueText(r)[0] in DIGITS <==> r <= 10
  {
  }

  lemma ValueInjective(a: Rank, b: Rank)
    requires ValueText(a) == ValueText(b)
    ensures a == b
  {
    ValueShape(a);
    ValueShape(b);
    if a <= 10 {
      DecInjective(a, b);
    }
  }

  /** Two texts that end in a card end in the same card: codes are suffix-free. */
  lemma LastCard(x: string, a: Card, y: string, b: Card)
    requires x + Code(a) == y + Code(b)
    ensures x == y && a == b
  {
    hide Code;
    CodeShape(a);
    CodeShape(b);
    var s := x + Code(a);
    assert s[|s| - 2] == Code(a)[|Code(a)| - 2] == Code(b)[|Code(b)| - 2];
    assert |Code(a)| == |Code(b)|;
    assert x == s[..|s| - |Code(a)|] == y;
    assert Code(a) == s[|s| - |Code(a)|..] == Code(b);
    CodeInjective(a, b);
  }

  ghost predicate EndsInColor(s: string) {
    s != "" && s[|s| - 1] in "CDHS"
  }

  lemma EndsInCard(x: string, cs: seq<Card>)
    ensures cs != [] ==> EndsInColor(x + Codes(cs))
    ensures cs == [] ==> x + Codes(cs) == x
  {
    hide Code;
    if cs != [] {
      CodeShape(cs[|cs| - 1]);
    }
  }

  /** Cards are read off the end of a text without ambiguity. */
  lemma {:induction false} CardsUnambiguous(x: string, a: seq<Card>, y: string, b: seq<Card>)
    requires x + Codes(a) == y + Codes(b) && !EndsInColor(x) && !EndsInColor(y)
    ensures x == y && a == b
  {
    hide Code, EndsInColor;
    EndsInCard(x, a);
    EndsInCard(y, b);
    if a != [] {
      var a1, b1 := a[..|a| - 1], b[..|b| - 1];
      assert x + Codes(a) == (x + Codes(a1)) + Code(a[|a| - 1]);
      assert y + Codes(b) == (y + Codes(b1)) + Code(b[|b| - 1]);
      LastCard(x + Codes(a1), a[|a| - 1], y + Codes(b1), b[|b| - 1]);
      CardsUnambiguous(x, a1, y, b1);
    }
  }

  lemma SideCharInjective(a: Side, b: Side)
    ensures SideChar(a) == SideChar(b) <==> a == b
  {
  }

  lemma {:induction false} SidesUnambiguous(a: seq<Side>, b: seq<Side>)
    requires SideTexts(a) == SideTexts(b)
    ensures a == b
  {
    hide SideChar;
    if a != [] && b != [] {
      var a1, b1 := a[..|a| - 1], b[..|b| - 1];
      var s, x, y := SideTexts(a), SideChar(a[|a| - 1]), SideChar(b[|b| - 1]);
      assert SideTexts(a1) == (SideTexts(a1) + [x])[..|s| - 1] == (SideTexts(b1) + [y])[..|s| - 1] == SideTexts(b1);
      assert x == (SideTexts(a1) + [x])[|s| - 1] == (SideTexts(b1) + [y])[|s| - 1] == y;
      SideCharInjective(a[|a| - 1], b[|b| - 1]);
      SidesUnambiguous(a1, b1);
      assert a == a1 + [a[|a| - 1]] && b == b1 + [b[|b| - 1]];
    }
  }

  /** The digits at the end of a text are one number: a side letter stops them. */
  lemma LastEntry(x: string, a: (Side, nat), y: string, b: (Side, nat))
    requires x + EntryText(a) == y + EntryText(b)
    ensures x == y && a == b
  {
    hide Dec;
    var s := x + EntryText(a);
    var da, db := Dec(a.1), Dec(b.1);
    EntryEnd(x, a);
    EntryEnd(y, b);
    assert |da| == |db|;
    SideCharInjective(a.0, b.0);
    DecInjective(a.1, b.1);
  }

  /** The number at the end of a text, and the side before it. */
  lemma EntryEnd(x: string, e: (Side, nat))
    ensures var s, d := x + EntryText(e), Dec(e.1);
            && s[|s| - |d|..] == d && s[..|s| - |d| - 1] == x
            && s[|s| - |d| - 1] == SideChar(e.0) && SideChar(e.0) !in DIGITS
            && forall i :: |s| - |d| <= i < |s| ==> s[i] in DIGITS
  {
    hide Dec;
    var s, d := x + EntryText(e), Dec(e.1);
    assert s == (x + [SideChar(e.0)]) + d;
    forall i | |s| - |d| <= i < |s| ensures s[i] in DIGITS {
      assert s[i] == d[i - (|s| - |d|)];
    }
  }

  lemma {:induction false} EntriesUnambiguous(a: seq<(Side, nat)>, b: seq<(Side, nat)>)
    requires Entries(a) == Entries(b)
    ensures a == b
  {
    hide EntryText;
    EntriesNotEmpty(a);
    EntriesNotEmpty(b);
    if a != [] {
      LastEntry(Entries(a[..|a| - 1]), a[|a| - 1], Entries(b[..|b| - 1]), b[|b| - 1]);
      EntriesUnambiguous(a[..|a| - 1], b[..|b| - 1]);
    }
  }

  lemma EntriesNotEmpty(es: seq<(Side, nat)>)
    ensures Entries(es) == "" <==> es == []
  {
  }

  lemma NoTextShape(n: int)
    requires 1 <= n <= 13
    ensures !EndsInColor(NoText(n))
  {
    NoTextIs(n);
  }

  lemma NoTextInjective(a: int, b: int)
    requires 1 <= a <= 13 && 1 <= b <= 13 && NoText(a) == NoText(b)
    ensures a == b
  {
    DecInjective(a, b);
  }

  lemma ModeInjective(a: Mode, b: Mode)
    requires ModeNo(a) == ModeNo(b)
    ensures a == b
  {
  }

  lemma DealUnambiguous(v: Wire, w: Wire)
    requires v.WDeal? && w.WDeal? && Body(v) == Body(w)
    ensures v == w
  {
    hide Dec, Codes, EndsInColor, ModeNo, SideChar;
    ModeAccepted(v.mode);
    ModeAccepted(w.mode);
    assert Dec(ModeNo(v.mode)) == Body(v)[..1] == Dec(ModeNo(w.mode));
    DecInjective(ModeNo(v.mode), ModeNo(w.mode));
    ModeInjective(v.mode, w.mode);
    assert SideChar(v.side) == Body(v)[1] == SideChar(w.side);
    SideCharInjective(v.side, w.side);
    assert Codes(v.cards) == Body(v)[2..] == Codes(w.cards);
    NoColorFirst();
    CardsUnambiguous("", v.cards, "", w.cards);
  }

  lemma TakenUnambiguous(v: Wire, w: Wire)
    requires v.WTaken? && w.WTaken? && Valid(v) && Valid(w) && Body(v) == Body(w)
    ensures v == w
  {
    hide NoText, Codes, EndsInColor, SideChar;
    var s, t := NoText(v.no) + Codes(v.cards), NoText(w.no) + Codes(w.cards);
    assert Body(v) == s + [SideChar(v.side)] && Body(w) == t + [SideChar(w.side)];
    assert s == Body(v)[..|Body(v)| - 1] == t;
    assert SideChar(v.side) == Body(v)[|Body(v)| - 1] == SideChar(w.side);
    SideCharInjective(v.side, w.side);
    NoTextShape(v.no);
    NoTextShape(w.no);
    CardsUnambiguous(NoText(v.no), v.cards, NoText(w.no), w.cards);
    NoTextInjective(v.no, w.no);
  }

  lemma BodyUnambiguous(v: Wire, w: Wire)
    requires Valid(v) && Valid(w) && Kind(v) == Kind(w) && Body(v) == Body(w)
    ensures v == w
  {
    hide Dec, NoText, Codes, SideTexts, Entries, Code, EndsInColor, ModeNo;
    match v {
      case WIam(x) => assert SideChar(x) == Body(v)[0] == SideChar(w.side);
      case WBusy(ss) => SidesUnambiguous(ss, w.sides);
      case WDeal(_, _, _) => DealUnambiguous(v, w);
      case WTrick(n, cs) =>
        NoTextShape(n);
        NoTextShape(w.no);
        CardsUnambiguous(NoText(n), cs, NoText(w.no), w.cards);
        NoTextInjective(n, w.no);
      case WMove(n, c) =>
        LastCard(NoText(n), c, NoText(w.no), w.card);
        NoTextInjective(n, w.no);
      case WWrong(n) => NoTextInjective(n, w.no);
      case WTaken(_, _, _) => TakenUnambiguous(v, w);
      case WScore(es) => EntriesUnambiguous(es, w.entries);
      case WTotal(es) => EntriesUnambiguous(es, w.entries);
    }
  }

  lemma NoColorFirst()
    ensures !EndsInColor("")
  {
  }

  lemma KeywordsDiffer(v: Wire, w: Wire)
    requires ForServer(v) == ForServer(w) && Text(v) == Text(w)
    ensures Kind(v) == Kind(w)
  {
    hide Text, Body;
    TextIsKeywordAndBody(v);
    TextIsKeywordAndBody(w);
    assert Text(v)[0] == KEYWORDS[Kind(v)][0] && Text(v)[0] == KEYWORDS[Kind(w)][0];
    assert Text(v)[1] == KEYWORDS[Kind(v)][1] && Text(v)[1] == KEYWORDS[Kind(w)][1];
  }

  /** A text has at most one reading on each side of the connection. */
  lemma Unambiguous(v: Wire, w: Wire)
    requires Valid(v) && Valid(w) && ForServer(v) == ForServer(w) && Text(v) == Text(w)
    ensures v == w
  {
    hide Text, Body, Valid;
    KeywordsDiffer(v, w);
    TextIsKeywordAndBody(v);
    TextIsKeywordAndBody(w);
    assert Body(v) == Text(v)[|KEYWORDS[Kind(v)]|..] == Body(w);
    BodyUnambiguous(v, w);
  }
}
