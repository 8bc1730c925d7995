/** The parser (common/network_msg_parser.cpp): pattern by pattern, forward and backward. */
module Parser {
  import opened Cards
  import opened Regex
  import opened Wire
  import opened Grammar

  // ---------------------------------------------------------------- texts and fields, piece by piece

  lemma {:induction false} CodesAppend(a: seq<Card>, b: seq<Card>)
    ensures Codes(a + b) == Codes(a) + Codes(b)
  {
    hide Code;
    if b == [] {
      assert a + b == a;
    } else {
      assert (a + b)[..|a + b| - 1] == a + b[..|b| - 1];
      CodesAppend(a, b[..|b| - 1]);
    }
  }

  /** The text of a list of cards around its k-th card. */
  lemma CodesAt(cs: seq<Card>, k: nat)
    requires k < |cs|
    ensures Codes(cs) == Codes(cs[..k]) + Code(cs[k]) + Codes(cs[k + 1..])
    ensures Codes(cs[..k + 1]) == Codes(cs[..k]) + Code(cs[k])
    ensures CardFields(cs[..k + 1]) == CardFields(cs[..k]) + [("card", Code(cs[k]))]
  {
    hide Code, Codes, CardFields;
    var before, front, rest := cs[..k], cs[..k + 1], cs[k + 1..];
    CutAround(cs, k);
    CodesSnoc(before, cs[k]);
    CodesAppend(front, rest);
  }

  lemma CutAround<T>(s: seq<T>, k: nat)
    requires k < |s|
    ensures s[..k + 1] == s[..k] + [s[k]] && s == s[..k + 1] + s[k + 1..]
  {
  }

  lemma CodesSnoc(cs: seq<Card>, c: Card)
    ensures Codes(cs + [c]) == Codes(cs) + Code(c)
    ensures CardFields(cs + [c]) == CardFields(cs) + [("card", Code(c))]
  {
    hide Code;
    assert (cs + [c])[..|cs|] == cs;
  }

  lemma {:induction false} EntriesAppend(a: seq<(Side, nat)>, b: seq<(Side, nat)>)
    ensures Entries(a + b) == Entries(a) + Entries(b)
  {
    hide EntryText;
    if b == [] {
      assert a + b == a;
    } else {
      assert (a + b)[..|a + b| - 1] == a + b[..|b| - 1];
      EntriesAppend(a, b[..|b| - 1]);
    }
  }

  lemma EntriesAt(es: seq<(Side, nat)>, k: nat)
    requires k < |es|
    ensures Entries(es[k..]) == EntryText(es[k]) + Entries(es[k + 1..])
    ensures EntryFields(es[..k + 1]) == EntryFields(es[..k]) + [("side", [SideChar(es[k].0)]), ("score", Dec(es[k].1))]
  {
    hide EntryText, Dec, SideChar;
    assert es[..k + 1][..k] == es[..k];
    var head: seq<(Side, nat)> := [es[k]];
    assert es[k..] == head + es[k + 1..];
    EntriesAppend(head, es[k + 1..]);
    OneEntry(es[k]);
  }

  /** What follows a number is the end of the text or a side. */
  lemma EntriesStart(es: seq<(Side, nat)>)
    ensures es == [] ==> Entries(es) == ""
    ensures es != [] ==> Entries(es) != "" && Entries(es)[0] !in DIGITS
  {
    hide EntryText, Dec, SideChar;
    if es != [] {
      EntriesAt(es, 0);
      EntryStart(es[0]);
    }
  }

  lemma OneEntry(e: (Side, nat))
    ensures Entries([e]) == EntryText(e)
  {
    var es: seq<(Side, nat)> := [e];
    assert es[..0] == [];
  }

  lemma EntryStart(e: (Side, nat))
    ensures EntryText(e) != "" && EntryText(e)[0] !in DIGITS
  {
  }

  lemma DigitRange(c: char)
    ensures c in DIGITS <==> '0' <= c <= '9'
  {
    if '0' <= c <= '9' {
      assert c == DIGITS[c as int - '0' as int];
    }
  }

  /** std::reverse. */
  function Reversed(fs: seq<Field>): seq<Field> {
    if fs == [] then [] else [fs[|fs| - 1]] + Reversed(fs[..|fs| - 1])
  }

  lemma {:induction false} ReversedAppend(a: seq<Field>, b: seq<Field>)
    ensures Reversed(a + b) == Reversed(b) + Reversed(a)
  {
    if b == [] {
      assert a + b == a;
    } else {
      assert (a + b)[..|a + b| - 1] == a + b[..|b| - 1];
      ReversedAppend(a, b[..|b| - 1]);
    }
  }

  // ---------------------------------------------------------------- decoding one kind of message

  /** The next card of a text that continues with cards: a leading 1 means that the card is a ten. */
  lemma CardAfter(m: string, itr: nat, cs: seq<Card>, k: nat)
    requires k < |cs| && itr <= |m| && m[itr..] == Codes(cs[k..])
    ensures var code := Code(cs[k]);
            && 2 <= |code| && itr + |code| <= |m|
            && (m[itr] == '1' <==> |code| == 3) && (m[itr] != '1' <==> |code| == 2)
            && m[itr..itr + |code|] == code
            && m[itr + |code|..] == Codes(cs[k + 1..])
    ensures CardFields(cs[..k + 1]) == CardFields(cs[..k]) + [("card", Code(cs[k]))]
  {
    hide Code, Codes, CardFields;
    CodesFrom(cs, k);
    var code, rest := Code(cs[k]), Codes(cs[k + 1..]);
    CodeShape(cs[k]);
    assert m[itr..] == code + rest;
    assert m[itr] == m[itr..][0] == code[0];
    assert m[itr..itr + |code|] == m[itr..][..|code|] == code;
    assert m[itr + |code|..] == m[itr..][|code|..] == rest;
  }

  lemma CodesFrom(cs: seq<Card>, k: nat)
    requires k < |cs|
    ensures Codes(cs[k..]) == Code(cs[k]) + Codes(cs[k + 1..])
    ensures CardFields(cs[..k + 1]) == CardFields(cs[..k]) + [("card", Code(cs[k]))]
  {
    hide Code, CardFields;
    CodesAt(cs, k);
    CodesAt(cs[k..], 0);
    assert cs[k..][..0] == [] && cs[k..][1..] == cs[k + 1..];
  }

  method ReadBusy(m: string, ghost sides: seq<Side>) returns (res: seq<Field>)
    requires m == "BUSY" + SideTexts(sides)
    ensures res == Fields(WBusy(sides))
  {
    hide SideChar;
    res := [("type", "BUSY")];
    SidesLength(sides);
    for j := 4 to |m|
      invariant res == [("type", "BUSY")] + SideFields(sides[..j - 4])
    {
      assert sides[..j - 3][..j - 4] == sides[..j - 4];
      SideAt(sides, j - 4);
      assert m[j..j + 1] == [m[j]] == [SideChar(sides[j - 4])];
      SideFieldsSnoc(sides, j - 4);
      res := res + [("side", m[j..j + 1])];
    }
    assert sides[..|m| - 4] == sides;
  }

  lemma SideFieldsSnoc(ss: seq<Side>, k: nat)
    requires k < |ss|
    ensures SideFields(ss[..k + 1]) == SideFields(ss[..k]) + [("side", [SideChar(ss[k])])]
  {
    assert ss[..k + 1][..k] == ss[..k];
  }

  lemma {:induction false} SidesLength(ss: seq<Side>)
    ensures |SideTexts(ss)| == |ss|
  {
    if ss != [] {
      SidesLength(ss[..|ss| - 1]);
    }
  }

  lemma {:induction false} SideAt(ss: seq<Side>, k: nat)
    requires k < |ss|
    ensures |SideTexts(ss)| == |ss| && SideTexts(ss)[k] == SideChar(ss[k])
  {
    hide SideChar;
    SidesLength(ss);
    SidesLength(ss[..|ss| - 1]);
    if k < |ss| - 1 {
      SideAt(ss[..|ss| - 1], k);
    }
  }

  lemma DealText(w: Wire, m: string)
    requires w.WDeal? && Text(w) == m
    ensures |m| >= 6 && m[4..5] == Dec(ModeNo(w.mode)) && m[5..6] == [SideChar(w.side)] && m[6..] == Codes(w.cards)
  {
    hide Dec, Codes, SideChar;
    ModeAccepted(w.mode);
  }

  lemma DealFields(w: Wire)
    requires w.WDeal?
    ensures Fields(w) == [("type", "DEAL"), ("round_mode", Dec(ModeNo(w.mode))), ("side", [SideChar(w.side)])]
            + CardFields(w.cards)
  {
  }

  method ReadDeal(m: string, ghost w: Wire) returns (res: seq<Field>)
    requires w.WDeal? && Valid(w) && Text(w) == m
    ensures res == Fields(w)
  {
    hide Dec, Code, Codes, SideChar, Text, CardFields, Fields;
    ghost var cs := w.cards;
    DealText(w, m);
    DealFields(w);
    res := [("type", "DEAL"), ("round_mode", m[4..5]), ("side", m[5..6])];
    ghost var head := res;
    var itr: nat := 6;
    assert cs[0..] == cs && cs[..13] == cs;
    NoFields(cs);
    for j := 0 to TRICKS_PER_ROUND
      invariant itr <= |m| && m[itr..] == Codes(cs[j..])
      invariant res == head + CardFields(cs[..j])
    {
      CardAfter(m, itr, cs, j);
      var card;
      if m[itr] == '1' {
        card := m[itr..itr + 3];
        itr := itr + 1;
      } else {
        card := m[itr..itr + 2];
      }
      itr := itr + 2;
      res := res + [("card", card)];
    }
  }

  lemma NoFields(cs: seq<Card>)
    ensures CardFields(cs[..0]) == []
  {
  }

  method ReadTrick(m: string, ghost w: Wire) returns (res: seq<Field>)
    requires w.WTrick? && Valid(w) && Text(w) == m
    ensures res == Fields(w)
  {
    hide NoText, Code, Codes, Text, CardFields;
    ghost var cs := w.cards;
    var itr: nat := 7;
    res := [("type", "TRICK_S")];
    TrickText(w, m);
    CodesNotEmpty(cs);
    if |m| <= 7 {
      assert |m| == 5 + |NoText(w.no)|;
      res := res + [("rn", m[5..])];
    } else {
      var ind := m[7];
      if ind == 'C' || ind == 'H' || ind == 'D' || ind == 'S' || ind == '0' {
        res := res + [("rn", m[5..6])];
        itr := itr - 1;
      } else {
        res := res + [("rn", m[5..7])];
      }
    }
    ghost var head: seq<Field> := [("type", "TRICK_S"), ("rn", NoText(w.no))];
    assert res[1].1 == NoText(w.no);
    assert res == head;
    assert cs[0..] == cs && cs[|cs|..] == [] && cs[..|cs|] == cs;
    NoFields(cs);
    ghost var k := 0;
    while itr < |m|
      decreases |m| - itr
      invariant 0 <= k <= |cs|
      invariant if itr <= |m| then m[itr..] == Codes(cs[k..]) else k == |cs|
      invariant res == head + CardFields(cs[..k])
    {
      CodesNotEmpty(cs[k..]);
      CardAfter(m, itr, cs, k);
      var card;
      if m[itr] == '1' {
        card := m[itr..itr + 3];
        itr := itr + 1;
      } else {
        card := m[itr..itr + 2];
      }
      itr := itr + 2;
      res := res + [("card", card)];
      k := k + 1;
    }
    CodesNotEmpty(cs[k..]);
  }

  lemma CodesNotEmpty(cs: seq<Card>)
    ensures Codes(cs) == "" <==> cs == []
    ensures cs != [] ==> |Codes(cs)| >= |Code(cs[0])| && Codes(cs)[..|Code(cs[0])|] == Code(cs[0])
  {
    hide Code;
    if cs != [] {
      CodesAt(cs, 0);
      CodeShape(cs[0]);
      assert cs[..0] == [];
    }
  }

  /** Where the cards of a TRICK begin, and what the character at place 7 tells about it. */
  lemma TrickText(w: Wire, m: string)
    requires w.WTrick? && Valid(w) && Text(w) == m
    ensures var i := 5 + |NoText(w.no)|;
            && i <= |m| && m[5..i] == NoText(w.no) && m[i..] == Codes(w.cards)
            && (|m| <= 7 <==> w.cards == [])
            && 6 <= i <= 7
            && (|m| > 7 ==> (m[7] in ['C', 'H', 'D', 'S', '0'] <==> i == 6))
  {
    hide Code, NoText;
    NoTextIs(w.no);
    CodesNotEmpty(w.cards);
    var i := 5 + |NoText(w.no)|;
    assert m == "TRICK" + NoText(w.no) + Codes(w.cards);
    if w.cards != [] {
      CodeShape(w.cards[0]);
      assert m[7] == Codes(w.cards)[7 - i] == Code(w.cards[0])[7 - i];
    }
  }

  /** Reads the answer of a client backward: a 0 before the colour means that the card is a ten. */
  method ReadMove(m: string, ghost w: Wire) returns (res: seq<Field>)
    requires w.WMove? && Valid(w) && Text(w) == m
    ensures res == Fields(w)
  {
    hide NoText, Code, Text, Reversed, Codes;
    ghost var code := Code(w.card);
    MoveText(w, m);
    var itr: int;
    if m[|m| - 2] == '0' {
      res := [("card", m[|m| - 3..])];
      itr := |m| - 4;
    } else {
      res := [("card", m[|m| - 2..])];
      itr := |m| - 3;
    }
    assert itr + 1 == |m| - |code|;
    res := res + [("rn", m[5..itr + 1])];
    res := res + [("type", "TRICK_C")];
    res := Reversed(res);
    ThreeReversed(("card", code), ("rn", NoText(w.no)), ("type", "TRICK_C"));
  }

  lemma MoveText(w: Wire, m: string)
    requires w.WMove? && Text(w) == m
    ensures var code := Code(w.card);
            && 2 <= |code| && 5 + |code| <= |m|
            && (m[|m| - 2] == '0' <==> |code| == 3) && (m[|m| - 2] != '0' <==> |code| == 2)
            && m[|m| - |code|..] == code
            && m[5..|m| - |code|] == NoText(w.no)
  {
    hide NoText, Code, Codes;
    OneCard(w.card);
    CodeShape(w.card);
    var code := Code(w.card);
    assert m == ("TRICK" + NoText(w.no)) + code;
    assert m[|m| - 2] == code[|code| - 2];
  }

  lemma ThreeReversed(a: Field, b: Field, c: Field)
    ensures Reversed([a] + [b] + [c]) == [c, b, a]
  {
    ReversedAppend([a] + [b], [c]);
    ReversedAppend([a], [b]);
    assert [a][..0] == [] && [b][..0] == [] && [c][..0] == [];
  }

  /** The last card before a position of a text that is made of head and cards. */
  lemma CardBefore(m: string, end: nat, head: string, cs: seq<Card>, k: nat)
    requires k < |cs| && end <= |m| && m[..end] == head + Codes(cs[..k + 1])
    ensures var code := Code(cs[k]);
            && 2 <= |code| <= end
            && (m[end - 2] == '0' <==> |code| == 3) && (m[end - 2] != '0' <==> |code| == 2)
            && m[end - |code|..end] == code
            && m[..end - |code|] == head + Codes(cs[..k])
  {
    hide Code, Codes;
    CodesAt(cs, k);
    CodeShape(cs[k]);
    EndOf(m, end, head + Codes(cs[..k]), Code(cs[k]));
    assert head + Codes(cs[..k + 1]) == (head + Codes(cs[..k])) + Code(cs[k]);
  }

  lemma EndOf(m: string, end: nat, before: string, last: string)
    requires end <= |m| && m[..end] == before + last
    ensures |before| + |last| == end && m[end - |last|..end] == last && m[..end - |last|] == before
    ensures |last| >= 2 ==> m[end - 2] == last[|last| - 2]
  {
    assert m[end - |last|..end] == m[..end][end - |last|..];
    assert m[..end - |last|] == m[..end][..end - |last|];
    if |last| >= 2 {
      assert m[end - 2] == m[..end][end - 2];
    }
  }

  lemma TakenText(w: Wire, m: string)
    requires w.WTaken? && Text(w) == m
    ensures |m| > 0 && m[|m| - 1..] == [SideChar(w.side)]
    ensures m[..|m| - 1] == "TAKEN" + NoText(w.no) + Codes(w.cards)
  {
    hide NoText, Codes, SideChar;
  }

  /** Reads TAKEN backward from the side to the trick number. */
  method ReadTaken(m: string, ghost w: Wire) returns (res: seq<Field>)
    requires w.WTaken? && Valid(w) && Text(w) == m
    ensures res == Fields(w)
  {
    hide NoText, Code, Codes, SideChar, Text, Reversed, CardFields;
    ghost var cs, head := w.cards, "TAKEN" + NoText(w.no);
    TakenText(w, m);
    res := [("side", m[|m| - 1..])];
    var itr: int := |m| - 2;
    assert cs[..4] == cs;
    OneReversed(res[0]);
    NoCards(cs);
    for j := 0 to 4
      invariant -1 <= itr < |m| && m[..itr + 1] == head + Codes(cs[..4 - j])
      invariant Reversed(res) == CardFields(cs[4 - j..]) + [("side", [SideChar(w.side)])]
    {
      ghost var k, before := 3 - j, res;
      CardBefore(m, itr + 1, head, cs, k);
      if m[itr - 1] == '0' {
        res := res + [("card", m[itr - 2..itr + 1])];
        itr := itr - 1;
      } else {
        res := res + [("card", m[itr - 1..itr + 1])];
      }
      itr := itr - 2;
      ReversedSnoc(before, ("card", Code(cs[k])));
      CardFieldsCons(cs, k);
    }
    assert cs[..0] == [] && cs[0..] == cs;
    assert m[5..itr + 1] == m[..itr + 1][5..] == NoText(w.no);
    ReversedSnoc(res, ("rn", NoText(w.no)));
    res := res + [("rn", m[5..itr + 1])];
    ReversedSnoc(res, ("type", "TAKEN"));
    res := res + [("type", "TAKEN")];
    res := Reversed(res);
  }

  lemma OneReversed(f: Field)
    ensures Reversed([f]) == [f]
  {
  }

  lemma NoCards(cs: seq<Card>)
    ensures Codes(cs[..0]) == "" && CardFields(cs[|cs|..]) == []
  {
  }

  lemma ReversedSnoc(fs: seq<Field>, f: Field)
    ensures Reversed(fs + [f]) == [f] + Reversed(fs)
  {
    assert (fs + [f])[..|fs|] == fs;
  }

  lemma {:induction false} CardFieldsAppend(a: seq<Card>, b: seq<Card>)
    ensures CardFields(a + b) == CardFields(a) + CardFields(b)
  {
    hide Code;
    if b == [] {
      assert a + b == a;
    } else {
      assert (a + b)[..|a + b| - 1] == a + b[..|b| - 1];
      CardFieldsAppend(a, b[..|b| - 1]);
    }
  }

  lemma CardFieldsCons(cs: seq<Card>, k: nat)
    requires k < |cs|
    ensures CardFields(cs[k..]) == [("card", Code(cs[k]))] + CardFields(cs[k + 1..])
  {
    hide Code;
    assert cs[k..] == [cs[k]] + cs[k + 1..];
    CardFieldsAppend([cs[k]], cs[k + 1..]);
    assert [cs[k]][..0] == [];
  }

  /** Where the number of an entry begins and ends. */
  lemma NumberAt(m: string, at: nat, es: seq<(Side, nat)>, j: nat)
    requires j < |es| && at <= |m| && m[at..] == Entries(es[j..])
    ensures var num := Dec(es[j].1);
            && at + 1 + |num| <= |m| && |num| > 0
            && m[at..at + 1] == [SideChar(es[j].0)]
            && m[at + 1..at + 1 + |num|] == num
            && (forall i :: at + 1 <= i < at + 1 + |num| ==> '0' <= m[i] <= '9')
            && (at + 1 + |num| < |m| ==> !('0' <= m[at + 1 + |num|] <= '9'))
            && m[at + 1 + |num|..] == Entries(es[j + 1..])
  {
    hide Dec, SideChar, Entries;
    var num, rest := Dec(es[j].1), Entries(es[j + 1..]);
    EntriesAt(es, j);
    EntriesStart(es[j + 1..]);
    assert m[at..] == ([SideChar(es[j].0)] + num) + rest;
    assert m[at..at + 1] == m[at..][..1] == [SideChar(es[j].0)];
    assert m[at + 1..at + 1 + |num|] == m[at..][1..1 + |num|] == num;
    assert m[at + 1 + |num|..] == m[at..][1 + |num|..] == rest;
    forall i | at + 1 <= i < at + 1 + |num| ensures '0' <= m[i] <= '9' {
      assert m[i] == m[at + 1..at + 1 + |num|][i - at - 1] == num[i - at - 1];
      DigitRange(m[i]);
    }
    if at + 1 + |num| < |m| {
      assert m[at + 1 + |num|] == m[at + 1 + |num|..][0] == rest[0];
      DigitRange(rest[0]);
    }
  }

  method ReadScores(m: string, kind: string, ghost es: seq<(Side, nat)>) returns (res: seq<Field>)
    requires |kind| == 5 && |es| == 4 && m == kind + Entries(es)
    ensures res == [("type", kind)] + EntryFields(es)
  {
    hide Dec, SideChar, Entries, EntryFields;
    res := [("type", kind)];
    var itr := 5;
    assert es[0..] == es && m[5..] == Entries(es);
    NoEntries(es);
    for j := 0 to 4
      invariant 5 <= itr <= |m| && m[itr..] == Entries(es[j..])
      invariant res == [("type", kind)] + EntryFields(es[..j])
    {
      NumberAt(m, itr, es, j);
      EntriesAt(es, j);
      ghost var end := itr + 1 + |Dec(es[j].1)|;
      res := res + [("side", m[itr..itr + 1])];
      itr := itr + 1;
      var start := itr;
      while itr + 1 < |m| && '0' <= m[itr + 1] <= '9'
        invariant start <= itr < end
      {
        itr := itr + 1;
      }
      assert itr + 1 == end;
      res := res + [("score", m[start..itr + 1])];
      itr := itr + 1;
    }
    assert es[..4] == es;
  }

  lemma NoEntries(es: seq<(Side, nat)>)
    ensures EntryFields(es[..0]) == []
  {
  }

  // ---------------------------------------------------------------- fields back to the text

  /** The values of the fields, one after the other. */
  function Values(fs: seq<Field>): string {
    if fs == [] then "" else Values(fs[..|fs| - 1]) + fs[|fs| - 1].1
  }

  lemma ValuesSnoc(fs: seq<Field>, f: Field)
    ensures Values(fs + [f]) == Values(fs) + f.1
  {
    assert (fs + [f])[..|fs|] == fs;
  }

  lemma {:induction false} ValuesAppend(a: seq<Field>, b: seq<Field>)
    ensures Values(a + b) == Values(a) + Values(b)
  {
    if b == [] {
      assert a + b == a;
    } else {
      assert (a + b)[..|a + b| - 1] == a + b[..|b| - 1];
      ValuesAppend(a, b[..|b| - 1]);
    }
  }

  lemma {:induction false} CardValues(cs: seq<Card>)
    ensures Values(CardFields(cs)) == Codes(cs)
  {
    hide Code;
    if cs != [] {
      CardValues(cs[..|cs| - 1]);
      ValuesSnoc(CardFields(cs[..|cs| - 1]), ("card", Code(cs[|cs| - 1])));
    }
  }

  lemma {:induction false} SideValues(ss: seq<Side>)
    ensures Values(SideFields(ss)) == SideTexts(ss)
  {
    hide SideChar;
    if ss != [] {
      SideValues(ss[..|ss| - 1]);
      ValuesSnoc(SideFields(ss[..|ss| - 1]), ("side", [SideChar(ss[|ss| - 1])]));
    }
  }

  lemma {:induction false} EntryValues(es: seq<(Side, nat)>)
    ensures Values(EntryFields(es)) == Entries(es)
  {
    hide SideChar, Dec;
    if es != [] {
      var e, init := es[|es| - 1], EntryFields(es[..|es| - 1]);
      var side: Field, score: Field := ("side", [SideChar(e.0)]), ("score", Dec(e.1));
      EntryValues(es[..|es| - 1]);
      ValuesSnoc(init, side);
      ValuesSnoc(init + [side], score);
      assert init + [side] + [score] == EntryFields(es);
    }
  }

  lemma OneValue(f: Field)
    ensures Values([f]) == f.1 && Values([]) == ""
  {
    assert [f][..0] == [];
  }

  /** The keyword and the values of the parsed fields, in order, are the text that was parsed. */
  lemma Reassembled(w: Wire)
    ensures KEYWORDS[Kind(w)] + Values(Fields(w)[1..]) == Text(w)
  {
    hide Text, Body, Values, CardFields, SideFields, EntryFields, Codes, SideTexts, Entries, Dec, NoText, SideChar,
         Code, ModeNo;
    TextIsKeywordAndBody(w);
    ValuesAreBody(w);
  }

  lemma ValuesAreBody(w: Wire)
    ensures Values(Fields(w)[1..]) == Body(w)
  {
    hide Values, CardFields, SideFields, EntryFields, Codes, SideTexts, Entries, Dec, NoText, SideChar, Code, ModeNo;
    var fs := Fields(w)[1..];
    match w {
      case WIam(side) =>
        OneValue(fs[0]);
        assert fs == [fs[0]];
      case WBusy(sides) =>
        SideValues(sides);
        assert fs == SideFields(sides);
      case WDeal(mode, side, cards) =>
        OneValue(fs[0]);
        ValuesSnoc([fs[0]], fs[1]);
        ValuesAppend([fs[0]] + [fs[1]], CardFields(cards));
        CardValues(cards);
        assert fs == [fs[0]] + [fs[1]] + CardFields(cards);
        Regroup(Dec(ModeNo(mode)), [SideChar(side)], Codes(cards), "");
      case WTrick(no, cards) =>
        OneValue(fs[0]);
        ValuesAppend([fs[0]], CardFields(cards));
        CardValues(cards);
        assert fs == [fs[0]] + CardFields(cards);
      case WMove(no, card) =>
        OneValue(fs[0]);
        ValuesSnoc([fs[0]], fs[1]);
        assert fs == [fs[0]] + [fs[1]];
      case WWrong(no) =>
        OneValue(fs[0]);
        assert fs == [fs[0]];
      case WTaken(no, cards, side) =>
        var last := fs[|fs| - 1];
        OneValue(fs[0]);
        ValuesAppend([fs[0]], CardFields(cards));
        CardValues(cards);
        ValuesSnoc([fs[0]] + CardFields(cards), last);
        assert fs == [fs[0]] + CardFields(cards) + [last];
        Regroup(NoText(no), Codes(cards), [SideChar(side)], "");
      case WScore(es) =>
        EntryValues(es);
        assert fs == EntryFields(es);
      case WTotal(es) =>
        EntryValues(es);
        assert fs == EntryFields(es);
    }
  }

  // ---------------------------------------------------------------- the parser

  ghost predicate Reads(w: Wire, m: string, serverSide: bool) {
    Valid(w) && ForServer(w) == serverSide && Text(w) == m
  }

  /** The switch over the pattern that has matched. */
  method Decode(i: nat, m: string, ghost w: Wire) returns (res: seq<Field>)
    requires Valid(w) && Kind(w) == i && Text(w) == m
    ensures res == Fields(w)
  {
    hide Valid, SideTexts, Codes, Entries, NoText, Dec, SideFields, CardFields, EntryFields, Code, SideChar;
    match i {
      case 0 =>
        assert m[3..4] == [SideChar(w.side)];
        res := [("type", "IAM"), ("side", m[3..4])];
      case 1 => res := ReadBusy(m, w.sides);
      case 2 => res := ReadDeal(m, w);
      case 3 => res := ReadTrick(m, w);
      case 4 => res := ReadMove(m, w);
      case 5 =>
        assert m[5..] == NoText(w.no);
        res := [("type", "WRONG"), ("rn", m[5..])];
      case 6 => res := ReadTaken(m, w);
      case 7 => ScoresValid(w); res := ReadScores(m, "SCORE", w.entries);
      case _ => ScoresValid(w); res := ReadScores(m, "TOTAL", w.entries);
    }
  }

  lemma ScoresValid(w: Wire)
    requires Valid(w)
    ensures w.WScore? || w.WTotal? ==> |w.entries| == 4
  {
  }

  /** Parsing any text the printers can produce gives back its fields; every other text is refused. */
  method ParseNetMsg(m: string, serverSide: bool) returns (res: seq<Field>)
    ensures forall w :: Reads(w, m, serverSide) ==> res == Fields(w)
    ensures res == [] <==> forall w :: !Reads(w, m, serverSide)
  {
    hide Matches, Text, Valid, Fields;
    res := [];
    for i := 0 to 9
      invariant forall w :: Reads(w, m, serverSide) ==> Kind(w) >= i
    {
      var skip := if serverSide then i != 0 && i != 4 else i == 0 || i == 4;
      if !skip && Matches(PATTERNS[i], m) {
        ghost var w := MatchesIsText(i, m);
        res := Decode(i, m, w);
        FieldsNotEmpty(w);
        forall v | Reads(v, m, serverSide) ensures v == w {
          Unambiguous(v, w);
        }
        assert Reads(w, m, serverSide);
        return;
      }
      forall w | Reads(w, m, serverSide) ensures Kind(w) != i {
        TextMatches(w);
      }
    }
  }

  lemma FieldsNotEmpty(w: Wire)
    ensures Fields(w) != [] && Fields(w)[0].0 == "type"
  {
  }
}
