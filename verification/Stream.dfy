/** Messages as they travel: each text is followed by the separator. */
module Stream {
  import opened Cards
  import opened Jobs
  import opened Wire
  import opened Grammar
  import opened Parser
  import opened Printer

  /** The bytes of a sequence of messages. */
  function Join(texts: seq<string>): string {
    if texts == [] then "" else texts[0] + SEPARATOR + Join(texts[1..])
  }

  lemma {:induction false} JoinAppend(a: seq<string>, b: seq<string>)
    ensures Join(a + b) == Join(a) + Join(b)
  {
    if a == [] {
      assert a + b == b;
    } else {
      assert (a + b)[1..] == a[1..] + b;
      JoinAppend(a[1..], b);
      Regroup(a[0], SEPARATOR, Join(a[1..]), Join(b));
      assert Join(a + b) == a[0] + SEPARATOR + (Join(a[1..]) + Join(b));
    }
  }

  lemma JoinOne(t: string)
    ensures Join([t]) == t + SEPARATOR
  {
    assert [t][1..] == [];
  }

  lemma JoinSnoc(a: seq<string>, t: string)
    ensures Join(a + [t]) == Join(a) + t + SEPARATOR
  {
    JoinAppend(a, [t]);
    JoinOne(t);
  }

  // ---------------------------------------------------------------- message texts contain no line breaks

  predicate Plain(s: string) {
    forall i :: 0 <= i < |s| ==> s[i] != '\r' && s[i] != '\n'
  }

  lemma PlainConcat(a: string, b: string)
    requires Plain(a) && Plain(b)
    ensures Plain(a + b)
  {
  }

  lemma DecIsPlain(n: nat)
    ensures Plain(Dec(n))
  {
    forall i | 0 <= i < |Dec(n)| ensures Dec(n)[i] != '\r' && Dec(n)[i] != '\n' {
      DigitRange(Dec(n)[i]);
    }
  }

  lemma CodeIsPlain(c: Card)
    ensures Plain(Code(c))
  {
    hide Dec;
    if c.rank <= 10 {
      DecIsPlain(c.rank);
    }
    PlainConcat(ValueText(c.rank), [ColorChar(c.color)]);
  }

  lemma {:induction false} CodesArePlain(cs: seq<Card>)
    ensures Plain(Codes(cs))
  {
    hide Code;
    if cs != [] {
      CodesArePlain(cs[..|cs| - 1]);
      CodeIsPlain(cs[|cs| - 1]);
      PlainConcat(Codes(cs[..|cs| - 1]), Code(cs[|cs| - 1]));
    }
  }

  lemma {:induction false} SidesArePlain(ss: seq<Side>)
    ensures Plain(SideTexts(ss))
  {
    if ss != [] {
      SidesArePlain(ss[..|ss| - 1]);
    }
  }

  lemma {:induction false} EntriesArePlain(es: seq<(Side, nat)>)
    ensures Plain(Entries(es))
  {
    hide Dec;
    if es != [] {
      var e := es[|es| - 1];
      EntriesArePlain(es[..|es| - 1]);
      DecIsPlain(e.1);
      PlainConcat([SideChar(e.0)], Dec(e.1));
      PlainConcat(Entries(es[..|es| - 1]), EntryText(e));
    }
  }

  lemma NoTextIsPlain(n: int)
    requires n >= 0
    ensures Plain(NoText(n))
  {
    DecIsPlain(n);
  }

  lemma TextIsPlain(w: Wire)
    requires Valid(w)
    ensures Plain(Text(w))
  {
    hide Plain, Dec, NoText, Codes, SideTexts, Entries, SideChar, ModeNo;
    Letters(w);
    match w {
      case WIam(side) =>
        PlainConcat("IAM", [SideChar(side)]);
      case WBusy(sides) =>
        SidesArePlain(sides);
        PlainConcat("BUSY", SideTexts(sides));
      case WDeal(mode, side, cards) =>
        DecIsPlain(ModeNo(mode));
        CodesArePlain(cards);
        PlainConcat("DEAL", Dec(ModeNo(mode)));
        PlainConcat("DEAL" + Dec(ModeNo(mode)), [SideChar(side)]);
        PlainConcat("DEAL" + Dec(ModeNo(mode)) + [SideChar(side)], Codes(cards));
      case WTrick(no, cards) =>
        NoTextIsPlain(no);
        CodesArePlain(cards);
        PlainConcat("TRICK", NoText(no));
        PlainConcat("TRICK" + NoText(no), Codes(cards));
      case WMove(no, card) =>
        NoTextIsPlain(no);
        CodesArePlain([card]);
        PlainConcat("TRICK", NoText(no));
        PlainConcat("TRICK" + NoText(no), Codes([card]));
      case WWrong(no) =>
        NoTextIsPlain(no);
        PlainConcat("WRONG", NoText(no));
      case WTaken(no, cards, side) =>
        NoTextIsPlain(no);
        CodesArePlain(cards);
        PlainConcat("TAKEN", NoText(no));
        PlainConcat("TAKEN" + NoText(no), Codes(cards));
        PlainConcat("TAKEN" + NoText(no) + Codes(cards), [SideChar(side)]);
      case WScore(es) =>
        EntriesArePlain(es);
        PlainConcat("SCORE", Entries(es));
      case WTotal(es) =>
        EntriesArePlain(es);
        PlainConcat("TOTAL", Entries(es));
    }
  }

  lemma Letters(w: Wire)
    ensures Plain("IAM") && Plain("BUSY") && Plain("DEAL") && Plain("TRICK") && Plain("WRONG") && Plain("TAKEN")
            && Plain("SCORE")
            && Plain("TOTAL")
    ensures forall s :: Plain([SideChar(s)])
  {
  }

  // ---------------------------------------------------------------- a stream of messages

  function Texts(ws: seq<Wire>): seq<string> {
    if ws == [] then [] else [Text(ws[0])] + Texts(ws[1..])
  }

  function Meanings(ws: seq<Wire>): seq<Job> {
    if ws == [] then [] else [Meaning(ws[0])] + Meanings(ws[1..])
  }

  /** Messages that a server may send. */
  ghost predicate ForClients(ws: seq<Wire>) {
    forall w :: w in ws ==> Valid(w) && !ForServer(w)
  }

  /** Each message with an order in which its unordered container is visited. */
  ghost predicate Visits(mail: seq<Job>, orders: seq<seq<Side>>) {
    |orders| == |mail| && forall i :: 0 <= i < |mail| ==> ValidToClient(mail[i]) && Lists(orders[i], Keys(mail[i]))
  }

  lemma VisitsRest(mail: seq<Job>, orders: seq<seq<Side>>, k: nat)
    requires Visits(mail, orders) && k <= |mail|
    ensures Visits(mail[k..], orders[k..])
  {
    hide ValidToClient, Lists, Keys;
  }

  /** The fields of each message. */
  ghost function Wires(mail: seq<Job>, orders: seq<seq<Side>>): seq<Wire>
    requires Visits(mail, orders)
    decreases |mail|
  {
    if mail == [] then [] else
      VisitsRest(mail, orders, 1);
      [ToWire(mail[0], orders[0], false)] + Wires(mail[1..], orders[1..])
  }

  lemma {:induction false} WiresMean(mail: seq<Job>, orders: seq<seq<Side>>)
    requires Visits(mail, orders)
    ensures ForClients(Wires(mail, orders)) && Meanings(Wires(mail, orders)) == mail
    decreases |mail|
  {
    hide ToWire, Meaning, Lists, Valid, ForServer, Keys, ValidToClient, ForClients, Meanings, Visits;
    NothingMeans();
    if mail != [] {
      VisitsRest(mail, orders, 1);
      FirstVisit(mail, orders);
      var w, ws := ToWire(mail[0], orders[0], false), Wires(mail[1..], orders[1..]);
      WireMeans(mail[0], orders[0], false);
      WiresMean(mail[1..], orders[1..]);
      OneMoreMeans(w, ws);
      assert mail == [mail[0]] + mail[1..];
    }
  }

  lemma NothingMeans()
    ensures ForClients([]) && Meanings([]) == []
  {
  }

  lemma FirstVisit(mail: seq<Job>, orders: seq<seq<Side>>)
    requires Visits(mail, orders) && mail != []
    ensures |orders| == |mail| && ValidToClient(mail[0]) && Lists(orders[0], Keys(mail[0]))
  {
    hide ValidToClient, Lists, Keys;
  }

  lemma OneMoreMeans(w: Wire, ws: seq<Wire>)
    requires Valid(w) && !ForServer(w) && ForClients(ws)
    ensures ForClients([w] + ws) && Meanings([w] + ws) == [Meaning(w)] + Meanings(ws)
  {
    hide Valid, ForServer, Meaning;
    assert ([w] + ws)[1..] == ws;
  }

  /** The bytes a worker sends for its jobs: the texts of just these messages, in their order. */
  method PrintMail(mail: seq<Job>, orders: seq<seq<Side>>) returns (bytes: string)
    requires Visits(mail, orders)
    ensures bytes == Join(Texts(Wires(mail, orders)))
  {
    hide Text, ToWire, Lists, Keys, ValidToClient, Join;
    bytes := "";
    assert mail[0..] == mail && orders[0..] == orders;
    for i := 0 to |mail|
      invariant Visits(mail[i..], orders[i..])
      invariant bytes + Join(Texts(Wires(mail[i..], orders[i..]))) == Join(Texts(Wires(mail, orders)))
    {
      VisitsRest(mail, orders, i + 1);
      var text := GenMsg(mail[i], orders[i], false);
      NextMail(mail, orders, i);
      bytes := bytes + text;
    }
    NoMail(mail, orders);
  }

  lemma NextMail(mail: seq<Job>, orders: seq<seq<Side>>, i: nat)
    requires Visits(mail, orders) && i < |mail| && Visits(mail[i..], orders[i..])
             && Visits(mail[i + 1..], orders[i + 1..])
    ensures ValidToClient(mail[i])
    ensures Join(Texts(Wires(mail[i..], orders[i..])))
         == Text(ToWire(mail[i], orders[i], false)) + SEPARATOR + Join(Texts(Wires(mail[i + 1..], orders[i + 1..])))
  {
    hide Text, ToWire, Lists, Keys, ValidToClient;
    var ws := Wires(mail[i..], orders[i..]);
    assert mail[i..][1..] == mail[i + 1..] && orders[i..][1..] == orders[i + 1..];
    assert ws[1..] == Wires(mail[i + 1..], orders[i + 1..]);
    StreamParts(ws);
  }

  lemma NoMail(mail: seq<Job>, orders: seq<seq<Side>>)
    requires Visits(mail[|mail|..], orders[|orders|..])
    ensures Join(Texts(Wires(mail[|mail|..], orders[|orders|..]))) == ""
  {
  }

  /** A stream that is read up to its first line break has been read up to the end of its first message. */
  lemma FirstBreak(head: string, more: string, ws: seq<Wire>, rest: string)
    requires head != "" && head[|head| - 1] == '\n' && '\n' !in head[..|head| - 1] && '\n' !in rest
    requires ForClients(ws)
    requires head + more == Join(Texts(ws)) + rest
    ensures ws != [] && head == Text(ws[0]) + SEPARATOR && more == Join(Texts(ws[1..])) + rest
  {
    hide Text, Valid, Join, Texts;
    var s := head + more;
    assert s[|head| - 1] == '\n';
    StreamParts(ws);
    if ws != [] {
      var line := Text(ws[0]) + SEPARATOR;
      var tail := Join(Texts(ws[1..])) + rest;
      TextIsPlain(ws[0]);
      assert s == line + tail;
      BreakAt(head, more, line, tail);
    }
  }

  lemma StreamParts(ws: seq<Wire>)
    ensures ws == [] ==> Join(Texts(ws)) == ""
    ensures ws != [] ==> Join(Texts(ws)) == Text(ws[0]) + SEPARATOR + Join(Texts(ws[1..]))
  {
    hide Text;
    if ws != [] {
      assert Texts(ws)[1..] == Texts(ws[1..]);
    }
  }

  lemma BreakAt(a: string, x: string, b: string, y: string)
    requires a + x == b + y
    requires a != "" && a[|a| - 1] == '\n' && '\n' !in a[..|a| - 1]
    requires b != "" && b[|b| - 1] == '\n' && '\n' !in b[..|b| - 1]
    ensures a == b && x == y
  {
    var s := a + x;
    assert forall i :: 0 <= i < |a| - 1 ==> s[i] == a[..|a| - 1][i];
    assert forall i :: 0 <= i < |b| - 1 ==> s[i] == b[..|b| - 1][i];
    assert s[|a| - 1] == '\n' && s[|b| - 1] == '\n';
    assert |a| == |b|;
    assert a == s[..|a|] == b;
    assert x == s[|a|..] == y;
  }
}
