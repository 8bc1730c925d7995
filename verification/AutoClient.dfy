/** The client as an object: the byte loop, the message dispatch and the answers (client/client.cpp). */
module AutoClient {
  import opened Cards
  import opened Jobs
  import opened Grammar
  import opened Parser
  import opened Printer
  import opened Reading
  import opened Client
  import opened Player
  import opened Stream
  import opened Wire

  // ---------------------------------------------------------------- fields back to values

  lemma {:induction false} CardFieldAt(cs: seq<Card>, i: nat)
    requires i < |cs|
    ensures |CardFields(cs)| == |cs| && CardFields(cs)[i] == ("card", Code(cs[i]))
  {
    hide Code;
    CardFieldsLength(cs);
    CardFieldsLength(cs[..|cs| - 1]);
    if i < |cs| - 1 {
      CardFieldAt(cs[..|cs| - 1], i);
    }
  }

  lemma {:induction false} CardFieldsLength(cs: seq<Card>)
    ensures |CardFields(cs)| == |cs|
  {
    if cs != [] {
      CardFieldsLength(cs[..|cs| - 1]);
    }
  }

  /** The loops that collect the cards of a message. */
  method CollectCards(fields: seq<Field>, from: nat, to: nat, ghost cs: seq<Card>) returns (cards: seq<Card>)
    requires from <= to <= |fields| && fields[from..to] == CardFields(cs)
    ensures cards == cs
  {
    hide Code, CardFields, CardFromString;
    CardFieldsLength(cs);
    cards := [];
    for i := from to to
      invariant cards == cs[..i - from]
    {
      CardFieldAt(cs, i - from);
      assert fields[i] == fields[from..to][i - from];
      CardTextIsRead(cs[i - from]);
      cards := cards + [CardFromString(fields[i].1).value];
    }
  }

  lemma {:induction false} SideFieldAt(ss: seq<Side>, i: nat)
    requires i < |ss|
    ensures |SideFields(ss)| == |ss| && SideFields(ss)[i] == ("side", [SideChar(ss[i])])
  {
    hide SideChar;
    SideFieldsLength(ss);
    SideFieldsLength(ss[..|ss| - 1]);
    if i < |ss| - 1 {
      SideFieldAt(ss[..|ss| - 1], i);
    }
  }

  lemma {:induction false} SideFieldsLength(ss: seq<Side>)
    ensures |SideFields(ss)| == |ss|
  {
    if ss != [] {
      SideFieldsLength(ss[..|ss| - 1]);
    }
  }

  method CollectSides(fields: seq<Field>, ghost ss: seq<Side>) returns (taken: seq<Side>)
    requires |fields| >= 1 && fields[1..] == SideFields(ss)
    ensures taken == ss
  {
    hide SideChar, SideFields, SideOf;
    SideFieldsLength(ss);
    taken := [];
    for j := 1 to |fields|
      invariant taken == ss[..j - 1]
    {
      SideFieldAt(ss, j - 1);
      assert fields[j] == fields[1..][j - 1];
      SideOfSideChar(ss[j - 1]);
      taken := taken + [SideOf(fields[j].1[0]).value];
    }
  }

  lemma {:induction false} EntryFieldAt(es: seq<(Side, nat)>, i: nat)
    requires i < |es|
    ensures |EntryFields(es)| == 2 * |es|
    ensures EntryFields(es)[2 * i] == ("side", [SideChar(es[i].0)])
            && EntryFields(es)[2 * i + 1] == ("score", Dec(es[i].1))
  {
    hide SideChar, Dec;
    EntryFieldsLength(es);
    EntryFieldsLength(es[..|es| - 1]);
    if i < |es| - 1 {
      EntryFieldAt(es[..|es| - 1], i);
    }
  }

  lemma {:induction false} EntryFieldsLength(es: seq<(Side, nat)>)
    ensures |EntryFields(es)| == 2 * |es|
  {
    hide SideChar, Dec;
    if es != [] {
      EntryFieldsLength(es[..|es| - 1]);
    }
  }

  method CollectScores(fields: seq<Field>, ghost es: seq<(Side, nat)>) returns (res: map<Side, int>)
    requires |fields| == 9 && |es| == 4 && fields[1..] == EntryFields(es)
    ensures res == TableOf(es)
  {
    hide SideChar, SideOf, Dec, Val, EntryFields;
    res := map[];
    for i := 1 to 5
      invariant res == TableOf(es[..i - 1])
    {
      EntryFieldAt(es, i - 1);
      assert fields[2 * i - 1] == fields[1..][2 * (i - 1)] && fields[2 * i] == fields[1..][2 * (i - 1) + 1];
      SideOfSideChar(es[i - 1].0);
      ValOfDec(es[i - 1].1);
      assert es[..i][..i - 1] == es[..i - 1];
      res := res[SideOf(fields[2 * i - 1].1[0]).value := Val(fields[2 * i].1)];
    }
    assert es[..4] == es;
  }

  // ---------------------------------------------------------------- the client

  /** The texts of the messages a client sends. */
  ghost predicate AreTexts(texts: seq<string>, msgs: seq<Job>) {
    && |texts| == |msgs|
    && forall i :: 0 <= i < |msgs| ==>
         ValidToServer(msgs[i]) && texts[i] == Text(ToWire(msgs[i], [], true)) + SEPARATOR
  }

  class AutoClient {
    const side: Side
    const player: PlayerAuto
    var stage: Stage
    var waitingForCard: bool
    var trickNo: int
    var nextMsg: string
    var terminated: bool
    var sent: seq<string>
    ghost var replies: seq<Job>

    ghost predicate Valid()
      reads this
    {
      AreTexts(sent, replies) && 1 <= trickNo <= TRICKS_PER_ROUND && '\n' !in nextMsg
    }

    function State(): ClientState
      reads this, player, player.strategy
    {
      ClientState(stage, waitingForCard, trickNo, player.nextTrick, player.strategy.hand, player.lastCards, terminated,
        false)
    }

    /** The client and what it has sent. */
    ghost function Process(): Proc
      reads this, player, player.strategy
    {
      Proc(State(), replies)
    }

    /** A new client introduces itself. */
    constructor (side: Side)
      ensures this.side == side && nextMsg == "" && Valid() && fresh(player) && fresh(player.strategy)
      ensures Process() == Proc(FRESH, [Intro(side)])
    {
      this.side := side;
      player := new PlayerAuto();
      stage, waitingForCard, trickNo, nextMsg, terminated, sent := Pre, false, 1, "", false, [];
      replies := [];
      new;
      Send(Intro(side));
    }

    method Send(j: Job)
      requires Valid() && ValidToServer(j)
      modifies this`sent, this`replies
      ensures Valid() && replies == old(replies) + [j]
    {
      hide Text, ToWire;
      var msg := GenMsg(j, [], true);
      sent := sent + [msg];
      replies := replies + [j];
    }

    method ChooseCard(c: Card)
      requires Valid()
      modifies this`sent, this`replies, this`waitingForCard
      ensures Valid() && !waitingForCard
      ensures replies == if old(waitingForCard) then old(replies) + [Trick([c], trickNo)] else old(replies)
    {
      hide AreTexts;
      if waitingForCard {
        Send(Trick([c], trickNo));
        waitingForCard := false;
      }
    }

    method OnDeal(cards: seq<Card>)
      requires Valid() && !terminated
      modifies this`stage, player, player.strategy
      ensures Valid() && forall mode, starting :: Process() == RecvP(old(Process()), Deal(mode, starting, cards))
    {
      stage := if stage == Pre then AfterFirstDeal else AfterDeal;
      player.DealMsg(cards);
    }

    method OnTrick(table: seq<Card>, no: int)
      requires Valid() && !terminated && 1 <= no <= TRICKS_PER_ROUND
      requires no < player.nextTrick || player.strategy.hand != []
      modifies this, player, player.strategy
      ensures Valid() && nextMsg == old(nextMsg) && Process() == RecvP(old(Process()), Trick(table, no))
    {
      hide AreTexts, Pick, PickIx;
      stage := AfterTrick;
      waitingForCard := true;
      trickNo := no;
      var chosen := player.TrickMsg(no, table);
      if chosen != [] {
        ChooseCard(chosen[0]);
      }
    }

    method OnTaken(table: seq<Card>, no: int)
      requires Valid() && !terminated && 1 <= no <= TRICKS_PER_ROUND
      modifies this`trickNo, player, player.strategy
      ensures Valid() && forall taker :: Process() == RecvP(old(Process()), Taken(table, taker, no))
    {
      trickNo := no;
      player.TakenMsg(table, no, stage == AfterFirstDeal);
    }

    method OnWrong(no: int)
      requires Valid() && !terminated && 1 <= no <= TRICKS_PER_ROUND
      modifies this`trickNo, this`waitingForCard, player, player.strategy
      ensures Valid() && Process() == RecvP(old(Process()), Wrong(no))
    {
      trickNo := no;
      waitingForCard := true;
      player.WrongMsg(no);
    }

    /** One message: it is parsed, and its fields are read and handed to the player. */
    method OnMessage(msg: string, ghost w: Wire)
      requires Valid() && !terminated && Reads(w, msg, false)
      requires !RecvP(Process(), Meaning(w)).client.broken
      modifies this, player, player.strategy
      ensures Valid() && nextMsg == old(nextMsg) && Process() == RecvP(old(Process()), Meaning(w))
    {
      hide Text, AreTexts, Fields, Pick, PickIx, CardFields, Code, EntryFields, TableOf, SideFields, Dec, NoText,
           CardFromString, Val;
      var msgArray := ParseNetMsg(msg, false);
      TypeField(w);
      var kind := msgArray[0].1;
      if kind == "DEAL" {
        DealIsRead(w);
        var hand := CollectCards(msgArray, 3, 16, w.cards);
        OnDeal(hand);
      } else if kind == "TRICK_S" {
        TrickIsRead(w);
        var no := Val(msgArray[1].1);
        var t := CollectCards(msgArray, 2, |msgArray|, w.cards);
        OnTrick(t, no);
      } else if kind == "TAKEN" {
        TakenIsRead(w);
        var no := Val(msgArray[1].1);
        var t := CollectCards(msgArray, 2, 6, w.cards);
        OnTaken(t, no);
      } else if kind == "SCORE" || kind == "TOTAL" {
        ScoresAreRead(w);
        stage := if kind == "SCORE" then AfterScore else AfterTotal;
        var res := CollectScores(msgArray, w.entries);
      } else if kind == "WRONG" {
        WrongIsRead(w);
        OnWrong(Val(msgArray[1].1));
      } else if kind == "BUSY" {
        BusyIsRead(w);
        var taken := CollectSides(msgArray, w.sides);
        terminated := true;
      }
    }

    /** The bytes that have arrived are cut into messages, wherever the network has cut the stream. */
    method Receive(bytes: string, ghost ws: seq<Wire>, ghost rest: string)
      requires Valid() && !terminated
      requires nextMsg + bytes == Join(Texts(ws)) + rest && '\n' !in rest
      requires ForClients(ws)
      requires !Settled(Process(), Meanings(ws)).client.broken
      modifies this, player, player.strategy
      ensures Valid() && Process() == Settled(old(Process()), Meanings(ws))
      ensures !terminated ==> nextMsg == rest
    {
      hide Text, AreTexts, Meaning, Join, Settled, RecvP, ForClients;
      ghost var k := 0;
      var i := 0;
      assert ws[0..] == ws && bytes[0..] == bytes;
      while i < |bytes| && !terminated
        invariant i <= |bytes| && 0 <= k <= |ws| && Valid()
        invariant !terminated ==> nextMsg + bytes[i..] == Join(Texts(ws[k..])) + rest
        invariant Settled(Process(), Meanings(ws[k..])) == Settled(old(Process()), Meanings(ws))
      {
        var c := bytes[i];
        nextMsg := nextMsg + [c];
        i := i + 1;
        if c == '\n' {
          SomeForClients(ws, k);
          FirstBreak(nextMsg, bytes[i..], ws[k..], rest);
          FirstOfMany(Process(), ws[k..]);
          assert ws[k..][1..] == ws[k + 1..];
          var msg := nextMsg[..|nextMsg| - 2];
          nextMsg := "";
          OnMessage(msg, ws[k]);
          k := k + 1;
        }
      }
      if terminated {
        TerminatedStays(Process(), Meanings(ws[k..]));
      } else {
        BreaksLeft(ws[k..], rest);
        assert nextMsg + bytes[i..] == nextMsg;
        assert ws[k..] == [];
        NothingLeft(Process());
      }
    }

    /** The stream arrives in pieces, cut anywhere; a client that has been turned away reads no further. */
    method Listen(pieces: seq<string>, ghost ws: seq<Wire>)
      requires Valid() && !terminated && nextMsg == "" && ForClients(ws)
      requires Concat(pieces) == Join(Texts(ws)) && !Settled(Process(), Meanings(ws)).client.broken
      modifies this, player, player.strategy
      ensures Valid() && Process() == Settled(old(Process()), Meanings(ws))
    {
      hide Text, AreTexts, Meaning, Join, Settled, RecvP, ForClients, Texts, Concat;
      ghost var k := 0;
      assert ws[0..] == ws && pieces[0..] == pieces && "" + Concat(pieces) == Concat(pieces);
      for i := 0 to |pieces|
        invariant 0 <= k <= |ws| && Valid() && ForClients(ws[k..])
        invariant !terminated ==> nextMsg + Concat(pieces[i..]) == Join(Texts(ws[k..]))
        invariant Settled(Process(), Meanings(ws[k..])) == Settled(old(Process()), Meanings(ws))
      {
        if terminated { break; }
        ghost var left, later := ws[k..], Concat(pieces[i + 1..]);
        ConcatFrom(pieces, i);
        assert nextMsg + (pieces[i] + later) == (nextMsg + pieces[i]) + later;
        ghost var j, rest := CutStream(nextMsg + pieces[i], later, left);
        FirstPart(Process(), left, j);
        Receive(pieces[i], left[..j], rest);
        k := k + j;
        assert ws[k..] == left[j..];
      }
      if terminated {
        TerminatedStays(Process(), Meanings(ws[k..]));
      } else {
        NoPieces(pieces);
        assert nextMsg + "" == nextMsg;
        BreaksLeft(ws[k..], "");
        assert Join(Texts(ws[k..])) + "" == Join(Texts(ws[k..]));
        assert ws[k..] == [];
        NothingLeft(Process());
      }
    }
  }

  function Concat(pieces: seq<string>): string {
    if pieces == [] then "" else pieces[0] + Concat(pieces[1..])
  }

  lemma ConcatFrom(pieces: seq<string>, i: nat)
    requires i < |pieces|
    ensures Concat(pieces[i..]) == pieces[i] + Concat(pieces[i + 1..])
  {
    assert pieces[i..][1..] == pieces[i + 1..];
  }

  lemma NoPieces(pieces: seq<string>)
    ensures Concat(pieces[|pieces|..]) == ""
  {
  }

  /** Wherever a stream is cut, the first part is some whole messages and a beginning without a line break. */
  lemma {:induction false} CutStream(p: string, q: string, ws: seq<Wire>) returns (j: nat, rest: string)
    requires ForClients(ws) && p + q == Join(Texts(ws))
    ensures j <= |ws| && p == Join(Texts(ws[..j])) + rest && '\n' !in rest && rest + q == Join(Texts(ws[j..]))
    ensures ForClients(ws[..j]) && ForClients(ws[j..])
  {
    hide Text, Valid, ForServer, Join, Texts;
    StreamParts(ws);
    StreamParts([]);
    if ws == [] {
      j, rest := 0, "";
    } else {
      var line, more := Text(ws[0]) + SEPARATOR, Join(Texts(ws[1..]));
      if |p| >= |line| {
        var p1 := p[|line|..];
        assert p == line + p1 && p1 + q == more by {
          assert (p + q)[..|line|] == line && (p + q)[|line|..] == more;
        }
        var j1;
        j1, rest := CutStream(p1, q, ws[1..]);
        j := j1 + 1;
        assert ws[..j][1..] == ws[1..][..j1] && ws[j..] == ws[1..][j1..];
        StreamParts(ws[..j]);
        Regroup(Text(ws[0]), SEPARATOR, Join(Texts(ws[..j][1..])), rest);
      } else {
        j, rest := 0, p;
        TextIsPlain(ws[0]);
        assert p == line[..|p|] by { assert p == (p + q)[..|p|]; }
        assert ws[..0] == [] && ws[0..] == ws;
      }
    }
  }

  lemma {:induction false} MeaningsAppend(a: seq<Wire>, b: seq<Wire>)
    ensures Meanings(a + b) == Meanings(a) + Meanings(b)
  {
    hide Meaning;
    if a == [] {
      assert a + b == b;
    } else {
      assert (a + b)[1..] == a[1..] + b;
      MeaningsAppend(a[1..], b);
    }
  }

  /** Reading some messages and then the others is reading them all; whoever is sound in the end was sound before. */
  lemma FirstPart(p: Proc, ws: seq<Wire>, j: nat)
    requires j <= |ws|
    ensures Settled(p, Meanings(ws)) == Settled(Settled(p, Meanings(ws[..j])), Meanings(ws[j..]))
    ensures !Settled(p, Meanings(ws)).client.broken ==> !Settled(p, Meanings(ws[..j])).client.broken
  {
    hide Settled, Meanings;
    assert ws == ws[..j] + ws[j..];
    MeaningsAppend(ws[..j], ws[j..]);
    SettledAppend(p, Meanings(ws[..j]), Meanings(ws[j..]));
    if Settled(p, Meanings(ws[..j])).client.broken {
      BrokenStays(Settled(p, Meanings(ws[..j])), Meanings(ws[j..]));
    }
  }

  lemma SomeForClients(ws: seq<Wire>, k: nat)
    requires ForClients(ws) && k <= |ws|
    ensures ForClients(ws[k..]) && (k < |ws| ==> Reads(ws[k], Text(ws[k]), false))
  {
    hide Text;
  }

  lemma BreaksLeft(ws: seq<Wire>, rest: string)
    ensures ws == [] ==> Join(Texts(ws)) + rest == rest
    ensures ws != [] ==> '\n' in Join(Texts(ws)) + rest
  {
    hide Text;
    if ws != [] {
      var line := Text(ws[0]) + SEPARATOR;
      assert Join(Texts(ws)) + rest == line + (Join(Texts(ws)[1..]) + rest);
      assert (Join(Texts(ws)) + rest)[|line| - 1] == '\n';
    } else {
      assert "" + rest == rest;
    }
  }

  lemma NothingLeft(p: Proc)
    ensures Settled(p, Meanings([])) == p
  {
  }

  lemma {:induction false} TerminatedStays(p: Proc, mail: seq<Job>)
    requires p.client.terminated
    ensures Settled(p, mail) == p
  {
    if mail != [] {
      TerminatedStays(p, mail[..|mail| - 1]);
    }
  }

  lemma {:induction false} BrokenStays(p: Proc, mail: seq<Job>)
    requires p.client.broken
    ensures Settled(p, mail).client.broken
  {
    if mail != [] {
      BrokenStays(p, mail[..|mail| - 1]);
    }
  }

  lemma FirstOfMany(p: Proc, ws: seq<Wire>)
    requires ws != []
    ensures Settled(p, Meanings(ws)) == Settled(RecvP(p, Meaning(ws[0])), Meanings(ws[1..]))
    ensures !Settled(p, Meanings(ws)).client.broken ==> !RecvP(p, Meaning(ws[0])).client.broken
  {
    hide RecvP, Meaning, Settled;
    SettledDeliver(p, Meanings(ws));
    assert Meanings(ws)[1..] == Meanings(ws[1..]);
    if RecvP(p, Meaning(ws[0])).client.broken {
      BrokenStays(RecvP(p, Meaning(ws[0])), Meanings(ws[1..]));
    }
  }

  /** The kind named in the first field is the kind of the message. */
  lemma TypeField(w: Wire)
    ensures Fields(w) != []
    ensures var kind := Fields(w)[0].1;
            && (kind == "DEAL" <==> w.WDeal?) && (kind == "TRICK_S" <==> w.WTrick?) && (kind == "TAKEN" <==> w.WTaken?)
            && (kind == "SCORE" <==> w.WScore?) && (kind == "TOTAL" <==> w.WTotal?) && (kind == "WRONG" <==> w.WWrong?)
            && (kind == "BUSY" <==> w.WBusy?)
  {
    hide CardFields, SideFields, EntryFields, Dec, NoText, Code;
    var kind := Fields(w)[0].1;
    assert |kind| > 1;
    assert kind[0] == "DEAL"[0] || kind[0] == "BUSY"[0] || kind[0] == "IAM"[0] || kind[0] == "TRICK_S"[0]
           || kind[0] == "WRONG"[0]
        || kind[0] == "SCORE"[0];
    assert kind[0] == 'T' ==> kind[1] == "TOTAL"[1] || kind[1] == "TAKEN"[1] || kind[1] == "TRICK_S"[1];
    assert |"TRICK_S"| != |"TRICK_C"| || "TRICK_S"[6] != "TRICK_C"[6];
  }

  lemma DealIsRead(w: Wire)
    requires w.WDeal? && Valid(w)
    ensures |Fields(w)| == 16 && Fields(w)[3..16] == CardFields(w.cards)
  {
    hide CardFields, Code, Dec;
    CardFieldsLength(w.cards);
  }

  lemma TrickIsRead(w: Wire)
    requires w.WTrick? && Valid(w)
    ensures |Fields(w)| >= 2 && Val(Fields(w)[1].1) == w.no && Fields(w)[2..|Fields(w)|] == CardFields(w.cards)
  {
    hide CardFields, Code, NoText, Val;
    ValOfNoText(w.no);
  }

  lemma TakenIsRead(w: Wire)
    requires w.WTaken? && Valid(w)
    ensures |Fields(w)| == 7 && Val(Fields(w)[1].1) == w.no && Fields(w)[2..6] == CardFields(w.cards)
  {
    hide CardFields, Code, NoText, Val;
    CardFieldsLength(w.cards);
    ValOfNoText(w.no);
  }

  lemma ScoresAreRead(w: Wire)
    requires (w.WScore? || w.WTotal?) && Valid(w)
    ensures |Fields(w)| == 9 && |w.entries| == 4 && Fields(w)[1..] == EntryFields(w.entries)
  {
    hide EntryFields, Dec;
    EntryFieldsLength(w.entries);
  }

  lemma WrongIsRead(w: Wire)
    requires w.WWrong? && Valid(w)
    ensures |Fields(w)| == 2 && Val(Fields(w)[1].1) == w.no
  {
    hide NoText, Val;
    ValOfNoText(w.no);
  }

  lemma BusyIsRead(w: Wire)
    requires w.WBusy?
    ensures |Fields(w)| >= 1 && Fields(w)[1..] == SideFields(w.sides)
  {
    hide SideFields;
  }
}
