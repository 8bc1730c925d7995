/** From the server's jobs to the bytes on a connection and to the client at its other end. */
module EndToEnd {
  import opened Cards
  import opened Jobs
  import opened Game
  import opened GameInvariant
  import opened Client
  import opened Views
  import opened System
  import opened SystemProof
  import opened AutoClient
  import opened Stream
  import opened Printer
  import opened Wire
  import Framing

  /** In every reachable state the mailbox of a seated worker can be printed, and it breaks off nobody's game. */
  lemma SeatedMail(scn: Scenario, acts: seq<Act>, s: Side)
    requires WellFormed(scn)
    ensures var sys := RunSystem(scn, Begin(scn), acts);
            var ix := sys.srv.activeSides[s];
            ix != -1 ==>
              && ix in sys.srv.mgr.mail && ix in sys.procs
              && (forall i :: 0 <= i < |sys.srv.mgr.mail[ix]| ==> ValidToClient(sys.srv.mgr.mail[ix][i]))
              && !sys.procs[ix].client.terminated
              && !Settled(sys.procs[ix], sys.srv.mgr.mail[ix]).client.broken
  {
    hide RunSystem, ValidToClient, Settled, GameReady, Finished, InStep, Strangers, Asked;
    NeverWrong(scn, acts);
    ClientsAgree(scn, acts);
    var sys := RunSystem(scn, Begin(scn), acts);
    var ix := sys.srv.activeSides[s];
    if ix != -1 {
      if !sys.srv.game.exiting {
        TogetherIsReady(scn, sys);
        ReadyInRange(scn, sys.srv.game);
        InStepIsSane(scn, sys.srv.game, s, sys.procs[ix], sys.srv.mgr.mail[ix]);
      }
      if sys.procs[ix].client.terminated {
        TerminatedStays(sys.procs[ix], sys.srv.mgr.mail[ix]);
      }
    }
  }

  lemma InStepIsSane(scn: Scenario, g: Game, s: Side, p: Proc, box: seq<Job>)
    requires g.roundNumber < |scn| && SeatView(scn, g, s, p, box)
    ensures !Settled(p, box).client.broken && !Settled(p, box).client.terminated
  {
    hide HasPlayed, Pick, Rm, RmTaken;
  }

  /** The bytes cut after the given numbers of bytes. */
  function Slices(bytes: string, cuts: seq<nat>): seq<string>
    decreases |cuts|
  {
    if cuts == [] || cuts[0] > |bytes| then [bytes]
    else [bytes[..cuts[0]]] + Slices(bytes[cuts[0]..], cuts[1..])
  }

  lemma {:induction false} SlicesConcat(bytes: string, cuts: seq<nat>)
    ensures Concat(Slices(bytes, cuts)) == bytes
    decreases |cuts|
  {
    if cuts == [] || cuts[0] > |bytes| {
      assert [bytes][1..] == [];
    } else {
      SlicesConcat(bytes[cuts[0]..], cuts[1..]);
      assert Slices(bytes, cuts)[1..] == Slices(bytes[cuts[0]..], cuts[1..]);
      assert bytes == bytes[..cuts[0]] + bytes[cuts[0]..];
    }
  }

  /** What the server has read already makes no difference to the rest. */
  lemma {:induction false} AlreadyRead(c: ClientState, read: seq<Job>, out: seq<Job>, mail: seq<Job>)
    ensures var q := Settled(Proc(c, out), mail); Settled(Proc(c, read + out), mail) == Proc(q.client, read + q.outbox)
  {
    hide Recv;
    if mail != [] {
      var last := mail[|mail| - 1];
      AlreadyRead(c, read, out, mail[..|mail| - 1]);
      var q := Settled(Proc(c, out), mail[..|mail| - 1]);
      assert read + q.outbox + Recv(q.client, last).1 == read + (q.outbox + Recv(q.client, last).1);
    }
  }

  /**
   * In every reachable state: the jobs in the mailbox of a seated worker are printed, in whatever order unordered
   * tables are visited; the bytes reach the client at the other end in pieces cut anywhere; and the client ends up
   * where reading the jobs one by one leads, which is in step with the server. read is what the server has already
   * read of the client's messages.
   */
  method Deliver(ghost scn: Scenario, ghost acts: seq<Act>, ghost s: Side, mail: seq<Job>, orders: seq<seq<Side>>,
                 cuts: seq<nat>, client: AutoClient, ghost read: seq<Job>)
    returns (bytes: string)
    requires WellFormed(scn)
    requires var sys := RunSystem(scn, Begin(scn), acts);
             var ix := sys.srv.activeSides[s];
             ix != -1 && ix in sys.srv.mgr.mail && ix in sys.procs && mail == sys.srv.mgr.mail[ix]
             && client.State() == sys.procs[ix].client && client.replies == read + sys.procs[ix].outbox
    requires |orders| == |mail| && forall i :: 0 <= i < |mail| ==> Lists(orders[i], Keys(mail[i]))
    requires client.Valid() && client.nextMsg == ""
    modifies client, client.player, client.player.strategy
    ensures Visits(mail, orders) && bytes == Stream.Join(Texts(Wires(mail, orders)))
            && Meanings(Wires(mail, orders)) == mail
    ensures var sys := RunSystem(scn, Begin(scn), acts);
            var q := Settled(sys.procs[sys.srv.activeSides[s]], mail);
            && client.Valid() && client.State() == q.client && client.replies == read + q.outbox
            && (!sys.srv.game.exiting && sys.srv.game.lastDeal != map[] ==>
                  sys.srv.game.roundNumber < |scn| && InStep(scn, sys.srv.game, s, q))
            && (sys.srv.game.exiting ==> Through(q))
  {
    hide RunSystem, ValidToClient, Settled, Lists, Keys, Wires, Stream.Join, Texts, Meanings, Slices, Concat, Over,
         GameReady, Strangers, Asked, InStep, Recv, Through;
    SeatedMail(scn, acts, s);
    ClientsAgree(scn, acts);
    ghost var sys := RunSystem(scn, Begin(scn), acts);
    ghost var p := sys.procs[sys.srv.activeSides[s]];
    AlreadyRead(p.client, read, p.outbox, mail);
    WiresMean(mail, orders);
    bytes := PrintMail(mail, orders);
    SlicesConcat(bytes, cuts);
    client.Listen(Slices(bytes, cuts), Wires(mail, orders));
    if sys.srv.game.exiting {
      SeenToTheEnd(scn, sys, s);
    } else {
      ReadyInRange(scn, sys.srv.game) by { TogetherIsReady(scn, sys); }
    }
  }

  lemma SeenToTheEnd(scn: Scenario, sys: System, s: Side)
    requires Over(scn, sys) && sys.srv.activeSides[s] != -1
    ensures var ix := sys.srv.activeSides[s];
            && ix in sys.srv.mgr.mail && ix in sys.procs
            && Through(Settled(sys.procs[ix], sys.srv.mgr.mail[ix]))
  {
    hide Finished, Through, Settled;
  }

  // ---------------------------------------------------------------- from a client to the server

  /** The texts of what a client sends, without separators. */
  ghost function Messages(replies: seq<Job>): (ms: seq<string>)
    requires forall j :: j in replies ==> ValidToServer(j)
    ensures |ms| == |replies|
    ensures forall i :: 0 <= i < |replies| ==> ms[i] == Text(ToWire(replies[i], [], true))
  {
    if replies == [] then [] else [Text(ToWire(replies[0], [], true))] + Messages(replies[1..])
  }

  lemma {:induction false} SentBytes(sent: seq<string>, replies: seq<Job>)
    requires AreTexts(sent, replies)
    ensures forall j :: j in replies ==> ValidToServer(j)
    ensures Concat(sent) == Stream.Join(Messages(replies))
  {
    hide Text, ToWire, ValidToServer;
    if sent != [] {
      assert forall i :: 0 <= i < |sent| - 1 ==> sent[1..][i] == sent[i + 1] && replies[1..][i] == replies[i + 1];
      SentBytes(sent[1..], replies[1..]);
      assert Messages(replies)[1..] == Messages(replies[1..]);
    }
  }

  /** Whatever a client sends fits, is understood, and leads to the callback with just its arguments. */
  lemma ReplyIsUnderstood(j: Job)
    requires ValidToServer(j)
    ensures var m := Text(ToWire(j, [], true));
            && Framing.Clean(m) && Framing.Fits(m) && Framing.Understood(m)
            && forall call :: Framing.CallsFor(m, call) ==> call == Framing.Handle(j)
  {
    hide Text, Meaning, Valid, Framing.Clean;
    var w := ToWire(j, [], true);
    WireMeans(j, [], true);
    TextIsPlain(w);
    PlainIsClean(Text(w));
    ShortText(w);
    assert Parser.Reads(w, Text(w), true);
    forall v | Parser.Reads(v, Text(w), true) ensures v == w {
      Grammar.Unambiguous(v, w);
    }
  }

  lemma PlainIsClean(m: string)
    requires Plain(m)
    ensures Framing.Clean(m)
  {
  }

  lemma ShortText(w: Wire)
    requires Valid(w) && ForServer(w)
    ensures |Text(w)| <= 10
  {
    hide Dec;
    if w.WMove? {
      ShortNumber(w.no);
      ShortCode(w.card);
      assert Codes([w.card]) == Code(w.card) by {
        assert [w.card][..0] == [];
      }
    }
  }

  lemma ShortNumber(no: int)
    requires 1 <= no <= 13
    ensures |NoText(no)| <= 2
  {
    if no >= 10 {
      assert no / 10 == 1 && |Dec(1)| == 1;
    }
  }

  lemma ShortCode(c: Card)
    ensures |Code(c)| <= 3
  {
    hide Dec;
    if c.rank <= 10 {
      ShortNumber(c.rank);
    }
  }

  lemma AllUnderstood(replies: seq<Job>)
    requires forall j :: j in replies ==> ValidToServer(j)
    ensures var ms := Messages(replies);
            Framing.AllClean(ms) && Framing.AllFit(ms) && Framing.Fine(ms, "") && Framing.NoBreak("")
  {
    hide Text, ToWire, ValidToServer, Framing.Clean, Framing.Understood, Framing.CallsFor, Framing.Fits;
    var ms := Messages(replies);
    forall i | 0 <= i < |ms| ensures Framing.Clean(ms[i]) && Framing.Fits(ms[i]) && Framing.Understood(ms[i]) {
      assert replies[i] in replies;
      ReplyIsUnderstood(replies[i]);
    }
  }

  /**
   * What a client has sent reaches the server's callbacks: however the bytes are cut and whatever is refused, the
   * handler makes the calls that the client's messages mean, in order, each accepted once, and all of them once it is
   * let. It never gives the client up.
   */
  method Answer(client: AutoClient, handler: Framing.IOWorkerHandler, arrivals: seq<(string, bool)>, extra: nat)
    returns (handled: seq<Framing.Call>)
    requires client.Valid() && Framing.Bytes(arrivals) == Concat(client.sent)
    requires handler.Valid() && handler.ending == Framing.Open && !handler.wantToQuit
    requires handler.finished == [] && handler.Unhandled() == ""
    modifies handler
    ensures handler.Valid() && !handler.wantToQuit && !handler.peerCorrupted
    ensures |handled| <= |client.replies|
    ensures forall i :: 0 <= i < |handled| ==> handled[i] == Framing.Handle(client.replies[i])
    ensures extra >= |client.replies| ==> |handled| == |client.replies|
  {
    hide Text, ToWire, ValidToServer, AreTexts, Framing.Fine, Framing.AllFit, Framing.AllClean, Framing.CallsFor,
         Framing.Reach, Concat, Stream.Join, Framing.Bytes;
    ghost var replies := client.replies;
    SentBytes(client.sent, replies);
    AllUnderstood(replies);
    ghost var ms := Messages(replies);
    assert Stream.Join(ms) + "" == Stream.Join(ms);
    handled := handler.Serve(arrivals, extra, ms, "");
    forall i | 0 <= i < |handled| ensures handled[i] == Framing.Handle(replies[i]) {
      assert replies[i] in replies && handler.finished[i] == ms[i];
      ReplyIsUnderstood(replies[i]);
    }
    Framing.FineReach(ms, "");
  }
}
