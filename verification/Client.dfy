/** The automatic client (client/client.cpp, client/player_auto.cpp, client/strategy.cpp). */
module Client {
  import opened Cards
  import opened Rules
  import opened Jobs

  datatype Stage = Pre | AfterFirstDeal | AfterDeal | AfterTrick | AfterScore | AfterTotal

  /** broken stands for the undefined behaviour of choosing from an empty hand. */
  datatype ClientState = ClientState(
    stage: Stage,
    waitingForCard: bool,
    trickNo: int,
    nextTrick: int,
    hand: Hand,
    lastCards: seq<Card>,
    terminated: bool,
    broken: bool)

  const FRESH := ClientState(Pre, false, 1, 0, [], [], false, false)

  // ---------------------------------------------------------------- the strategy

  /** Index of the first card of the colour, or the length of the hand. */
  function FirstOf(hand: Hand, color: Color): (i: nat)
    ensures i <= |hand|
    ensures forall j :: 0 <= j < i ==> hand[j].color != color
    ensures i < |hand| ==> hand[i].color == color
  {
    if hand == [] then 0
    else if hand[0].color == color then 0
    else
      var i := FirstOf(hand[1..], color);
      assert forall j :: 1 <= j < i + 1 ==> hand[j] == hand[1..][j - 1];
      i + 1
  }

  /** Which card the strategy plays. */
  function PickIx(hand: Hand, table: seq<Card>): (i: nat)
    requires hand != []
    ensures i < |hand|
  {
    if table == [] then |hand| - 1
    else
      var i := FirstOf(hand, table[0].color);
      if i < |hand| then i else 0
  }

  function Pick(hand: Hand, table: seq<Card>): Card
    requires hand != []
  {
    hand[PickIx(hand, table)]
  }

  function WithoutIx(hand: Hand, i: nat): Hand
    requires i < |hand|
  {
    hand[..i] + hand[i + 1..]
  }

  /** The strategy's card is always one the rules accept, and the server erases the same card. */
  lemma PickIsLegal(hand: Hand, table: seq<Card>)
    requires hand != []
    ensures LegalMove(hand, Pick(hand, table), table)
    ensures NoDup(hand) ==> WithoutIx(hand, PickIx(hand, table)) == Rm(hand, Pick(hand, table))
  {
    if NoDup(hand) {
      RmAt(hand, PickIx(hand, table));
    }
  }

  // ---------------------------------------------------------------- messages

  /** The client after one message, and what it sends in reply. */
  function Recv(c: ClientState, j: Job): (ClientState, seq<Job>) {
    if c.terminated || c.broken then (c, [])
    else match j
      case Deal(_, _, cards) =>
        (c.(stage := if c.stage == Pre then AfterFirstDeal else AfterDeal, nextTrick := 1, hand := cards), [])
      case Trick(table, no) =>
        var c1 := c.(stage := AfterTrick, waitingForCard := true, trickNo := no);
        if no < c.nextTrick then (c1, [])
        else if c.hand == [] then (c1.(broken := true), [])
        else
          var card := Pick(c.hand, table);
          (c1.(nextTrick := no + 1, hand := WithoutIx(c.hand, PickIx(c.hand, table)),
               lastCards := c.lastCards + [card], waitingForCard := false),
           [Trick([card], no)])
      case Taken(table, _, no) =>
        var c1 := c.(trickNo := no, nextTrick := no + 1);
        if c.stage == AfterFirstDeal then (c1.(hand := RmAll(c.hand, table)), [])
        else if c.lastCards != [] then (c1.(lastCards := c.lastCards[1..]), [])
        else (c1, [])
      case Score(_) => (c.(stage := AfterScore), [])
      case Total(_) => (c.(stage := AfterTotal), [])
      case Wrong(no) =>
        var c1 := c.(trickNo := no, waitingForCard := true, nextTrick := no);
        if c.lastCards != [] then (c1.(hand := c.hand + [c.lastCards[0]], lastCards := c.lastCards[1..]), [])
          else (c1, [])
      case Busy(_) => (c.(terminated := true), [])
      case Intro(_) => (c, [])
  }

  /**
   * A refused card comes back: after TRICK and WRONG the client holds what it held before, owes nothing, and answers
   * the same trick again with a card that the rules accept.
   */
  lemma WrongUndoes(c: ClientState, table: seq<Card>, no: int)
    requires !c.terminated && !c.broken && c.hand != [] && c.lastCards == [] && no >= c.nextTrick
    ensures var (c1, out1) := Recv(c, Trick(table, no));
            var (c2, out2) := Recv(c1, Wrong(no));
            var (c3, out3) := Recv(c2, Trick(table, no));
            && out1 == [Trick([Pick(c.hand, table)], no)] && out2 == []
            && multiset(c2.hand) == multiset(c.hand) && c2.lastCards == [] && c2.nextTrick == no && !c2.broken
            && |out3| == 1 && out3[0].Trick? && out3[0].trickNo == no && |out3[0].table| == 1
            && LegalMove(c2.hand, out3[0].table[0], table)
  {
    hide PickIx, LegalMove;
    var i := PickIx(c.hand, table);
    var h := WithoutIx(c.hand, i) + [c.hand[i]];
    BackInHand(c.hand, i);
    assert [] + [c.hand[i]] == [c.hand[i]];
    PickIsLegal(h, table);
  }

  lemma BackInHand(hand: Hand, i: nat)
    requires i < |hand|
    ensures multiset(WithoutIx(hand, i) + [hand[i]]) == multiset(hand)
  {
    assert hand == hand[..i] + [hand[i]] + hand[i + 1..];
  }

  // ---------------------------------------------------------------- a client and what it has sent

  datatype Proc = Proc(client: ClientState, outbox: seq<Job>)

  function RecvP(p: Proc, j: Job): Proc {
    var (c, out) := Recv(p.client, j);
    Proc(c, p.outbox + out)
  }

  /** The client once every message of the mailbox has reached it. */
  function Settled(p: Proc, mail: seq<Job>): Proc {
    if mail == [] then p else RecvP(Settled(p, mail[..|mail| - 1]), mail[|mail| - 1])
  }

  lemma {:induction false} SettledAppend(p: Proc, a: seq<Job>, b: seq<Job>)
    ensures Settled(p, a + b) == Settled(Settled(p, a), b)
  {
    if b == [] {
      assert a + b == a;
    } else {
      assert (a + b)[..|a + b| - 1] == a + b[..|b| - 1];
      SettledAppend(p, a, b[..|b| - 1]);
    }
  }

  /** Delivering the oldest message changes nothing about the client to be. */
  lemma SettledDeliver(p: Proc, mail: seq<Job>)
    requires mail != []
    ensures Settled(RecvP(p, mail[0]), mail[1..]) == Settled(p, mail)
  {
    assert mail == [mail[0]] + mail[1..];
    SettledAppend(p, [mail[0]], mail[1..]);
    assert Settled(p, [mail[0]]) == RecvP(Settled(p, []), mail[0]) by {
      assert [mail[0]][..0] == [];
    }
  }

  /** What has been sent already comes first, and reading it does not change the client to be. */
  lemma {:induction false} SettledOutbox(p: Proc, mail: seq<Job>)
    ensures var q := Settled(p, mail);
            && p.outbox <= q.outbox
            && (p.outbox != [] ==>
                 Settled(p.(outbox := p.outbox[1..]), mail) == q.(outbox := q.outbox[1..]))
  {
    if mail != [] {
      SettledOutbox(p, mail[..|mail| - 1]);
    }
  }

  /** A client that has been told BUSY is through: whatever comes behind it is not read, and nothing more is sent. */
  lemma {:induction false} BusyEnds(p: Proc, sides: set<Side>, mail: seq<Job>)
    requires !p.client.broken && !p.client.terminated
    ensures Settled(p, [Busy(sides)] + mail) == p.(client := p.client.(terminated := true))
  {
    if mail == [] {
      assert [Busy(sides)] + mail == [Busy(sides)] && [Busy(sides)][..0] == [];
      assert Settled(p, []) == p;
      assert p.outbox + [] == p.outbox;
    } else {
      var before := mail[..|mail| - 1];
      BusyEnds(p, sides, before);
      assert ([Busy(sides)] + mail)[..|mail|] == [Busy(sides)] + before;
      assert p.outbox + [] == p.outbox;
    }
  }

  /** TOTAL has come, and no DEAL, TRICK or SCORE after it. */
  ghost predicate EndsWithTotal(mail: seq<Job>) {
    exists k :: 0 <= k < |mail| && mail[k].Total? && Closing(mail[k + 1..])
  }

  ghost predicate Closing(mail: seq<Job>) {
    forall j :: j in mail ==> !j.Deal? && !j.Trick? && !j.Score?
  }

  lemma ClosingSnoc(mail: seq<Job>, j: Job)
    ensures Closing(mail + [j]) <==> Closing(mail) && Closing([j])
  {
    assert forall x :: x in mail + [j] <==> x in mail || x == j;
  }

  lemma TotalSnoc(mail: seq<Job>, j: Job)
    ensures EndsWithTotal(mail + [j]) <==> j.Total? || (EndsWithTotal(mail) && Closing([j]))
  {
    hide Closing;
    var m1 := mail + [j];
    assert m1[|mail| + 1..] == [] && Closing([]) by { NothingCloses(); }
    forall k | 0 <= k < |mail|
      ensures m1[k] == mail[k] && (Closing(m1[k + 1..]) <==> Closing(mail[k + 1..]) && Closing([j]))
    {
      assert m1[k + 1..] == mail[k + 1..] + [j];
      ClosingSnoc(mail[k + 1..], j);
    }
    if EndsWithTotal(m1) && !j.Total? {
      var k :| 0 <= k < |m1| && m1[k].Total? && Closing(m1[k + 1..]);
      assert k < |mail| && mail[k].Total? && Closing(mail[k + 1..]);
    }
    if j.Total? {
      assert m1[|mail|].Total? && Closing(m1[|mail| + 1..]);
    } else if EndsWithTotal(mail) && Closing([j]) {
      var k :| 0 <= k < |mail| && mail[k].Total? && Closing(mail[k + 1..]);
      assert m1[k].Total? && Closing(m1[k + 1..]);
    }
  }

  lemma NothingCloses()
    ensures Closing([])
  {
  }

  /** The end of a connection is a success to its client if and only if TOTAL has come and no more of a game since. */
  lemma {:induction false} SuccessIsTotal(mail: seq<Job>)
    requires var c := Settled(Proc(FRESH, []), mail).client; !c.terminated && !c.broken
    ensures Settled(Proc(FRESH, []), mail).client.stage == AfterTotal <==> EndsWithTotal(mail)
  {
    hide Recv, Closing, EndsWithTotal;
    if mail != [] {
      var before, j := mail[..|mail| - 1], mail[|mail| - 1];
      StageStep(Settled(Proc(FRESH, []), before).client, j);
      SuccessIsTotal(before);
      TotalSnoc(before, j);
      assert mail == before + [j];
    } else {
      NoTotal();
    }
  }

  lemma NoTotal()
    ensures !EndsWithTotal([])
  {
  }

  lemma StageStep(c: ClientState, j: Job)
    ensures var c1 := Recv(c, j).0;
            !c1.terminated && !c1.broken ==>
              && !c.terminated && !c.broken
              && (c1.stage == AfterTotal <==> j.Total? || (c.stage == AfterTotal && Closing([j])))
  {
    hide Pick, PickIx, RmAll;
    assert j in [j];
  }
}
