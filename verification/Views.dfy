/** How a client that has read all its messages stands towards the server's game. */
module Views {
  import opened Cards
  import opened Rules
  import opened Jobs
  import opened Game
  import opened GameInvariant
  import opened GameRuns
  import opened Client

  ghost predicate HasPlayed(scn: Scenario, g: Game, s: Side)
    requires g.roundNumber < |scn|
  {
    Played(Replay(scn[g.roundNumber], g.takenInRound), g.table, s)
  }

  ghost predicate Sane(c: ClientState) {
    !c.terminated && !c.broken && c.stage != Pre
  }

  /** The client has its hand and waits for its turn. */
  ghost predicate Waiting(g: Game, s: Side, p: Proc) {
    && Sane(p.client) && p.outbox == []
    && p.client.hand == g.hands[s] && p.client.lastCards == [] && p.client.nextTrick == g.trickNo
  }

  /** The client has answered the open trick with a card the server has not seen yet. */
  ghost predicate Answered(g: Game, s: Side, p: Proc) {
    && s == g.nextMove && g.hands[s] != []
    && Sane(p.client) && p.client.stage == AfterTrick
    && var card := Pick(g.hands[s], g.table);
    && p.outbox == [Trick([card], g.trickNo)]
    && p.client.hand == Rm(g.hands[s], card) && p.client.lastCards == [card] && p.client.nextTrick == g.trickNo + 1
  }

  /**
   * The client's card lies on the table. Either the client played it, or it was played through an earlier
   * connection of the seat; then the replayed hand still contains it and the stage still is AfterFirstDeal.
   */
  ghost predicate Done(g: Game, s: Side, p: Proc) {
    && Sane(p.client) && p.outbox == []
    && (|| (p.client.hand == g.hands[s] && |p.client.lastCards| == 1
            && p.client.nextTrick == g.trickNo + 1 && p.client.stage == AfterTrick)
        || (s in g.lastDeal && p.client.hand == RmTaken(g.lastDeal[s], g.takenInRound) && p.client.lastCards == []
            && p.client.nextTrick == g.trickNo && p.client.stage == AfterFirstDeal))
  }

  ghost predicate InStep(scn: Scenario, g: Game, s: Side, p: Proc)
    requires g.roundNumber < |scn|
  {
    if HasPlayed(scn, g, s) then Done(g, s, p) else Waiting(g, s, p) || Answered(g, s, p)
  }

  /** The client has seen the game to its end: a connection that closes now is a success to it. */
  ghost predicate Through(p: Proc) {
    && Sane(p.client) && p.outbox == []
    && p.client.stage == AfterTotal && p.client.hand == [] && p.client.lastCards == []
  }

  // ---------------------------------------------------------------- the server accepts a card

  lemma OthersUnmoved(scn: Scenario, g: Game, card: Card, s: Side, p: Proc)
    requires RoundInv(scn, g) && |g.table| <= 3 && LegalMove(g.hands[g.nextMove], card, g.table)
    requires s != g.nextMove && InStep(scn, g, s, p)
    ensures InStep(scn, Place(g, card), s, p)
  {
    hide RoundInv, Rm, RmTaken, Replay, LegalMove, Pick, Turns, Nth, Next;
    InRange(scn, g);
    TurnStepAt(scn, g, s);
  }

  lemma TurnStepAt(scn: Scenario, g: Game, s: Side)
    requires RoundInv(scn, g) && |g.table| <= 3
    ensures var v := Replay(scn[g.roundNumber], g.takenInRound);
            && (Turns(v.leader, s) < |g.table| + 1 <==> Turns(v.leader, s) < |g.table| || s == g.nextMove)
            && !Played(v, g.table, g.nextMove)
  {
    hide RmAll, LegalMove, TrickLegal, LogLegal, Replay, WellFormed, At;
    var v := Replay(scn[g.roundNumber], g.takenInRound);
    TurnStep(v.leader, |g.table|, s);
    TurnsInvertsNth(v.leader, g.nextMove, |g.table|);
  }

  /** The player of the card: its answer is the move, it is legal, and once read the client is done. */
  lemma MoverIsDone(scn: Scenario, g: Game, p: Proc)
    requires RoundInv(scn, g) && |g.table| <= 3 && InStep(scn, g, g.nextMove, p) && p.outbox != []
    ensures Answered(g, g.nextMove, p)
    ensures var card := Pick(g.hands[g.nextMove], g.table);
            && p.outbox == [Trick([card], g.trickNo)]
            && Accepted(g, g.trickNo, g.nextMove, card)
            && InStep(scn, Place(g, card), g.nextMove, p.(outbox := []))
  {
    hide RoundInv, Rm, RmTaken, Replay, LegalMove, Pick, Turns, Nth, Next;
    InRange(scn, g);
    TurnStepAt(scn, g, g.nextMove);
    assert Answered(g, g.nextMove, p);
    PickIsLegal(g.hands[g.nextMove], g.table);
  }

  // ---------------------------------------------------------------- a trick is taken

  lemma TakenMessage(scn: Scenario, g: Game, s: Side, p: Proc)
    requires RoundInv(scn, g) && |g.table| == 4 && InStep(scn, g, s, p)
    requires g.lastDeal == scn[g.roundNumber].deal
    ensures Waiting(Resolve(g), s, RecvP(p, Taken(g.table, Resolve(g).nextMove, g.trickNo)))
  {
    hide RoundInv, Rm, RmTaken, Replay, LegalMove, Pick, Turns, Nth, Taker, TrickPenaltyOf, At, RmAll, HasPlayed;
    InRange(scn, g);
    HandIsReplayed(scn, g, s);
  }

  /** The server's hand is the deal without the logged tricks and without the cards on the table. */
  lemma HandIsReplayed(scn: Scenario, g: Game, s: Side)
    requires RoundInv(scn, g)
    ensures g.hands[s] == RmAll(RmTaken(scn[g.roundNumber].deal[s], g.takenInRound), g.table)
    ensures |g.table| == 4 ==> HasPlayed(scn, g, s)
  {
    ReplayHands(scn[g.roundNumber], g.takenInRound, s);
  }

  // ---------------------------------------------------------------- a round begins

  lemma RoundMessages(g: Game, g1: Game, s: Side, p: Proc, score: Job, total: Job, deal: Job)
    requires Waiting(g, s, p) && score.Score? && total.Total? && deal.Deal?
    requires deal.cards == g1.hands[s] && g1.trickNo == 1
    ensures Waiting(g1, s, RecvP(RecvP(RecvP(p, score), total), deal))
  {
  }

  // ---------------------------------------------------------------- a client is asked

  lemma AskMessage(scn: Scenario, g: Game, p: Proc)
    requires Inv(scn, g) && InStep(scn, g, g.nextMove, p)
    ensures Answered(g, g.nextMove, RecvP(p, Trick(g.table, g.trickNo)))
    ensures InStep(scn, g, g.nextMove, RecvP(p, Trick(g.table, g.trickNo)))
  {
    hide RoundInv, Rm, RmTaken, Replay, LegalMove, Turns, Nth, NoDup, Partition, Conserved, GrandTotals, PickIx,
         WithoutIx;
    InRange(scn, g);
    TurnStepAt(scn, g, g.nextMove);
    MoverHasCards(scn, g);
    HandsDisjoint(scn, g, g.nextMove);
    PickIsLegal(g.hands[g.nextMove], g.table);
  }

  // ---------------------------------------------------------------- a client (re)connects

  lemma {:induction false} ReplayMessages(c: ClientState, log: seq<TakenJob>, s: Side)
    requires Sane(c) && c.stage == AfterFirstDeal
    ensures var p := Settled(Proc(c, []), log);
            && p.outbox == []
            && p.client == c.(hand := RmTaken(c.hand, log),
                              trickNo := if log == [] then c.trickNo else log[|log| - 1].trickNo,
                              nextTrick := if log == [] then c.nextTrick else log[|log| - 1].trickNo + 1)
  {
    if log != [] {
      ReplayMessages(c, log[..|log| - 1], s);
    }
  }

  /** Replaying the deal and the taken tricks brings a fresh client in step, whether or not its seat has played. */
  lemma ReplayBringsInStep(scn: Scenario, g: Game, s: Side)
    requires RoundInv(scn, g) && g.lastDeal == scn[g.roundNumber].deal && |g.table| <= 3
    ensures InStep(scn, g, s, Settled(Proc(FRESH, []), [Deal(g.roundMode, g.nextMove, g.lastDeal[s])] + g.takenInRound))
  {
    hide RoundInv, Rm, Replay, Turns, Nth, RmAll, HasPlayed;
    InRange(scn, g);
    LogNumbers(scn, g);
    if !HasPlayed(scn, g, s) {
      UnplayedHand(scn, g, s);
    }
    var deal := Deal(g.roundMode, g.nextMove, g.lastDeal[s]);
    SettledAppend(Proc(FRESH, []), [deal], g.takenInRound);
    SettledOne(Proc(FRESH, []), deal);
    ReplayMessages(RecvP(Proc(FRESH, []), deal).client, g.takenInRound, s);
  }

  lemma SettledOne(p: Proc, j: Job)
    ensures Settled(p, [j]) == RecvP(p, j)
  {
    assert [j][..0] == [];
  }

  /** A side that has not played holds exactly what the replay of its deal leaves. */
  lemma UnplayedHand(scn: Scenario, g: Game, s: Side)
    requires RoundInv(scn, g) && !HasPlayed(scn, g, s)
    ensures g.hands[s] == RmTaken(scn[g.roundNumber].deal[s], g.takenInRound)
  {
    hide RmTaken, RmAll, LegalMove, TrickLegal, LogLegal, WellFormed, At, Replay;
    NotPlayedYet(scn, g, s);
    ReplayHands(scn[g.roundNumber], g.takenInRound, s);
  }

  lemma LogNumbers(scn: Scenario, g: Game)
    requires RoundInv(scn, g)
    ensures g.trickNo == if g.takenInRound == [] then 1 else g.takenInRound[|g.takenInRound| - 1].trickNo + 1
  {
    hide RmAll, LegalMove, TrickLegal, WellFormed, At;
  }
}
