/** What holds of the server over every run of its callbacks, whatever the clients send (server/server.cpp). */
module CallbackRuns {
  import opened Cards
  import opened Rules
  import opened Jobs
  import opened Game
  import opened GameInvariant
  import opened GameRuns
  import opened ServerState
  import opened Session
  import opened SessionRuns
  import opened System
  import opened SystemProof

  // ---------------------------------------------------------------- the invariant

  /** Every message in every mailbox is one a client can read. */
  ghost predicate LegibleMail(mail: map<int, seq<Job>>) {
    forall ix, i :: ix in mail && 0 <= i < |mail[ix]| ==> ValidToClient(mail[ix][i])
  }

  /** The game as it would be had nobody told the server to stop. */
  function Going(g: Game): Game {
    g.(exiting := false)
  }

  /** The last round has been played; its deal and its log are still there. */
  ghost predicate Ended(scn: Scenario, g: Game) {
    && Finished(scn, g) && g.table == []
    && CleanBox(g.takenInRound)
    && (forall s: Side :: |LastDealOf(g, s)| == TRICKS_PER_ROUND)
  }

  /**
   * The game is in the state of a run, even if the server has been told to stop before its end, or it has ended. Once
   * four have been connected it has been dealt.
   */
  ghost predicate GameSound(scn: Scenario, g: Game, full: bool) {
    || (GameReady(scn, Going(g)) && (full ==> g.lastDeal != map[]))
    || Ended(scn, g)
  }

  ghost predicate Lawful(scn: Scenario, s: Srv) {
    && SessionInv(s) && GameSound(scn, s.game, s.playersConnected >= 4)
    && (!s.game.exiting ==> LegibleMail(s.mgr.mail))
  }

  /**
   * After the last trick the game's next trick number is 14. A move of a worker with a side is then refused with that
   * number, and a worker that takes the last free seat is followed by a question with that number.
   */
  ghost predicate TooLate(s: Srv, c: Callback)
    requires CanOccur(s, c)
  {
    && s.game.trickNo == TRICKS_PER_ROUND + 1
    && match c
       case TrickMsg(_, _, ix) =>
         && s.playersConnected >= 4
         && (|| (s.mgr.roles[ix] == ServingActive && ix in s.workerToSide && Reached(s, s.workerToSide[ix]))
             || (s.mgr.roles[ix] == Cleanup && ix in s.zombieWorkerToSide && Reached(s, s.zombieWorkerToSide[ix])))
       case IntroMsg(side, ix) =>
         && s.mgr.roles[ix] == ServingUnknown && s.activeSides[side] == -1 && s.playersConnected == 3
         && Reached(Seat(s, side, ix), s.game.nextMove)
       case _ => false
  }

  /** A job for the side finds a mailbox. */
  ghost predicate Reached(s: Srv, side: Side) {
    s.activeSides[side] in s.mgr.mail
  }

  /** The server stays lawful, and its mail stays legible just when it is not too late. */
  ghost predicate Keeps(scn: Scenario, s: Srv, s1: Srv, late: bool) {
    && SessionInv(s1) && GameSound(scn, s1.game, s1.playersConnected >= 4)
    && (s.game.exiting ==> s1.game.exiting)
    && (LegibleMail(s.mgr.mail) ==> (LegibleMail(s1.mgr.mail) <==> !late))
  }

  // ---------------------------------------------------------------- mailboxes

  lemma LegiblePush(mail: map<int, seq<Job>>, ix: int, j: Job)
    requires LegibleMail(mail) && ValidToClient(j)
    ensures ix in mail ==> LegibleMail(mail[ix := mail[ix] + [j]])
    ensures LegibleMail(mail[ix := []])
  {
    hide ValidToClient;
  }

  lemma LegibleSend(m: Mgr, j: Job, ix: int)
    requires LegibleMail(m.mail) && ValidToClient(j)
    ensures LegibleMail(SendJob(m, j, ix).mail)
  {
    hide LegibleMail;
    LegiblePush(m.mail, ix, j);
  }

  lemma {:induction false} LegiblePost(m: Mgr, seats: Seating, outs: seq<Out>)
    requires LegibleMail(m.mail) && AllReadable(outs)
    ensures LegibleMail(Post(m, seats, outs).mail)
  {
    hide LegibleMail, ValidToClient, SendJob;
    if outs != [] {
      var o := outs[|outs| - 1];
      LegiblePost(m, seats, outs[..|outs| - 1]);
      LegibleSend(Post(m, seats, outs[..|outs| - 1]), o.job, seats[o.to]);
    }
  }

  lemma {:induction false} LegibleLog(m: Mgr, ix: int, log: seq<TakenJob>)
    requires LegibleMail(m.mail) && CleanBox(log)
    ensures LegibleMail(PostLog(m, ix, log).mail)
  {
    hide LegibleMail, ValidToClient, SendJob;
    if log != [] {
      LegibleLog(m, ix, log[..|log| - 1]);
      LegibleSend(PostLog(m, ix, log[..|log| - 1]), log[|log| - 1], ix);
    }
  }

  lemma IllegibleSend(m: Mgr, j: Job, ix: int)
    requires LegibleMail(m.mail) && !ValidToClient(j)
    ensures LegibleMail(SendJob(m, j, ix).mail) <==> ix !in m.mail
  {
    hide ValidToClient;
    var m1 := SendJob(m, j, ix);
    if ix in m.mail {
      assert m1.mail[ix][|m.mail[ix]|] == j;
    }
  }

  // ---------------------------------------------------------------- the game

  lemma PlaceExiting(g: Game, card: Card)
    ensures Place(g.(exiting := true), card) == Place(g, card).(exiting := true)
  {
  }

  lemma ResolveExiting(g: Game)
    requires |g.table| == 4
    ensures Resolve(g.(exiting := true)) == Resolve(g).(exiting := true)
  {
    hide Taker, TrickPenaltyOf, At;
  }

  lemma UpdateExiting(g: Game)
    ensures UpdatePenalties(g.(exiting := true)) == UpdatePenalties(g).(exiting := true)
  {
    hide At;
  }

  lemma NextRoundExiting(scn: Scenario, g: Game)
    ensures NextRound(scn, g.(exiting := true)) == NextRound(scn, g).(exiting := true)
  {
  }

  /** The flag plays no part in what a move does to the rest of the game. */
  lemma ExitingIsNoMatter(scn: Scenario, g: Game, card: Card)
    requires |g.table| <= 3
    ensures Accept(scn, g.(exiting := true), card) == Accept(scn, g, card).(exiting := true)
  {
    hide Place, Resolve, UpdatePenalties, NextRound;
    PlaceExiting(g, card);
    var g1 := Place(g, card);
    if |g1.table| == 4 {
      ResolveExiting(g1);
      UpdateExiting(Resolve(g1));
      NextRoundExiting(scn, UpdatePenalties(Resolve(g1)));
    }
    PlaceTable(g, card);
  }

  lemma PlaceTable(g: Game, card: Card)
    ensures |Place(g, card).table| == |g.table| + 1
  {
  }

  lemma OutsExiting(scn: Scenario, g: Game, card: Card)
    requires |g.table| <= 3
    ensures AcceptOuts(scn, g.(exiting := true), card) == AcceptOuts(scn, g, card)
  {
    hide Place, Resolve, UpdatePenalties, NextRound;
    PlaceExiting(g, card);
    PlaceTable(g, card);
    var g1 := Place(g, card);
    if |g1.table| == 4 {
      ResolveExiting(g1);
      ResolveFields(g1);
      UpdateExiting(Resolve(g1));
      NextRoundExiting(scn, UpdatePenalties(Resolve(g1)));
    }
  }

  lemma SoundTable(scn: Scenario, g: Game, full: bool)
    requires GameSound(scn, g, full)
    ensures |g.table| <= 3 && (Finished(scn, g) || Inv(scn, Going(g)))
    ensures !g.exiting ==> Inv(scn, g)
    ensures g.roundNumber <= |scn|
    ensures g.roundNumber == |scn| ==> forall s: Side :: g.hands[s] == []
  {
    hide Partition, Conserved, GrandTotals, RmAll, LogLegal, Replay, TrickLegal;
    assert !g.exiting ==> Going(g) == g;
  }

  /** An accepted move leads on, or ends the game. */
  lemma MoveOn(scn: Scenario, g: Game, card: Card)
    requires GameReady(scn, g) && g.lastDeal != map[] && LegalMove(g.hands[g.nextMove], card, g.table)
    ensures |g.table| <= 3
    ensures var g1 := Accept(scn, g, card);
            if g1.exiting then Ended(scn, g1) else GameReady(scn, g1) && g1.lastDeal != map[]
  {
    hide RoundState, Accept, LegalMove, GrandTotals, Progress, CleanBox;
    AcceptKeeps(scn, g, card);
    var g1 := Accept(scn, g, card);
    NonEmptyDeal(scn, g1.roundNumber);
    if g1.exiting {
      forall s: Side ensures |LastDealOf(g1, s)| == TRICKS_PER_ROUND {
        ReplayedDealSize(scn, g, s);
      }
      LogAtTheEnd(scn, g, card);
    } else {
      InvFacts(scn, g1);
    }
  }

  lemma LogAtTheEnd(scn: Scenario, g: Game, card: Card)
    requires GameReady(scn, g) && Accept(scn, g, card).exiting
    ensures CleanBox(Accept(scn, g, card).takenInRound) && Accept(scn, g, card).table == []
  {
    hide GameReady, Taker, TrickPenaltyOf, UpdatePenalties, Inv;
    LogIsClean(scn, g);
    AskedNumbers(scn, g);
    ReadyInRange(scn, g);
    var g1 := Place(g, card);
    UpdateKeepsTheRest(Resolve(g1));
  }

  lemma EndedNoMove(scn: Scenario, g: Game, card: Card)
    requires Ended(scn, g)
    ensures g.hands[g.nextMove] == [] && g.trickNo == TRICKS_PER_ROUND + 1 && g.exiting
    ensures !LegalMove(g.hands[g.nextMove], card, g.table)
  {
  }

  // ---------------------------------------------------------------- the callbacks

  lemma AcceptedKept(scn: Scenario, s: Srv, card: Card)
    requires Lawful(scn, s) && s.playersConnected >= 4 && |s.game.table| <= 3
    requires Accepted(s.game, s.game.trickNo, s.game.nextMove, card)
    ensures s.game.trickNo <= TRICKS_PER_ROUND
    ensures Keeps(scn, s, MoveBy(scn, s, s.game.nextMove, s.game.trickNo, card), false)
  {
    hide SessionInv, GameReady, LegibleMail, Accept, AcceptOuts, Post, LegalMove, AllReadable, MoveBy, Ended;
    var g, g0 := s.game, Going(s.game);
    if Ended(scn, g) {
      EndedNoMove(scn, g, card);
    }
    MoveByKeeps(scn, s, g.nextMove, g.trickNo, card);
    AcceptedMove(scn, s, card);
    AskedNumbers(scn, g0);
    MoveOn(scn, g0, card);
    AcceptEnds(scn, g0, card);
    assert g == g0 || g == g0.(exiting := true);
    ExitingIsNoMatter(scn, g0, card);
    OutsExiting(scn, g0, card);
    if LegibleMail(s.mgr.mail) {
      LegiblePost(s.mgr, s.activeSides, AcceptOuts(scn, g, card));
    }
    assert Going(Accept(scn, g0, card)) == Going(Accept(scn, g, card));
    StillGoing(Accept(scn, g0, card));
  }

  lemma StillGoing(g: Game)
    ensures !g.exiting ==> Going(g) == g
    ensures g.exiting ==> g.(exiting := true) == g
  {
  }

  lemma NumberInRange(scn: Scenario, s: Srv)
    requires Lawful(scn, s)
    ensures 1 <= s.game.trickNo <= TRICKS_PER_ROUND + 1
    ensures s.game.trickNo == TRICKS_PER_ROUND + 1 <==> Ended(scn, s.game)
    ensures !s.game.exiting ==> !Ended(scn, s.game)
  {
    hide SessionInv, GameReady, Ended;
    if Ended(scn, s.game) {
      EndedNoMove(scn, s.game, Card(2, Clubs));
    } else {
      AskedNumbers(scn, Going(s.game));
    }
  }

  lemma RefusedKept(scn: Scenario, s: Srv, side: Side)
    requires Lawful(scn, s)
    requires SessionInv(s.(mgr := SendJob(s.mgr, Wrong(s.game.trickNo), s.activeSides[side])))
    ensures Keeps(scn, s, s.(mgr := SendJob(s.mgr, Wrong(s.game.trickNo), s.activeSides[side])),
                  s.game.trickNo == TRICKS_PER_ROUND + 1 && Reached(s, side))
  {
    hide SessionInv, GameSound, LegibleMail, SendJob, Ended;
    NumberInRange(scn, s);
    if LegibleMail(s.mgr.mail) {
      if s.game.trickNo == TRICKS_PER_ROUND + 1 {
        IllegibleSend(s.mgr, Wrong(s.game.trickNo), s.activeSides[side]);
      } else {
        LegibleSend(s.mgr, Wrong(s.game.trickNo), s.activeSides[side]);
      }
    }
  }

  lemma MoveByKept(scn: Scenario, s: Srv, side: Side, trickNo: int, card: Card)
    requires Lawful(scn, s) && s.playersConnected >= 4
    ensures |s.game.table| <= 3
    ensures Keeps(scn, s, MoveBy(scn, s, side, trickNo, card),
                  s.game.trickNo == TRICKS_PER_ROUND + 1 && Reached(s, side))
  {
    hide Lawful, SessionInv, Accept, AcceptOuts, Post, LegalMove, SendJob, Keeps;
    LawfulFacts(scn, s);
    MoveByKeeps(scn, s, side, trickNo, card);
    if Accepted(s.game, trickNo, side, card) {
      AcceptedKept(scn, s, card);
    } else {
      RefusedKept(scn, s, side);
    }
  }

  /** Changes to roles, seats' owners and kill orders do not touch game and mail. */
  lemma SameGameKept(scn: Scenario, s: Srv, s1: Srv)
    requires Lawful(scn, s) && SessionInv(s1) && s1.game == s.game && s1.mgr.mail == s.mgr.mail
    requires s1.playersConnected >= 4 ==> s.playersConnected >= 4
    ensures Keeps(scn, s, s1, false)
  {
    hide SessionInv, GameReady, LegibleMail, Ended;
  }

  lemma StoppedKept(scn: Scenario, s: Srv, s1: Srv)
    requires Lawful(scn, s) && SessionInv(s1) && s1.game == s.game.(exiting := true) && s1.mgr.mail == s.mgr.mail
    requires s1.playersConnected >= 4 ==> s.playersConnected >= 4
    ensures Keeps(scn, s, s1, false)
  {
    hide SessionInv, GameReady, LegibleMail, Ended;
    assert Going(s1.game) == Going(s.game);
    NumberInRange(scn, s);
    StillGoing(s.game);
  }

  lemma TrickKept(scn: Scenario, s: Srv, trickNo: int, card: Card, ix: int)
    requires Lawful(scn, s) && Handler(s, ix)
    ensures |s.game.table| <= 3
    ensures Keeps(scn, s, PlayerTricked(scn, s, trickNo, card, ix).0, TooLate(s, TrickMsg(trickNo, card, ix)))
  {
    hide SessionInv, MoveBy, Lawful, Keeps, Reached;
    LawfulFacts(scn, s);
    PlayerTrickedKeeps(scn, s, trickNo, card, ix);
    if s.playersConnected >= 4 && s.mgr.roles[ix] == ServingActive && ix in s.workerToSide {
      MoveByKept(scn, s, s.workerToSide[ix], trickNo, card);
    } else if s.playersConnected >= 4 && s.mgr.roles[ix] == Cleanup && ix in s.zombieWorkerToSide {
      MoveByKept(scn, s, s.zombieWorkerToSide[ix], trickNo, card);
    } else {
      SameGameKept(scn, s, PlayerTricked(scn, s, trickNo, card, ix).0);
    }
  }

  lemma LawfulFacts(scn: Scenario, s: Srv)
    requires Lawful(scn, s)
    ensures SessionInv(s) && |s.game.table| <= 3
  {
  }

  lemma ReplayLegible(scn: Scenario, g: Game, m: Mgr, side: Side, ix: int)
    requires GameReady(scn, g) && g.lastDeal != map[] && LegibleMail(m.mail)
    ensures LegibleMail(PostLog(SendJob(m, Deal(g.roundMode, g.nextMove, LastDealOf(g, side)), ix), ix,
            g.takenInRound).mail)
  {
    hide GameReady, LegibleMail, SendJob, PostLog, LastDealOf;
    ReplayedDealSize(scn, g, side);
    LogIsClean(scn, g);
    LegibleSend(m, Deal(g.roundMode, g.nextMove, LastDealOf(g, side)), ix);
    LegibleLog(SendJob(m, Deal(g.roundMode, g.nextMove, LastDealOf(g, side)), ix), ix, g.takenInRound);
  }

  lemma StartLegible(scn: Scenario, g: Game, m: Mgr, seats: Seating)
    requires GameReady(scn, g) && g.lastDeal == map[] && LegibleMail(m.mail)
    ensures LegibleMail(Post(m, seats, Deals(g) + AskNext(g)).mail)
    ensures GameReady(scn, g.(lastDeal := g.hands)) && g.hands != map[]
  {
    hide GameReady, LegibleMail, Post, Deals, AskNext, AllReadable, SeatView;
    DealsAreClean(scn, g);
    AskNextIsClean(scn, g);
    FirstDealView(scn, g, N);
    PostAppend(m, seats, Deals(g), AskNext(g));
    LegiblePost(m, seats, Deals(g));
    LegiblePost(Post(m, seats, Deals(g)), seats, AskNext(g));
    assert N in g.hands;
  }

  /** The jobs that follow when a worker has sat down are legible, whoever is at the other end. */
  lemma SeatMailLegible(scn: Scenario, s: Srv, side: Side, ix: int)
    requires GameReady(scn, s.game) && LegibleMail(s.mgr.mail)
    ensures GameReady(scn, SeatGame(s)) && LegibleMail(SeatMail(s, side, ix).mail)
    ensures s.playersConnected == 4 ==> SeatGame(s).lastDeal != map[]
  {
    hide GameReady, LegibleMail, Post, PostLog, SendJob, Deals, AskNext, LastDealOf, AllReadable;
    var g := s.game;
    if s.playersConnected == 4 && g.lastDeal == map[] {
      StartLegible(scn, g, s.mgr, s.activeSides);
    } else if g.lastDeal != map[] {
      ReplayLegible(scn, g, s.mgr, side, ix);
      if s.playersConnected == 4 {
        AskNextIsClean(scn, g);
        LegiblePost(PostLog(SendJob(s.mgr, Deal(g.roundMode, g.nextMove, LastDealOf(g, side)), ix), ix, g.takenInRound),
                    s.activeSides, AskNext(g));
      }
    }
  }

  /** The game plays no part in the flag's way, nor the flag in what is sent. */
  lemma SeatExiting(s: Srv, side: Side, ix: int)
    ensures SeatMail(s.(game := Going(s.game)), side, ix) == SeatMail(s, side, ix)
    ensures SeatGame(s.(game := Going(s.game))) == Going(SeatGame(s))
    ensures SeatGame(s).exiting == s.game.exiting
  {
    hide Post, PostLog, SendJob;
  }

  lemma EndedSeatMail(scn: Scenario, s: Srv, side: Side, ix: int)
    requires Ended(scn, s.game) && LegibleMail(s.mgr.mail)
    ensures SeatGame(s) == s.game
    ensures LegibleMail(SeatMail(s, side, ix).mail) <==> !(s.playersConnected == 4 && Reached(s, s.game.nextMove))
  {
    hide LegibleMail, PostLog, SendJob, LastDealOf, CleanBox;
    var g, seat := s.game, s.activeSides[s.game.nextMove];
    var m := SendJob(s.mgr, Deal(g.roundMode, g.nextMove, LastDealOf(g, side)), ix);
    var m1 := PostLog(m, ix, g.takenInRound);
    DealStored(g, side);
    LegibleSend(s.mgr, Deal(g.roundMode, g.nextMove, LastDealOf(g, side)), ix);
    LegibleLog(m, ix, g.takenInRound);
    SameBoxes(s.mgr, Deal(g.roundMode, g.nextMove, LastDealOf(g, side)), ix);
    PostLogFrame(m, ix, g.takenInRound);
    assert seat in m1.mail.Keys <==> seat in s.mgr.mail.Keys;
    IllegibleSend(m1, Trick(g.table, g.trickNo), seat);
    PostSnoc(m1, s.activeSides, [], AskNext(g)[0]);
    assert [] + [AskNext(g)[0]] == AskNext(g);
  }

  lemma SameBoxes(m: Mgr, j: Job, ix: int)
    ensures SendJob(m, j, ix).mail.Keys == m.mail.Keys
  {
  }

  lemma DealStored(g: Game, side: Side)
    requires |LastDealOf(g, side)| == TRICKS_PER_ROUND
    ensures g.lastDeal != map[]
  {
  }

  lemma SeatKept(scn: Scenario, s: Srv, side: Side, ix: int)
    requires Lawful(scn, s) && Handler(s, ix) && s.mgr.roles[ix] == ServingUnknown && s.activeSides[side] == -1
    ensures Keeps(scn, s, TakeSeat(s, side, ix), TooLate(s, IntroMsg(side, ix)))
  {
    hide SessionInv, GameReady, LegibleMail, SeatMail, SeatGame, Ended;
    var s1 := Seat(s, side, ix);
    TakeSeatKeeps(s, side, ix);
    AtMostFour(TakeSeat(s, side, ix));
    SeatExiting(s1, side, ix);
    NumberInRange(scn, s);
    if Ended(scn, s.game) {
      if LegibleMail(s.mgr.mail) {
        EndedSeatMail(scn, s1, side, ix);
      }
      SeatGameEnded(scn, s1);
    } else {
      if LegibleMail(s.mgr.mail) {
        SeatMailLegible(scn, s1.(game := Going(s.game)), side, ix);
      }
      SeatGameReady(scn, s1.(game := Going(s.game)));
    }
  }

  lemma SeatGameEnded(scn: Scenario, s: Srv)
    requires Ended(scn, s.game)
    ensures SeatGame(s) == s.game
  {
    hide Finished, CleanBox;
    DealStored(s.game, N);
  }

  lemma SeatGameReady(scn: Scenario, s: Srv)
    requires GameReady(scn, s.game)
    ensures GameReady(scn, SeatGame(s))
    ensures s.playersConnected == 4 ==> SeatGame(s).lastDeal != map[]
    ensures SeatGame(s).lastDeal == map[] ==> s.game.lastDeal == map[]
  {
    hide GameReady;
    if s.playersConnected == 4 && s.game.lastDeal == map[] {
      FirstDealView(scn, s.game, N);
      assert N in s.game.hands;
    }
  }

  lemma AtMostFour(s: Srv)
    requires SessionInv(s)
    ensures s.playersConnected <= 4
  {
  }

  lemma IntroKept(scn: Scenario, s: Srv, side: Side, ix: int)
    requires Lawful(scn, s) && Handler(s, ix)
    ensures Keeps(scn, s, PlayerIntro(s, side, ix).0, TooLate(s, IntroMsg(side, ix)))
  {
    hide SessionInv, Lawful, TakeSeat, Keeps, Reached;
    LawfulFacts(scn, s);
    PlayerIntroKeeps(s, side, ix);
    if s.mgr.roles[ix] != ServingUnknown {
      SameGameKept(scn, s, PlayerIntro(s, side, ix).0);
    } else if s.activeSides[side] == -1 {
      SeatKept(scn, s, side, ix);
    } else {
      BusyKept(scn, s, side, ix);
    }
  }

  lemma BusyKept(scn: Scenario, s: Srv, side: Side, ix: int)
    requires Lawful(scn, s) && Handler(s, ix) && s.mgr.roles[ix] == ServingUnknown && s.activeSides[side] != -1
    ensures Keeps(scn, s, PlayerIntro(s, side, ix).0, false)
  {
    hide SessionInv, GameSound, LegibleMail, SendJob;
    PlayerIntroKeeps(s, side, ix);
    var busy := set x | x in s.activeSides && s.activeSides[x] != -1;
    assert side in busy;
    LegibleIfLegible(SetRole(s.mgr, ix, CleanupUnknown), Busy(busy), ix);
  }

  lemma LegibleIfLegible(m: Mgr, j: Job, ix: int)
    requires ValidToClient(j)
    ensures LegibleMail(m.mail) ==> LegibleMail(SendJob(m, j, ix).mail)
  {
    hide LegibleMail, SendJob;
    if LegibleMail(m.mail) {
      LegibleSend(m, j, ix);
    }
  }

  /** An exit leaves game and mail alone, unless the listening worker is the one that ends. */
  lemma ExitKeepsGame(s: Srv, ix: int, hasWork: bool)
    requires SessionInv(s) && ix in s.mgr.roles
    ensures var s1 := GrandExit(s, ix, hasWork).0;
            && s1.playersConnected <= s.playersConnected
            && s1.mgr.mail == s.mgr.mail
            && (s.mgr.roles[ix] != ServingProxy || s.game.exiting ==> s1.game == s.game)
            && (s.mgr.roles[ix] == ServingProxy ==> s1.game == s.game.(exiting := true))
  {
    hide EraseWorker, GrandExit, SessionInv;
    EraseKeepsMail(s.mgr, ix);
    if s.mgr.roles[ix] == ServingActive {
      ActiveIsSeated(s, ix);
      ActiveExit(s, ix, hasWork);
      EraseKeepsMail(Leave(s, ix).mgr, ix);
    } else {
      OtherExit(s, ix, hasWork);
    }
  }

  lemma ExitKept(scn: Scenario, s: Srv, ix: int, hasWork: bool)
    requires Lawful(scn, s) && ix in s.mgr.roles
    ensures Keeps(scn, s, GrandExit(s, ix, hasWork).0, false)
  {
    hide SessionInv, Lawful, GrandExit, Keeps;
    LawfulFacts(scn, s);
    GrandExitKeeps(s, ix, hasWork);
    ExitKeepsGame(s, ix, hasWork);
    if s.mgr.roles[ix] == ServingProxy && !s.game.exiting {
      StoppedKept(scn, s, GrandExit(s, ix, hasWork).0);
    } else {
      SameGameKept(scn, s, GrandExit(s, ix, hasWork).0);
    }
  }

  lemma TimeoutKept(scn: Scenario, s: Srv, ix: int)
    requires Lawful(scn, s) && ix in s.mgr.roles
    ensures Keeps(scn, s, HandleTimeout(s, ix), false)
  {
    hide SessionInv, GameSound, LegibleMail, SendJob, Ended, Inv, Finished;
    SmallCallbacksKeep(s, ix);
    NumberInRange(scn, s);
    SoundTable(scn, s.game, s.playersConnected >= 4);
    if !s.game.exiting {
      LegibleIfLegible(s.mgr, Trick(s.game.table, s.game.trickNo), ix);
    }
  }

  lemma QuietKept(scn: Scenario, s: Srv, ix: int)
    requires Lawful(scn, s)
    ensures Keeps(scn, s, s.(mgr := Spawn(s.mgr, ServingUnknown)), false)
    ensures Keeps(scn, s, s.(mgr := Clear(s.mgr)), false)
    ensures ix in s.mgr.roles ==> Keeps(scn, s, HandleWrongMessage(s, ix).0, false)
  {
    hide SessionInv, GameSound, ValidToClient;
    ConnectedKeeps(s);
    CleanerKeeps(s);
    if ix in s.mgr.roles {
      SmallCallbacksKeep(s, ix);
    }
  }

  lemma PerformKeeps(scn: Scenario, s: Srv, c: Callback)
    requires Lawful(scn, s) && CanOccur(s, c)
    ensures |s.game.table| <= 3 && Keeps(scn, s, Perform(scn, s, c), TooLate(s, c))
  {
    hide Lawful, Keeps, PlayerIntro, PlayerTricked, GrandExit, HandleTimeout, HandleWrongMessage, Clear, Spawn, Reached;
    LawfulFacts(scn, s);
    match c {
      case Connected => QuietKept(scn, s, 0);
      case IntroMsg(side, ix) => IntroKept(scn, s, side, ix);
      case TrickMsg(trickNo, card, ix) => TrickKept(scn, s, trickNo, card, ix);
      case BadMsg(ix) => QuietKept(scn, s, ix);
      case ExitCb(ix, hasWork) => ExitKept(scn, s, ix, hasWork);
      case TimeoutCb(ix) => TimeoutKept(scn, s, ix);
      case Cleaner => QuietKept(scn, s, 0);
    }
  }

  lemma PerformLawful(scn: Scenario, s: Srv, c: Callback)
    requires Lawful(scn, s) && CanOccur(s, c)
    ensures |s.game.table| <= 3 && Lawful(scn, Perform(scn, s, c))
  {
    hide SessionInv, GameSound, LegibleMail, Perform, Reached, Ended;
    PerformKeeps(scn, s, c);
    NumberInRange(scn, s);
  }

  /** A callback leaves every message legible if and only if it does not come too late. */
  lemma LegibleIffInTime(scn: Scenario, s: Srv, c: Callback)
    requires Lawful(scn, s) && LegibleMail(s.mgr.mail) && CanOccur(s, c)
    ensures |s.game.table| <= 3 && (LegibleMail(Perform(scn, s, c).mgr.mail) <==> !TooLate(s, c))
  {
    hide Lawful, LegibleMail, Perform, TooLate;
    PerformKeeps(scn, s, c);
  }

  // ---------------------------------------------------------------- over whole runs

  lemma StartLawful(scn: Scenario)
    requires WellFormed(scn)
    ensures Lawful(scn, StartServer(scn)) && LegibleMail(StartServer(scn).mgr.mail)
  {
    hide SessionInv, RoundState, Start;
    StartServerIsFine(scn);
    StartIsGood(scn);
    StartNotDealt(scn);
    assert Going(Start(scn)) == Start(scn);
  }

  lemma {:induction false} RunLawful(scn: Scenario, s: Srv, cs: seq<Callback>)
    requires Lawful(scn, s)
    ensures Lawful(scn, Run(scn, s, cs))
    decreases |cs|
  {
    hide Lawful, Perform, CanOccur;
    if cs != [] {
      LawfulFacts(scn, s);
      if CanOccur(s, cs[0]) {
        PerformLawful(scn, s, cs[0]);
        RunLawful(scn, Perform(scn, s, cs[0]), cs[1..]);
      } else {
        RunLawful(scn, s, cs[1..]);
      }
    }
  }

  /**
   * Over every sequence of callbacks, whatever the clients send and in whatever order: until the server stops, the game
   * is in a state of a run, and every job it has handed to a worker is one the worker's client can read.
   */
  lemma EveryJobIsLegible(scn: Scenario, cs: seq<Callback>)
    requires WellFormed(scn)
    ensures var s := Run(scn, StartServer(scn), cs);
            !s.game.exiting ==>
              && Inv(scn, s.game)
              && forall ix, i :: ix in s.mgr.mail && 0 <= i < |s.mgr.mail[ix]| ==> ValidToClient(s.mgr.mail[ix][i])
  {
    hide SessionInv, GameSound, ValidToClient, Run;
    StartLawful(scn);
    RunLawful(scn, StartServer(scn), cs);
    var s := Run(scn, StartServer(scn), cs);
    SoundTable(scn, s.game, s.playersConnected >= 4);
  }

  /** No callback of the run comes too late. */
  ghost predicate InTime(scn: Scenario, s: Srv, cs: seq<Callback>) {
    forall k :: 0 <= k < |cs| && CanOccur(Run(scn, s, cs[..k]), cs[k]) ==> !TooLate(Run(scn, s, cs[..k]), cs[k])
  }

  /** Even after the server has stopped every message is legible, as long as no callback comes too late. */
  lemma {:induction false} RunsInTimeAreLegible(scn: Scenario, cs: seq<Callback>)
    requires WellFormed(scn) && InTime(scn, StartServer(scn), cs)
    ensures Lawful(scn, Run(scn, StartServer(scn), cs)) && LegibleMail(Run(scn, StartServer(scn), cs).mgr.mail)
  {
    hide Lawful, LegibleMail, Perform, CanOccur, TooLate;
    var s := StartServer(scn);
    StartLawful(scn);
    RunLawful(scn, s, cs);
    if cs != [] {
      var init, c := cs[..|cs| - 1], cs[|cs| - 1];
      forall k | 0 <= k < |init| && CanOccur(Run(scn, s, init[..k]), init[k])
        ensures !TooLate(Run(scn, s, init[..k]), init[k])
      {
        assert init[..k] == cs[..k];
      }
      RunsInTimeAreLegible(scn, init);
      assert cs == init + [c];
      RunAppend(scn, s, init, [c]);
      OneCallback(scn, Run(scn, s, init), c);
      if CanOccur(Run(scn, s, init), c) {
        LegibleIffInTime(scn, Run(scn, s, init), c);
      }
    }
  }

  lemma OneCallback(scn: Scenario, s: Srv, c: Callback)
    ensures Run(scn, s, [c]) == if CanOccur(s, c) && |s.game.table| <= 3 then Perform(scn, s, c) else s
  {
    hide Perform, CanOccur;
  }

  // ---------------------------------------------------------------- a run that comes too late

  /** Four are connected and each seated worker is served. */
  ghost predicate AllServed(scn: Scenario, s: Srv) {
    Lawful(scn, s) && SeatSound(s) && s.playersConnected == 4
  }

  /** The side to move plays, whatever the worker of its seat is called. */
  lemma SomebodyPlays(scn: Scenario, s: Srv) returns (c: Callback)
    requires AllServed(scn, s) && !s.game.exiting
    ensures CanOccur(s, c) && |s.game.table| <= 3 && AllServed(scn, Perform(scn, s, c))
    ensures var g1 := Perform(scn, s, c).game;
            && Progress(s.game) + 1 == Progress(g1) <= 52 * |scn|
            && (g1.exiting ==> Ended(scn, g1))
  {
    hide Lawful, SeatSound, RoundState, Accept, AcceptOuts, LegalMove, Post, PlayerTricked, Progress, Ended,
         GrandTotals;
    var g := s.game;
    LawfulGame(scn, s);
    MoveAvailable(scn, g);
    var card :| LegalMove(g.hands[g.nextMove], card, g.table);
    var ix := s.activeSides[g.nextMove];
    SeatedIsServed(s, g.nextMove);
    SeatOwner(s, g.nextMove);
    c := TrickMsg(g.trickNo, card, ix);
    PerformLawful(scn, s, c);
    SoundIffPolite(scn, s, c);
    AcceptKeeps(scn, g, card);
    PlayedCard(scn, s, card);
    LawfulGame(scn, Perform(scn, s, c));
  }

  lemma LawfulGame(scn: Scenario, s: Srv)
    requires Lawful(scn, s)
    ensures |s.game.table| <= 3 && (!s.game.exiting ==> Inv(scn, s.game))
    ensures Finished(scn, s.game) ==> Ended(scn, s.game)
    ensures !s.game.exiting || Ended(scn, s.game) ==> Progress(s.game) <= 52 * |scn|
  {
    hide SessionInv, GameSound, GameReady, LegibleMail, RoundState, GrandTotals, CleanBox;
    SoundTable(scn, s.game, s.playersConnected >= 4);
    NumberInRange(scn, s);
    if !s.game.exiting {
      InvFacts(scn, s.game);
    }
  }

  lemma SeatOwner(s: Srv, side: Side)
    requires SeatSound(s) && s.playersConnected == 4
    ensures var ix := s.activeSides[side]; ix in s.workerToSide && s.workerToSide[ix] == side
  {
    SeatedIsServed(s, side);
    NobodyIsMissing(s.activeSides);
    hide SeatsTaken;
  }

  lemma PlayedCard(scn: Scenario, s: Srv, card: Card)
    requires |s.game.table| <= 3 && s.playersConnected == 4 && Accepted(s.game, s.game.trickNo, s.game.nextMove, card)
    requires var ix := s.activeSides[s.game.nextMove];
             && ix in s.mgr.roles && s.mgr.roles[ix] == ServingActive
             && ix in s.workerToSide && s.workerToSide[ix] == s.game.nextMove
    ensures var s1 := PlayerTricked(scn, s, s.game.trickNo, card, s.activeSides[s.game.nextMove]).0;
            s1.game == Accept(scn, s.game, card) && s1.playersConnected == 4
  {
    hide Accept, AcceptOuts, LegalMove, Post;
  }

  /** The game is played to its end. */
  lemma {:induction false} PlayOn(scn: Scenario, s: Srv) returns (cs: seq<Callback>)
    requires AllServed(scn, s)
    requires s.game.exiting ==> Ended(scn, s.game)
    ensures AllServed(scn, Run(scn, s, cs)) && Ended(scn, Run(scn, s, cs).game)
    decreases 52 * |scn| - Progress(s.game)
  {
    hide AllServed, Perform, CanOccur, Ended, Progress;
    cs := [];
    if !s.game.exiting {
      var c := SomebodyPlays(scn, s);
      var s1 := Perform(scn, s, c);
      var more := PlayOn(scn, s1);
      cs := [c] + more;
    }
  }

  /**
   * A move that arrives after the last trick, for instance one sent while TAKEN was on its way: from the start some
   * callbacks lead to a state in which the worker of a given side has been handed WRONG with the number 14, which no
   * client can read.
   */
  lemma LateMoveRun(scn: Scenario, side: Side, card: Card) returns (cs: seq<Callback>)
    requires WellFormed(scn)
    ensures var s := Run(scn, StartServer(scn), cs);
            && s.activeSides[side] in s.mgr.mail
            && Wrong(TRICKS_PER_ROUND + 1) in s.mgr.mail[s.activeSides[side]]
            && !ValidToClient(Wrong(TRICKS_PER_ROUND + 1))
  {
    hide AllServed, Run, StartServer, Ended, Perform, CanOccur;
    var before := PlayedOut(scn);
    var s := Run(scn, StartServer(scn), before);
    var late := TrickMsg(TRICKS_PER_ROUND, card, s.activeSides[side]);
    RefusedTooLate(scn, s, side, card);
    RunAppend(scn, StartServer(scn), before, [late]);
    OneCallback(scn, s, late);
    cs := before + [late];
  }

  /** Four join and play to the end. */
  lemma PlayedOut(scn: Scenario) returns (cs: seq<Callback>)
    requires WellFormed(scn)
    ensures var s := Run(scn, StartServer(scn), cs); AllServed(scn, s) && Ended(scn, s.game)
  {
    hide AllServed, Run, StartServer, Ended, Lawful, SeatSound;
    var before := FourJoin(scn);
    StartLawful(scn);
    RunLawful(scn, StartServer(scn), before);
    Served(scn, Run(scn, StartServer(scn), before));
    var more := PlayOn(scn, Run(scn, StartServer(scn), before));
    RunAppend(scn, StartServer(scn), before, more);
    cs := before + more;
  }

  lemma Served(scn: Scenario, s: Srv)
    requires Lawful(scn, s) && SeatSound(s) && s.playersConnected == 4
    ensures AllServed(scn, s)
  {
  }

  lemma RefusedTooLate(scn: Scenario, s: Srv, side: Side, card: Card)
    requires AllServed(scn, s) && Ended(scn, s.game)
    ensures var ix := s.activeSides[side];
            var c := TrickMsg(TRICKS_PER_ROUND, card, ix);
            && CanOccur(s, c) && |s.game.table| <= 3
            && var s1 := Perform(scn, s, c);
            && s1.activeSides == s.activeSides && ix in s1.mgr.mail
            && Wrong(TRICKS_PER_ROUND + 1) in s1.mgr.mail[ix]
  {
    hide Lawful, SeatSound, Accept, AcceptOuts, Post, LegalMove, Finished, CleanBox;
    var ix := s.activeSides[side];
    SeatedIsServed(s, side);
    SeatOwner(s, side);
    EndedNumber(scn, s.game);
    var s1 := Perform(scn, s, TrickMsg(TRICKS_PER_ROUND, card, ix));
    assert s1.mgr.mail[ix][|s.mgr.mail[ix]|] == Wrong(TRICKS_PER_ROUND + 1);
  }

  lemma EndedNumber(scn: Scenario, g: Game)
    requires Ended(scn, g)
    ensures g.trickNo == TRICKS_PER_ROUND + 1
  {
  }
}
