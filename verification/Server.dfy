/** The server as an object whose callbacks update its fields (server/server.cpp). */
module Server {
  import opened Cards
  import opened Rules
  import opened Jobs
  import opened Game
  import opened GameInvariant
  import opened EarlyStop
  import opened WorkerMgr
  import G = Game
  import Ses = Session
  import CallbackRuns

  class Server {
    const gameScenario: Scenario
    const workerMgr: IOWorkerMgr

    var hands: Hands
    var table: seq<Card>
    var nextMove: Side
    var roundNumber: nat
    var trickNo: int
    var roundMode: Mode
    var penalties: map<Side, int>
    var penaltiesRound: map<Side, int>
    var takenInRound: seq<TakenJob>
    var lastDeal: map<Side, Hand>
    var exiting: bool

    var activeSides: S.Seating
    var workerToSide: map<int, Side>
    var zombieWorkerToSide: map<int, Side>
    var playersConnected: int

    function GameState(): G.Game
      reads this
    {
      G.Game(hands, table, nextMove, roundNumber, trickNo, roundMode, penalties, penaltiesRound, takenInRound,
        lastDeal, exiting)
    }

    function State(): S.Srv
      reads this, workerMgr
    {
      S.Srv(GameState(), workerMgr.State(), activeSides, workerToSide, zombieWorkerToSide, playersConnected)
    }

    /** What the code relies on when it indexes the scenario; every state of a run has it. */
    predicate Ready()
      reads this
    {
      ReadyIn(gameScenario, GameState())
    }

    constructor (scenario: Scenario)
      ensures gameScenario == scenario && fresh(workerMgr)
      ensures State() == S.Srv(
                G.Game(PerSide([], [], [], []), [], W, 0, 1, TrickPenalty, NO_PENALTIES, map[], [], map[], false),
                S.Mgr(map[], map[], {}, [], false, 0, {}), PerSide(-1, -1, -1, -1), map[], map[], 0)
    {
      gameScenario := scenario;
      workerMgr := new IOWorkerMgr();
      hands, table, nextMove, roundNumber, trickNo, roundMode := PerSide([], [], [], []), [], W, 0, 1, TrickPenalty;
      penalties, penaltiesRound, takenInRound, lastDeal, exiting := PerSide(0, 0, 0, 0), map[], [], map[], false;
      activeSides, workerToSide, zombieWorkerToSide, playersConnected := PerSide(-1, -1, -1, -1), map[], map[], 0;
    }

    // -------------------------------------------------------------- the game

    method PrepareRound()
      requires roundNumber < |gameScenario|
      modifies this`hands, this`nextMove, this`trickNo, this`roundMode, this`takenInRound
      ensures GameState() == G.PrepareRound(gameScenario, old(GameState()))
    {
      var r := gameScenario[roundNumber];
      roundMode := r.mode;
      hands := r.deal;
      nextMove := r.starting;
      trickNo := 1;
      takenInRound := [];
    }

    /** Adds the round's penalties to the total; a missing entry of either table is created on the way. */
    method UpdatePenalties()
      modifies this`penalties, this`penaltiesRound
      ensures GameState() == G.UpdatePenalties(old(GameState()))
    {
      hide At, Updated, G.UpdatePenalties;
      for i := 0 to |SIDES|
        invariant forall s: Side :: At(penaltiesRound, s) == old(At(penaltiesRound, s))
        invariant forall s: Side ::
                  if s in SIDES[..i] then Updated(old(penalties), old(penaltiesRound), penalties, penaltiesRound, s)
                    else At(penalties, s) == old(At(penalties, s))
      {
        EachOnce(i);
        AddOne(old(penalties), old(penaltiesRound), penalties, penaltiesRound, SIDES[..i], SIDES[i]);
        penaltiesRound := penaltiesRound[SIDES[i] := At(penaltiesRound, SIDES[i])];
        penalties := penalties[SIDES[i] := At(penalties, SIDES[i]) + penaltiesRound[SIDES[i]]];
        assert SIDES[..i + 1] == SIDES[..i] + [SIDES[i]];
      }
      assert SIDES[..4] == SIDES;
      EverySide();
      AllUpdated(old(GameState()), GameState());
    }

    method ClearTmpPenalties()
      modifies this`penaltiesRound
      ensures GameState() == old(GameState()).(penaltiesRound := NO_PENALTIES)
    {
      for i := 0 to |SIDES|
        invariant forall s: Side :: s in SIDES[..i] ==> s in penaltiesRound && penaltiesRound[s] == 0
      {
        penaltiesRound := penaltiesRound[SIDES[i] := 0];
        assert SIDES[..i + 1] == SIDES[..i] + [SIDES[i]];
      }
      assert SIDES[..4] == SIDES;
      EverySide();
    }

    /** Ends the game once: the cleaner is let go and every worker is told to quit. */
    method Finalize()
      modifies this`exiting, workerMgr
      ensures State() == S.Finalize(old(State()))
      ensures exiting && (!old(exiting) ==> S.AllOrdered(workerMgr.State()))
    {
      if exiting { return; }
      exiting := true;
      workerMgr.ReleaseCleaner();
      workerMgr.Finish();
    }

    // -------------------------------------------------------------- jobs for the seats

    /** Sends a job to whoever sits at a side; outs is what has been sent since the manager was in state m. */
    method SendTo(side: Side, job: Job, ghost m: S.Mgr, ghost outs: seq<Out>)
      requires workerMgr.State() == S.Post(m, activeSides, outs)
      modifies workerMgr
      ensures workerMgr.State() == S.Post(m, activeSides, outs + [Out(side, job)])
    {
      workerMgr.SendJob(job, activeSides[side]);
      S.PostSnoc(m, activeSides, outs, Out(side, job));
    }

    /** The same job to all four sides. */
    method SendAll(job: Job, ghost m: S.Mgr, ghost outs: seq<Out>)
      requires workerMgr.State() == S.Post(m, activeSides, outs)
      modifies workerMgr
      ensures workerMgr.State() == S.Post(m, activeSides, outs + ToAll(job))
    {
      hide S.Post;
      assert outs + ToAll(job)[..0] == outs;
      for i := 0 to |SIDES|
        invariant workerMgr.State() == S.Post(m, activeSides, outs + ToAll(job)[..i])
      {
        SendTo(SIDES[i], job, m, outs + ToAll(job)[..i]);
        assert outs + ToAll(job)[..i] + [Out(SIDES[i], job)] == outs + ToAll(job)[..i + 1];
      }
      assert ToAll(job)[..4] == ToAll(job);
    }

    method SendScores(ghost m: S.Mgr, ghost outs: seq<Out>)
      requires workerMgr.State() == S.Post(m, activeSides, outs)
      modifies workerMgr
      ensures workerMgr.State() == S.Post(m, activeSides, outs + AllScores(GameState()))
    {
      hide S.Post, S.SendJob;
      var msgScore := Score(penaltiesRound);
      var msgTotal := Total(penalties);
      ghost var all := AllScores(GameState());
      assert outs + all[..0] == outs;
      for i := 0 to |SIDES|
        invariant workerMgr.State() == S.Post(m, activeSides, outs + all[..2 * i])
      {
        SendTo(SIDES[i], msgScore, m, outs + all[..2 * i]);
        assert outs + all[..2 * i] + [Out(SIDES[i], msgScore)] == outs + all[..2 * i + 1];
        SendTo(SIDES[i], msgTotal, m, outs + all[..2 * i + 1]);
        assert outs + all[..2 * i + 1] + [Out(SIDES[i], msgTotal)] == outs + all[..2 * i + 2];
      }
      assert all[..8] == all;
    }

    method SendDeals(ghost m: S.Mgr, ghost outs: seq<Out>)
      requires workerMgr.State() == S.Post(m, activeSides, outs)
      modifies workerMgr
      ensures workerMgr.State() == S.Post(m, activeSides, outs + Deals(GameState()))
    {
      hide S.Post;
      assert outs + Deals(GameState())[..0] == outs;
      for i := 0 to |SIDES|
        invariant workerMgr.State() == S.Post(m, activeSides, outs + Deals(GameState())[..i])
      {
        SendTo(SIDES[i], Deal(roundMode, nextMove, hands[SIDES[i]]), m, outs + Deals(GameState())[..i]);
        DealsAt(GameState(), i);
        assert outs + Deals(GameState())[..i] + [DealTo(GameState(), SIDES[i])] == outs + Deals(GameState())[..i + 1];
      }
      assert Deals(GameState())[..4] == Deals(GameState());
    }

    // -------------------------------------------------------------- a move

    /** A full table is taken; the message about it is not yet in the log. */
    method Collect() returns (msgTaken: TakenJob)
      requires |table| == 4
      modifies this`table, this`nextMove, this`trickNo, this`penaltiesRound
      ensures GameState().(takenInRound := takenInRound + [msgTaken]) == Resolve(old(GameState()))
    {
      hide Taker, TrickPenaltyOf, Takes, At;
      ghost var g := GameState();
      var taker, penalty := WhoTakes(nextMove, table, roundMode, trickNo);
      ghost var g1 := Resolve(g);
      assert g1 == g.(nextMove := taker, table := [], trickNo := g.trickNo + 1, takenInRound := g1.takenInRound,
                      penaltiesRound := g1.penaltiesRound);
      nextMove := taker;
      penaltiesRound := penaltiesRound[taker := At(penaltiesRound, taker) + penalty];
      msgTaken := Taken(table, taker, trickNo);
      trickNo := trickNo + 1;
      table := [];
    }

    /** Everybody is told who has taken the trick, and the log remembers it. */
    method TakeTrick(ghost m: S.Mgr)
      requires |table| == 4 && workerMgr.State() == S.Post(m, activeSides, [])
      modifies this`table, this`nextMove, this`trickNo, this`penaltiesRound, this`takenInRound, workerMgr
      ensures GameState() == Resolve(old(GameState()))
      ensures takenInRound != [] && workerMgr.State() == S.Post(m, activeSides, ToAll(takenInRound[|takenInRound| - 1]))
    {
      hide S.Post, Resolve, ToAll;
      var msgTaken := Collect();
      assert [] + ToAll(msgTaken) == ToAll(msgTaken);
      SendAll(msgTaken, m, []);
      takenInRound := takenInRound + [msgTaken];
    }

    /** Scores and totals are sent, and the round is over. */
    method CloseRound(ghost m: S.Mgr, ghost outs: seq<Out>)
      requires workerMgr.State() == S.Post(m, activeSides, outs)
      modifies this`penalties, this`penaltiesRound, this`roundNumber, workerMgr
      ensures var g := G.UpdatePenalties(old(GameState()));
              && GameState() == g.(penaltiesRound := NO_PENALTIES, roundNumber := g.roundNumber + 1)
              && workerMgr.State() == S.Post(m, activeSides, outs + AllScores(g))
    {
      hide S.Post, G.UpdatePenalties, AllScores;
      UpdatePenalties();
      SendScores(m, outs);
      ClearTmpPenalties();
      roundNumber := roundNumber + 1;
    }

    /** The next round is dealt. */
    method DealNext(ghost m: S.Mgr, ghost outs: seq<Out>)
      requires roundNumber < |gameScenario| && workerMgr.State() == S.Post(m, activeSides, outs)
      modifies this`hands, this`nextMove, this`trickNo, this`roundMode, this`takenInRound, this`lastDeal, workerMgr
      ensures var g := G.PrepareRound(gameScenario, old(GameState()));
              && GameState() == g.(lastDeal := g.hands)
              && workerMgr.State() == S.Post(m, activeSides, outs + Deals(GameState()))
    {
      hide S.Post, G.PrepareRound, Deals;
      PrepareRound();
      lastDeal := hands;
      SendDeals(m, outs);
    }

    /** The round is closed; the next one is dealt, or the server finishes. */
    method EndRound(ghost m: S.Mgr, ghost outs: seq<Out>) returns (over: bool)
      requires roundNumber < |gameScenario| && workerMgr.State() == S.Post(m, activeSides, outs)
      modifies this`penalties, this`penaltiesRound, this`roundNumber, this`hands, this`nextMove, this`trickNo,
               this`roundMode, this`takenInRound, this`lastDeal, this`exiting, workerMgr
      ensures over == (roundNumber == |gameScenario|) && exiting == (over || old(exiting))
      ensures var u := G.UpdatePenalties(old(GameState()));
              var m1 := S.Post(m, activeSides, outs + AllScores(u));
              && GameState() == NextRound(gameScenario, u)
              && workerMgr.State() == if !over then S.Post(m, activeSides, outs + AllScores(u) + Deals(GameState()))
                                      else if old(exiting) then m1 else S.Finish(m1)
    {
      hide S.Post, G.UpdatePenalties, AllScores, Deals, NextRound, S.Finish, G.PrepareRound, RoundEndOuts, AskNext;
      ghost var g := GameState();
      CloseRound(m, outs);
      RoundEnd(gameScenario, g);
      over := NextOrNone(m, outs + AllScores(G.UpdatePenalties(g)));
    }

    /** The next round is dealt, or the server finishes. */
    method NextOrNone(ghost m: S.Mgr, ghost outs: seq<Out>) returns (over: bool)
      requires roundNumber <= |gameScenario| && workerMgr.State() == S.Post(m, activeSides, outs)
      modifies this`hands, this`nextMove, this`trickNo, this`roundMode, this`takenInRound, this`lastDeal,
               this`exiting, workerMgr
      ensures over == (roundNumber == |gameScenario|)
      ensures over ==>
                && GameState() == old(GameState()).(exiting := true)
                && workerMgr.State() == if old(exiting) then S.Post(m, activeSides, outs)
                   else S.Finish(S.Post(m, activeSides, outs))
      ensures !over ==>
                && (var g := G.PrepareRound(gameScenario, old(GameState())); GameState() == g.(lastDeal := g.hands))
                && exiting == old(exiting) && workerMgr.State() == S.Post(m, activeSides, outs + Deals(GameState()))
    {
      hide S.Post, Deals, S.Finish, G.PrepareRound;
      if roundNumber == |gameScenario| {
        Finalize();
        return true;
      }
      DealNext(m, outs);
      return false;
    }

    method PutOnTable(side: Side, card: Card)
      requires side == nextMove
      modifies this`hands, this`table, this`nextMove
      ensures GameState() == Place(old(GameState()), card)
    {
      table := table + [card];
      var hand := RmCardIfPresent(hands[side], card);
      hands := hands[side := hand];
      nextMove := Next(nextMove);
    }

    /** The fourth card: the trick is taken, and the thirteenth trick ends the round. */
    method FullTable(ghost m: S.Mgr) returns (over: bool, ghost outs: seq<Out>)
      requires |table| == 4 && roundNumber < |gameScenario| && workerMgr.State() == S.Post(m, activeSides, [])
      modifies this`hands, this`table, this`nextMove, this`roundNumber, this`trickNo, this`roundMode, this`penalties,
               this`penaltiesRound, this`takenInRound, this`lastDeal, this`exiting, workerMgr
      ensures Resolve(old(GameState())).takenInRound != []
      ensures ResolvedStages(gameScenario, Resolve(old(GameState())), GameState(),
                             if over then outs else outs + AskNext(GameState()))
      ensures exiting == (over || old(exiting))
      ensures workerMgr.State() == if over && !old(exiting) then S.Finish(S.Post(m, activeSides, outs))
              else S.Post(m, activeSides, outs)
    {
      hide S.Post, G.UpdatePenalties, AllScores, Deals, Resolve, NextRound, S.Finish, S.SendJob, RoundEndOuts, ToAll,
           AskNext;
      ResolveKeepsRound(GameState());
      TakeTrick(m);
      over, outs := false, ToAll(takenInRound[|takenInRound| - 1]);
      if trickNo == TRICKS_PER_ROUND + 1 {
        ghost var u := G.UpdatePenalties(GameState());
        RoundEnd(gameScenario, GameState());
        over := EndRound(m, outs);
        outs := outs + AllScores(u);
        if !over {
          outs := outs + Deals(GameState());
        }
      }
    }

    /** A legal card is played. */
    method PlayCard(side: Side, card: Card)
      requires Ready() && side == nextMove && LegalMove(hands[side], card, table)
      modifies this`hands, this`table, this`nextMove, this`roundNumber, this`trickNo, this`roundMode, this`penalties,
               this`penaltiesRound, this`takenInRound, this`lastDeal, this`exiting, workerMgr
      ensures GameState() == Accept(gameScenario, old(GameState()), card)
      ensures var m := S.Post(old(workerMgr.State()), activeSides, AcceptOuts(gameScenario, old(GameState()), card));
              workerMgr.State() == if exiting && !old(exiting) then S.Finish(m) else m
    {
      hide S.Post, G.UpdatePenalties, AllScores, Deals, Resolve, NextRound, S.Finish, S.SendJob, RoundEndOuts, Place,
           ToAll, Accept, AcceptOuts;
      ghost var m := workerMgr.State();
      AcceptStages(gameScenario, GameState(), card);
      NothingPosted(m, activeSides);
      PutOnTable(side, card);
      ghost var outs := [];
      if |table| == 4 {
        var over;
        over, outs := FullTable(m);
        if over { return; }
      }
      SendTo(nextMove, Trick(table, trickNo), m, outs);
    }

    /** A move by the worker of a side: played when it is that side's turn and the rules allow it, refused otherwise. */
    method TryMove(side: Side, trickNoArg: int, card: Card)
      requires Ready()
      modifies this, workerMgr
      ensures State() == S.MoveBy(gameScenario, old(State()), side, trickNoArg, card)
    {
      hide S.Post, S.Finish, S.SendJob, Accept, AcceptOuts, LegalMove;
      if trickNoArg != trickNo || nextMove != side {
        workerMgr.SendJob(Wrong(trickNo), activeSides[side]);
        return;
      }
      var legal := IsMoveLegal(side, card, hands, table);
      if !legal {
        workerMgr.SendJob(Wrong(trickNo), activeSides[side]);
        return;
      }
      PlayCard(side, card);
    }

    /** The callback for a TRICK of a client; false keeps the message for later. */
    method PlayerTricked(trickNoArg: int, card: Card, workerIx: int) returns (done: bool)
      requires Ready() && workerIx in workerMgr.roles
      modifies this, workerMgr
      ensures (State(), done) == S.PlayerTricked(gameScenario, old(State()), trickNoArg, card, workerIx)
    {
      hide S.MoveBy, S.SendKill, S.Finalize, S.Threw;
      if playersConnected < 4 {
        return false;
      }
      var side: Side;
      match workerMgr.roles[workerIx] {
        case ServingUnknown =>
          workerMgr.SetRole(workerIx, S.CleanupUnknown);
          workerMgr.SendKill(workerIx);
          return true;
        case ServingActive =>
          if workerIx !in workerToSide {
            workerMgr.Throw(workerIx);
            return true;
          }
          side := workerToSide[workerIx];
        case ServingProxy =>
          workerMgr.SetRole(workerIx, S.CleanupUnknown);
          Finalize();
          return true;
        case Cleanup =>
          if workerIx !in zombieWorkerToSide {
            workerMgr.Throw(workerIx);
            return true;
          }
          side := zombieWorkerToSide[workerIx];
        case CleanupUnknown =>
          return true;
        case Shutdown =>
          return true;
      }
      TryMove(side, trickNoArg, card);
      return true;
    }

    /** The round as it stands is replayed to a worker: the deal and the tricks taken so far. */
    method Replay(side: Side, workerIx: int)
      requires activeSides[side] == workerIx && lastDeal != map[]
      modifies workerMgr
      ensures workerMgr.State() == S.PostLog(
                S.SendJob(old(workerMgr.State()), Deal(roundMode, nextMove, S.LastDealOf(GameState(), side)), workerIx),
                workerIx, takenInRound)
    {
      hide S.SendJob;
      workerMgr.SendJob(Deal(roundMode, nextMove, if side in lastDeal then lastDeal[side] else []), activeSides[side]);
      ghost var m := workerMgr.State();
      for i := 0 to |takenInRound|
        invariant workerMgr.State() == S.PostLog(m, workerIx, takenInRound[..i])
      {
        workerMgr.SendJob(takenInRound[i], workerIx);
        LogSnoc(m, workerIx, takenInRound, i);
      }
      assert takenInRound[..|takenInRound|] == takenInRound;
    }

    /** What follows when a worker has sat down: the start of the game, or the replay of the round. */
    method Welcome(side: Side, workerIx: int)
      requires activeSides[side] == workerIx
      modifies this`lastDeal, workerMgr
      ensures GameState() == S.SeatGame(old(State())) && workerMgr.State() == S.SeatMail(old(State()), side, workerIx)
    {
      hide S.Post, S.PostLog, S.SendJob, Deals, S.LastDealOf;
      ghost var m := workerMgr.State();
      NothingPosted(m, activeSides);
      if playersConnected == 4 && lastDeal == map[] {
        lastDeal := hands;
        DealsIgnoreLastDeal(GameState(), old(lastDeal));
        assert [] + Deals(GameState()) == Deals(GameState());
        SendDeals(m, []);
        SendTo(nextMove, Trick(table, trickNo), m, Deals(GameState()));
      } else if lastDeal != map[] {
        Replay(side, workerIx);
        if playersConnected == 4 {
          m := workerMgr.State();
          NothingPosted(m, activeSides);
          assert [] + AskNext(GameState()) == AskNext(GameState());
          SendTo(nextMove, Trick(table, trickNo), m, []);
        }
      }
    }

    method SidesBusy() returns (busy: set<Side>)
      ensures busy == set x | x in activeSides && activeSides[x] != -1
    {
      busy := {};
      for i := 0 to |SIDES|
        invariant busy == set x | x in SIDES[..i] && activeSides[x] != -1
      {
        if activeSides[SIDES[i]] != -1 {
          busy := busy + {SIDES[i]};
        }
        assert SIDES[..i + 1] == SIDES[..i] + [SIDES[i]];
      }
      assert SIDES[..4] == SIDES;
      EverySide();
    }

    method SitDown(side: Side, workerIx: int)
      requires workerIx in workerMgr.roles
      modifies this`activeSides, this`workerToSide, this`playersConnected, workerMgr
      ensures activeSides == old(activeSides)[side := workerIx] && workerToSide == old(workerToSide)[workerIx := side]
      ensures playersConnected == old(playersConnected) + 1
      ensures workerMgr.State() == S.SetRole(old(workerMgr.State()), workerIx, S.ServingActive)
    {
      hide S.SetRole;
      activeSides := activeSides[side := workerIx];
      workerToSide := workerToSide[workerIx := side];
      workerMgr.SetRole(workerIx, S.ServingActive);
      playersConnected := playersConnected + 1;
    }

    /** A worker takes a free seat. */
    method TakeSeat(side: Side, workerIx: int)
      requires workerIx in workerMgr.roles
      modifies this`activeSides, this`workerToSide, this`playersConnected, this`lastDeal, workerMgr
      ensures State() == S.TakeSeat(old(State()), side, workerIx)
    {
      hide S.SeatMail, S.SeatGame, S.SetRole;
      ghost var s := State();
      SitDown(side, workerIx);
      assert State() == S.Seat(s, side, workerIx);
      Welcome(side, workerIx);
    }

    /** The callback for an IAM; false keeps the message for later. */
    method PlayerIntro(side: Side, workerIx: int) returns (done: bool)
      requires workerIx in workerMgr.roles
      modifies this, workerMgr
      ensures (State(), done) == S.PlayerIntro(old(State()), side, workerIx)
    {
      hide S.TakeSeat, S.SendKill, S.SendJob, S.SetRole;
      if workerMgr.roles[workerIx] != S.ServingUnknown {
        if playersConnected < 4 {
          return false;
        }
        workerMgr.SendKill(workerIx);
        KillKeepsRoles(old(workerMgr.State()), workerIx);
        workerMgr.SetRole(workerIx, S.Cleanup);
        return true;
      }
      if activeSides[side] == -1 {
        TakeSeat(side, workerIx);
      } else {
        workerMgr.SetRole(workerIx, S.CleanupUnknown);
        var busy := SidesBusy();
        workerMgr.SendJob(Busy(busy), workerIx);
      }
      return true;
    }

    /** The role is set and the worker is queued for erasure, in either order. */
    method Dismiss(workerIx: int)
      requires workerIx in workerMgr.roles
      modifies workerMgr
      ensures workerMgr.State() == S.Dismiss(old(workerMgr.State()), workerIx)
    {
      hide S.EraseWorker;
      EraseAndSetRole(workerMgr.State(), workerIx);
      workerMgr.SetRole(workerIx, S.Shutdown);
      workerMgr.EraseWorker(workerIx);
    }

    /** The seat of an active worker becomes free. */
    method Vacate(workerIx: int)
      requires workerIx in workerToSide
      modifies this`playersConnected, this`activeSides, this`zombieWorkerToSide, this`workerToSide
      ensures State() == old(State()).(
                playersConnected := old(playersConnected) - 1,
                activeSides := old(activeSides)[old(workerToSide)[workerIx] := -1],
                zombieWorkerToSide := old(zombieWorkerToSide)[workerIx := old(workerToSide)[workerIx]],
                workerToSide := old(workerToSide) - {workerIx})
    {
      var side := workerToSide[workerIx];
      playersConnected := playersConnected - 1;
      activeSides := activeSides[side := -1];
      zombieWorkerToSide := zombieWorkerToSide[workerIx := side];
      workerToSide := workerToSide - {workerIx};
    }

    /** The callback of a worker whose connection is gone; true lets its thread end. */
    method GrandExitCallback(workerIx: int, hasWork: bool) returns (end: bool)
      requires workerIx in workerMgr.roles
      modifies this, workerMgr
      ensures (State(), end) == S.GrandExit(old(State()), workerIx, hasWork)
    {
      hide S.EraseWorker, S.Finalize, S.Dismiss, S.SetRole, S.Threw;
      match workerMgr.roles[workerIx] {
        case ServingUnknown =>
          Dismiss(workerIx);
          return true;
        case ServingActive =>
          if workerIx !in workerToSide {
            workerMgr.Throw(workerIx);
            return true;
          }
          Vacate(workerIx);
          if hasWork || (playersConnected < 3 && !exiting) {
            workerMgr.SetRole(workerIx, S.Cleanup);
            return false;
          }
          Dismiss(workerIx);
          return true;
        case Cleanup =>
          if playersConnected == 4 && !hasWork {
            Dismiss(workerIx);
            return true;
          }
          return false;
        case Shutdown =>
          return true;
        case ServingProxy =>
          Dismiss(workerIx);
          Finalize();
          return true;
        case CleanupUnknown =>
          if playersConnected == 4 && !hasWork {
            Dismiss(workerIx);
            return true;
          }
          return false;
      }
    }

    /** A worker may send just when every side has a worker or the game is over; it sends under the same lock. */
    method ExecMutexed() returns (executed: bool)
      ensures Ses.SessionInv(State()) ==> (executed <==> exiting || Ses.Full(activeSides))
    {
      if Ses.SessionInv(State()) {
        EverySeatCounts(activeSides);
      }
      if playersConnected < 4 && !exiting {
        return false;
      }
      return true;
    }

    method HandleTimeout(workerIx: int)
      requires workerIx in workerMgr.roles
      modifies this, workerMgr
      ensures State() == S.HandleTimeout(old(State()), workerIx)
    {
      hide S.SendJob, S.SendKill;
      if exiting { return; }
      if workerMgr.roles[workerIx] == S.ServingUnknown {
        workerMgr.SendKill(workerIx);
      } else if workerMgr.roles[workerIx] == S.ServingActive {
        if workerIx !in workerToSide {
          workerMgr.Throw(workerIx);
          return;
        }
        if nextMove != workerToSide[workerIx] { return; }
        if playersConnected < 4 { return; }
        workerMgr.SendJob(Trick(table, trickNo), workerIx);
      }
    }

    method HandleWrongMessage(ix: int) returns (done: bool)
      modifies workerMgr
      ensures (State(), done) == S.HandleWrongMessage(old(State()), ix)
    {
      hide S.SendKill;
      if playersConnected < 4 && !exiting {
        return false;
      }
      workerMgr.SendKill(ix);
      return true;
    }

    /** A new connection gets a worker of its own. */
    method ForwardConnection() returns (ix: int)
      modifies workerMgr
      ensures ix == old(workerMgr.nextIx)
      ensures State() == old(State()).(mgr := S.Spawn(old(workerMgr.State()), S.ServingUnknown))
    {
      ix := workerMgr.SpawnNewWorker(S.ServingUnknown);
    }

    method FurtherMovesNeeded() returns (needed: bool)
      ensures needed <==> FurtherMoves(roundMode, hands)
    {
      needed := EarlyStop.FurtherMovesNeeded(roundMode, hands);
    }

    /** The first round is prepared and the listening worker is spawned. */
    method Run()
      requires gameScenario != []
      requires State() == S.Srv(
                G.Game(PerSide([], [], [], []), [], W, 0, 1, TrickPenalty, NO_PENALTIES, map[], [], map[], false),
                S.Mgr(map[], map[], {}, [], false, 0, {}), PerSide(-1, -1, -1, -1), map[], map[], 0)
      modifies this, workerMgr
      ensures State() == S.StartServer(gameScenario)
      ensures WellFormed(gameScenario) ==> Lawful()
    {
      hide CallbackRuns.Lawful;
      PrepareRound();
      var listener := workerMgr.SpawnNewWorker(S.ServingProxy);
      if WellFormed(gameScenario) {
        CallbackRuns.StartLawful(gameScenario);
      }
    }

    /** What every callback finds and leaves behind. */
    ghost predicate Lawful()
      reads this, workerMgr
    {
      CallbackRuns.Lawful(gameScenario, State())
    }

    /** Any callback that can occur finds what it relies on, does what it should and leaves the server lawful. */
    method Perform(c: Ses.Callback)
      requires Lawful() && Ses.CanOccur(State(), c)
      modifies this, workerMgr
      ensures |old(table)| <= 3 && State() == Ses.Perform(gameScenario, old(State()), c) && Lawful()
    {
      hide CallbackRuns.Lawful, S.PlayerIntro, S.PlayerTricked, S.GrandExit, S.HandleTimeout, S.HandleWrongMessage,
           S.Clear, S.Spawn, ReadyIn;
      CallbackRuns.PerformLawful(gameScenario, State(), c);
      LawfulIsReady(gameScenario, State());
      match c {
        case Connected => var ix := ForwardConnection();
        case IntroMsg(side, ix) => var done := PlayerIntro(side, ix);
        case TrickMsg(no, card, ix) => var done := PlayerTricked(no, card, ix);
        case BadMsg(ix) => var done := HandleWrongMessage(ix);
        case ExitCb(ix, hasWork) => var end := GrandExitCallback(ix, hasWork);
        case TimeoutCb(ix) => HandleTimeout(ix);
        case Cleaner => var last := workerMgr.ClearPass();
      }
    }
  }

  predicate ReadyIn(scn: Scenario, g: G.Game) {
    |g.table| <= 3 && g.roundNumber <= |scn| && (g.roundNumber == |scn| ==> forall s: Side :: g.hands[s] == [])
  }

  /** What the callbacks rely on holds in every state of a run, whatever the clients send. */
  lemma RunsAreReady(scn: Scenario, cs: seq<Ses.Callback>)
    requires WellFormed(scn)
    ensures ReadyIn(scn, Ses.Run(scn, S.StartServer(scn), cs).game)
  {
    hide CallbackRuns.Lawful, Ses.Run, ReadyIn;
    CallbackRuns.StartLawful(scn);
    CallbackRuns.RunLawful(scn, S.StartServer(scn), cs);
    LawfulIsReady(scn, Ses.Run(scn, S.StartServer(scn), cs));
  }

  lemma LawfulIsReady(scn: Scenario, s: S.Srv)
    requires CallbackRuns.Lawful(scn, s)
    ensures ReadyIn(scn, s.game)
  {
    hide CallbackRuns.GameSound, Ses.SessionInv;
    CallbackRuns.SoundTable(scn, s.game, s.playersConnected >= 4);
  }

  lemma EverySeatCounts(seats: S.Seating)
    ensures Ses.SeatsTaken(seats) >= 4 <==> Ses.Full(seats)
  {
    if Ses.SeatsTaken(seats) >= 4 {
      Ses.NobodyIsMissing(seats);
    }
  }

  /** A side's entry exists in both tables, and the round's penalty has been added to the total. */
  predicate Updated(total: map<Side, int>, round: map<Side, int>, total1: map<Side, int>, round1: map<Side, int>,
    s: Side) {
    s in round1 && s in total1 && round1[s] == At(round, s) && total1[s] == At(total, s) + At(round, s)
  }

  /** One more side is done when its entries are updated. */
  lemma AddOne(total0: map<Side, int>, round0: map<Side, int>, total: map<Side, int>, round: map<Side, int>,
      done: seq<Side>, s: Side)
    requires s !in done && forall x: Side :: At(round, x) == At(round0, x)
    requires forall x: Side :: if x in done then Updated(total0, round0, total, round, x)
             else At(total, x) == At(total0, x)
    ensures var round1 := round[s := At(round, s)];
            var total1 := total[s := At(total, s) + At(round, s)];
            && (forall x: Side :: At(round1, x) == At(round0, x))
            && (forall x: Side :: if x in done + [s] then Updated(total0, round0, total1, round1, x)
               else At(total1, x) == At(total0, x))
  {
  }

  /** What follows a trick that has been taken. */
  ghost predicate ResolvedStages(scn: Scenario, g2: G.Game, last: G.Game, outs: seq<Out>)
    requires g2.takenInRound != []
  {
    var ts := ToAll(g2.takenInRound[|g2.takenInRound| - 1]);
    if g2.trickNo != TRICKS_PER_ROUND + 1 then last == g2 && outs == ts + AskNext(g2)
    else
      var u := G.UpdatePenalties(g2);
      && last == NextRound(scn, u) && last.roundNumber == g2.roundNumber + 1
      && last.exiting == (g2.exiting || g2.roundNumber + 1 >= |scn|)
      && outs == if g2.roundNumber + 1 >= |scn| then ts + AllScores(u)
         else ts + AllScores(u) + Deals(last) + AskNext(last)
  }

  /** The stages of an accepted move and the jobs sent at each of them. */
  lemma AcceptStages(scn: Scenario, g: G.Game, card: Card)
    requires |g.table| <= 3
    ensures var g1 := Place(g, card);
            && |g1.table| == |g.table| + 1 && g1.roundNumber == g.roundNumber && g1.exiting == g.exiting
            && if |g1.table| < 4 then Accept(scn, g, card) == g1 && AcceptOuts(scn, g, card) == [] + AskNext(g1)
               else
                 var g2 := Resolve(g1);
                 && g2.roundNumber == g.roundNumber && g2.exiting == g.exiting
                 && g2.takenInRound != []
                 && ResolvedStages(scn, g2, Accept(scn, g, card), AcceptOuts(scn, g, card))
  {
    hide Taker, At, TrickPenaltyOf, RoundEndOuts, NextRound, G.UpdatePenalties, ToAll, AllScores, Deals;
    var g1 := Place(g, card);
    if |g1.table| == 4 {
      var g2 := Resolve(g1);
      RoundEnd(scn, g2);
      var ts, ss := ToAll(g2.takenInRound[|g2.takenInRound| - 1]), AllScores(G.UpdatePenalties(g2));
      var g3 := NextRound(scn, G.UpdatePenalties(g2));
      assert ts + (ss + (Deals(g3) + AskNext(g3))) == ts + ss + Deals(g3) + AskNext(g3);
      assert ts + (ss + []) == ts + ss;
    }
  }

  lemma ResolveKeepsRound(g: G.Game)
    requires |g.table| == 4
    ensures var g2 := Resolve(g); g2.roundNumber == g.roundNumber && g2.exiting == g.exiting && g2.takenInRound != []
  {
    hide Taker, At, TrickPenaltyOf;
  }

  lemma RoundEnd(scn: Scenario, g: G.Game)
    ensures var u := G.UpdatePenalties(g);
            var g1 := NextRound(scn, u);
            && u.roundNumber == g.roundNumber && u.exiting == g.exiting
            && (var v := u.(penaltiesRound := NO_PENALTIES, roundNumber := g.roundNumber + 1);
                g1 == if v.roundNumber >= |scn| then v.(exiting := true)
                      else var w := G.PrepareRound(scn, v); w.(lastDeal := w.hands))
            && g1.roundNumber == g.roundNumber + 1 && g1.exiting == (g.exiting || g.roundNumber + 1 >= |scn|)
            && RoundEndOuts(scn, g) == AllScores(u) + if g.roundNumber + 1 >= |scn| then [] else Deals(g1) + AskNext(g1)
  {
    hide Scores, Deals, AskNext;
  }

  lemma DealsAt(g: G.Game, i: nat)
    requires i < 4
    ensures Deals(g)[..i + 1] == Deals(g)[..i] + [DealTo(g, SIDES[i])]
  {
    assert Deals(g)[i] == DealTo(g, SIDES[i]);
  }

  lemma LogSnoc(m: S.Mgr, ix: int, log: seq<TakenJob>, i: nat)
    requires i < |log|
    ensures S.PostLog(m, ix, log[..i + 1]) == S.SendJob(S.PostLog(m, ix, log[..i]), log[i], ix)
  {
    assert log[..i + 1][..i] == log[..i];
  }

  lemma DealsIgnoreLastDeal(g: G.Game, d: map<Side, Hand>)
    ensures Deals(g.(lastDeal := d)) == Deals(g)
  {
  }

  lemma KillKeepsRoles(m: S.Mgr, ix: int)
    ensures S.SendKill(m, ix).roles == m.roles
  {
  }

  /** It does not matter which comes first. */
  lemma EraseAndSetRole(m: S.Mgr, ix: int)
    ensures S.EraseWorker(S.SetRole(m, ix, S.Shutdown), ix) == S.Dismiss(m, ix)
  {
  }

  lemma NothingPosted(m: S.Mgr, seats: S.Seating)
    ensures S.Post(m, seats, []) == m
  {
  }

  lemma EachOnce(i: nat)
    requires i < |SIDES|
    ensures SIDES[i] !in SIDES[..i]
  {
  }

  lemma AllUpdated(g: G.Game, g1: G.Game)
    requires forall s: Side :: Updated(g.penalties, g.penaltiesRound, g1.penalties, g1.penaltiesRound, s)
    requires g1 == g.(penalties := g1.penalties, penaltiesRound := g1.penaltiesRound)
    ensures g1 == G.UpdatePenalties(g)
  {
    hide At;
    var g2 := G.UpdatePenalties(g);
    forall s: Side
      ensures s in g1.penaltiesRound && s in g2.penaltiesRound && g1.penaltiesRound[s] == g2.penaltiesRound[s]
      ensures s in g1.penalties && s in g2.penalties && g1.penalties[s] == g2.penalties[s]
    {
      assert Updated(g.penalties, g.penaltiesRound, g1.penalties, g1.penaltiesRound, s);
      match s { case N => case E => case S => case W => }
    }
    assert g1.penaltiesRound == g2.penaltiesRound;
    assert g1.penalties == g2.penalties;
  }

  function AllScores(g: G.Game): seq<Out> {
    Scores(g, N) + Scores(g, S) + Scores(g, W) + Scores(g, E)
  }
}
