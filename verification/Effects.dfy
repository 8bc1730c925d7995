/**
  * What each callback does (server/server.cpp), said of what is there before and after it: who is told what, who is
  * ordered to quit, who is let go, and what the worker's thread is answered.
  */
module Effects {
  import opened Cards
  import opened Rules
  import opened Jobs
  import opened Game
  import opened GameInvariant
  import opened ServerState
  import opened Session
  import opened SessionRuns
  import opened Delivery
  import opened System
  import opened SystemProof
  import opened CallbackRuns
  import opened TurnOrder

  // ---------------------------------------------------------------- what can be seen

  /** Exactly the given jobs have been added, each to the end of the mailbox of its worker. */
  ghost predicate Told(m: Mgr, m1: Mgr, news: map<int, seq<Job>>) {
    && m1.mail.Keys == m.mail.Keys
    && forall x :: x in m.mail ==> m1.mail[x] == m.mail[x] + if x in news then news[x] else []
  }

  ghost predicate NobodyTold(m: Mgr, m1: Mgr) {
    m1.mail == m.mail
  }

  ghost predicate SameTable(s: Srv, s1: Srv) {
    && s1.activeSides == s.activeSides && s1.workerToSide == s.workerToSide
    && s1.zombieWorkerToSide == s.zombieWorkerToSide && s1.playersConnected == s.playersConnected
  }

  /** Nobody's role has changed and nobody has been queued for erasure. */
  ghost predicate SameWorkers(m: Mgr, m1: Mgr) {
    m1.roles == m.roles && m1.toErase == m.toErase && m1.nextIx == m.nextIx && m1.finishFlag == m.finishFlag
  }

  lemma FullIsFour(s: Srv)
    requires SessionInv(s)
    ensures s.playersConnected >= 4 <==> Full(s.activeSides)
    ensures s.playersConnected <= 4
  {
    if s.playersConnected >= 4 {
      NobodyIsMissing(s.activeSides);
    }
  }

  /** What the invariant says of one worker. */
  lemma WorkerFacts(s: Srv, ix: int)
    requires SessionInv(s) && ix in s.mgr.roles
    ensures ix != -1 && |s.game.table| <= 3
    ensures s.mgr.roles[ix] == ServingActive ==> ix in s.workerToSide && s.activeSides[s.workerToSide[ix]] == ix
    ensures forall x: Side :: s.activeSides[x] == ix ==> ix in s.workerToSide && s.workerToSide[ix] == x
    ensures s.mgr.roles[ix] != Shutdown ==> ix in s.mgr.mail && ix !in s.mgr.toErase
    ensures s.mgr.roles[ix] == ServingUnknown ==> ix !in s.workerToSide
  {
    hide SeatsTaken;
  }

  lemma SoundIsSession(s: Srv)
    requires SeatSound(s)
    ensures SessionInv(s) && Apart(s.activeSides)
    ensures forall x :: x in s.workerToSide ==> x in s.mgr.roles && s.mgr.roles[x] == ServingActive
  {
    hide SeatsTaken;
    MatchedIsApart(s.activeSides, s.workerToSide);
  }

  // ---------------------------------------------------------------- a timeout

  /**
   * After a timeout the worker of the side to move is asked again if all four are connected, and nobody else is told
   * anything; a worker that has not introduced itself is ordered to quit. Nothing else happens.
   */
  lemma TimeoutAsks(s: Srv, ix: int)
    requires SeatSound(s) && ix in s.mgr.roles && !s.game.exiting
    ensures var s1 := HandleTimeout(s, ix);
            var asked := Full(s.activeSides) && s.activeSides[s.game.nextMove] == ix;
            && s1.game == s.game && SameTable(s, s1) && SameWorkers(s.mgr, s1.mgr)
            && Told(s.mgr, s1.mgr, if asked then map[ix := [Trick(s.game.table, s.game.trickNo)]] else map[])
            && s1.mgr.killed == s.mgr.killed + (if s.mgr.roles[ix] == ServingUnknown then {ix} else {})
            && (asked ==> ix in s.mgr.mail)
  {
    hide SeatSound, HandleTimeout, Full, Told, SendJob, SendKill;
    TimeoutIs(s, ix);
    NothingTold(s.mgr);
    if s.mgr.roles[ix] == ServingUnknown {
      OrderGiven(s.mgr, ix);
    } else if ix in s.mgr.mail {
      JobTold(s.mgr, Trick(s.game.table, s.game.trickNo), ix);
    }
  }

  lemma TimeoutIs(s: Srv, ix: int)
    requires SeatSound(s) && ix in s.mgr.roles && !s.game.exiting
    ensures var asked := Full(s.activeSides) && s.activeSides[s.game.nextMove] == ix;
            var unknown := s.mgr.roles[ix] == ServingUnknown;
            && (asked || unknown ==> ix in s.mgr.mail) && !(asked && unknown)
            && HandleTimeout(s, ix)
            == s.(mgr := if unknown then SendKill(s.mgr, ix)
                         else if asked then SendJob(s.mgr, Trick(s.game.table, s.game.trickNo), ix)
                         else s.mgr)
  {
    SoundIsSession(s);
    FullIsFour(s);
    WorkerFacts(s, ix);
    hide SeatSound, SessionInv, Full, SendJob, SendKill;
  }

  lemma JobTold(m: Mgr, j: Job, ix: int)
    requires ix in m.mail
    ensures var m1 := SendJob(m, j, ix); Told(m, m1, map[ix := [j]]) && SameWorkers(m, m1) && m1.killed == m.killed
  {
  }

  lemma NothingTold(m: Mgr)
    ensures Told(m, m, map[])
  {
  }

  lemma OrderGiven(m: Mgr, ix: int)
    requires ix in m.mail
    ensures SendKill(m, ix) == m.(killed := m.killed + {ix})
    ensures Told(m, SendKill(m, ix), map[])
  {
  }

  /** In a mailbox something is added if and only if the worker sits at the side to move and all four are connected. */
  lemma TimeoutAsksIff(s: Srv, ix: int, x: int)
    requires SeatSound(s) && ix in s.mgr.roles && !s.game.exiting && x in s.mgr.mail
    ensures x in HandleTimeout(s, ix).mgr.mail
    ensures HandleTimeout(s, ix).mgr.mail[x] != s.mgr.mail[x]
            <==> x == ix && Full(s.activeSides) && s.activeSides[s.game.nextMove] == ix
  {
    hide SeatSound, HandleTimeout, Full;
    TimeoutAsks(s, ix);
    assert x in s.mgr.mail.Keys;
  }

  /** The same in every state of the system: the question reaches the channel of the client to move, and no other. */
  lemma TimerAsks(scn: Scenario, acts: seq<Act>, ix: int)
    requires WellFormed(scn) && Enabled(RunSystem(scn, Begin(scn), acts), Timer(ix))
    ensures var sys := RunSystem(scn, Begin(scn), acts);
            var s, sys1 := sys.srv, Do(scn, sys, Timer(ix));
            var asked := Full(s.activeSides) && s.activeSides[s.game.nextMove] == ix;
            && sys1.procs == sys.procs && sys1.srv.game == s.game && SameTable(s, sys1.srv)
            && SameWorkers(s.mgr, sys1.srv.mgr)
            && Told(s.mgr, sys1.srv.mgr, if asked then map[ix := [Trick(s.game.table, s.game.trickNo)]] else map[])
            && sys1.srv.mgr.killed == s.mgr.killed + (if s.mgr.roles[ix] == ServingUnknown then {ix} else {})
  {
    hide RunSystem, SeatSound, HandleTimeout, Told, SameTable, SameWorkers, Full, CleanMail, Over, Together;
    BeginHolds(scn);
    RunHolds(scn, Begin(scn), acts);
    TimeoutAsks(RunSystem(scn, Begin(scn), acts).srv, ix);
  }

  // ---------------------------------------------------------------- a worker reports its exit

  /**
   * Who may go: a worker with a seat or in clean-up only without work, and only while all four sides had a worker; one
   * that leaves its seat also when the game is over. The others may always go.
   */
  ghost predicate MayGo(s: Srv, ix: int, hasWork: bool)
    requires ix in s.mgr.roles
  {
    match s.mgr.roles[ix]
    case ServingActive => !hasWork && (Full(s.activeSides) || s.game.exiting)
    case Cleanup => !hasWork && Full(s.activeSides)
    case CleanupUnknown => !hasWork && Full(s.activeSides)
    case _ => true
  }

  /** The answer to a report, and what becomes of the worker: it is let go and shut down, or waits in clean-up. */
  lemma ExitAnswered(s: Srv, ix: int, hasWork: bool)
    requires SessionInv(s) && ix in s.mgr.roles
    ensures var (s1, end) := GrandExit(s, ix, hasWork);
            var role := s.mgr.roles[ix];
            && (end <==> MayGo(s, ix, hasWork))
            && s1.mgr.roles == s.mgr.roles[ix := if end then Shutdown else Cleaning(role)]
            && s1.mgr.toErase == s.mgr.toErase + (if end && role != Shutdown then [ix] else [])
            && NobodyTold(s.mgr, s1.mgr)
            && s1.game == s.game.(exiting := s.game.exiting || role == ServingProxy)
  {
    hide SessionInv, Finish, Full, Dismiss;
    FullIsFour(s);
    WorkerFacts(s, ix);
    Dismissal(s.mgr, ix);
    assert s.mgr.toErase + [] == s.mgr.toErase;
    assert s.mgr.roles[ix := s.mgr.roles[ix]] == s.mgr.roles;
    FinishFrame(Dismiss(s.mgr, ix));
  }

  lemma Dismissal(m: Mgr, ix: int)
    ensures var m1 := Dismiss(m, ix);
            && m1.roles == m.roles[ix := Shutdown] && m1.mail == m.mail && m1.killed == m.killed
            && (ix !in m.toErase ==> m1.toErase == m.toErase + [ix]) && m1.finishFlag == m.finishFlag
  {
  }

  lemma FinishFrame(m: Mgr)
    ensures Finish(m).mail == m.mail && Finish(m).roles == m.roles && Finish(m).toErase == m.toErase
  {
  }

  /** A worker that is not let go leaves its seat, or stays what it was. */
  function Cleaning(role: Role): Role {
    if role == ServingActive then Cleanup else role
  }

  /** Its seat is free from then on, and its side is remembered; nobody else's seat changes. */
  lemma ExitFreesTheSeat(s: Srv, ix: int, hasWork: bool, x: Side)
    requires SessionInv(s) && ix in s.mgr.roles
    ensures var s1 := GrandExit(s, ix, hasWork).0;
            var leaves := s.mgr.roles[ix] == ServingActive;
            && s1.activeSides[x] == (if leaves && s.activeSides[x] == ix then -1 else s.activeSides[x])
            && s1.workerToSide == (if leaves then s.workerToSide - {ix} else s.workerToSide)
            && (leaves && s.activeSides[x] == ix ==> ix in s1.zombieWorkerToSide && s1.zombieWorkerToSide[ix] == x)
            && (!leaves ==> s1.zombieWorkerToSide == s.zombieWorkerToSide)
  {
    hide SessionInv, Dismiss, Finish, SetRole, Full;
    WorkerFacts(s, ix);
  }

  /** Only a report by a worker that may go shuts it down. */
  lemma ShutByExit(scn: Scenario, s: Srv, c: Callback, x: int)
    requires SessionInv(s) && CanOccur(s, c)
    requires var s1 := Perform(scn, s, c); x in s1.mgr.roles && s1.mgr.roles[x] == Shutdown
    ensures x in s.mgr.roles
    ensures s.mgr.roles[x] != Shutdown ==> c.ExitCb? && c.ix == x && MayGo(s, x, c.hasWork)
  {
    hide SessionInv, GrandExit, PlayerTricked, PlayerIntro, HandleTimeout, HandleWrongMessage, MayGo;
    SmallTable(s);
    match c {
      case ExitCb(ix, hasWork) => ExitAnswered(s, ix, hasWork);
      case TrickMsg(trickNo, card, ix) => MoveRoles(scn, s, trickNo, card, ix);
      case IntroMsg(side, ix) => IntroRoles(s, side, ix);
      case BadMsg(ix) => BadMessageRoles(s, ix);
      case TimeoutCb(ix) => TimeoutRoles(s, ix);
      case _ =>
    }
  }

  lemma IntroRoles(s: Srv, side: Side, ix: int)
    requires Handler(s, ix)
    ensures var roles := PlayerIntro(s, side, ix).0.mgr.roles;
            || roles == s.mgr.roles || roles == s.mgr.roles[ix := ServingActive]
            || roles == s.mgr.roles[ix := Cleanup] || roles == s.mgr.roles[ix := CleanupUnknown]
  {
    hide TakeSeat, SendJob, SendKill, SetRole;
    var busy := set x | x in s.activeSides && s.activeSides[x] != -1;
    TakeSeatRoles(s, side, ix);
    JobRoles(s.mgr, CleanupUnknown, Busy(busy), ix);
    JobRoles(s.mgr, Cleanup, Busy(busy), ix);
  }

  lemma JobRoles(m: Mgr, role: Role, j: Job, ix: int)
    ensures SendJob(SetRole(m, ix, role), j, ix).roles == m.roles[ix := role]
    ensures SetRole(SendKill(m, ix), ix, role).roles == m.roles[ix := role]
  {
  }

  lemma TakeSeatRoles(s: Srv, side: Side, ix: int)
    ensures TakeSeat(s, side, ix).mgr.roles == s.mgr.roles[ix := ServingActive]
  {
    hide SeatMail, SeatGame;
    SeatMailRoles(Seat(s, side, ix), side, ix);
  }

  lemma TimeoutRoles(s: Srv, ix: int)
    requires ix in s.mgr.roles
    ensures HandleTimeout(s, ix).mgr.roles == s.mgr.roles
  {
    hide SendJob, SendKill;
    JobFrame(s.mgr, Trick(s.game.table, s.game.trickNo), ix);
  }

  lemma JobFrame(m: Mgr, j: Job, ix: int)
    ensures SendJob(m, j, ix).roles == m.roles && SendKill(m, ix).roles == m.roles
    ensures SendJob(m, j, ix).killed == m.killed && m.killed <= SendKill(m, ix).killed
    ensures SendJob(m, j, ix).finishFlag == m.finishFlag == SendKill(m, ix).finishFlag
  {
  }

  lemma BadMessageRoles(s: Srv, ix: int)
    ensures HandleWrongMessage(s, ix).0.mgr.roles == s.mgr.roles
  {
  }

  lemma MoveRoles(scn: Scenario, s: Srv, trickNo: int, card: Card, ix: int)
    requires SessionInv(s) && Handler(s, ix)
    ensures var roles := PlayerTricked(scn, s, trickNo, card, ix).0.mgr.roles;
            roles == s.mgr.roles || roles == s.mgr.roles[ix := CleanupUnknown]
  {
    hide MoveBy, Matched, SeatsTaken, Alive;
    if s.playersConnected >= 4 {
      if s.mgr.roles[ix] == ServingActive {
        MoveByKeeps(scn, s, s.workerToSide[ix], trickNo, card);
      } else if s.mgr.roles[ix] == Cleanup && ix in s.zombieWorkerToSide {
        MoveByKeeps(scn, s, s.zombieWorkerToSide[ix], trickNo, card);
      }
    }
  }

  /**
   * In every run: a worker that has been shut down or queued for erasure got there by a report of its own after which
   * it was let go, and had no work if it came from a seat or from clean-up.
   */
  lemma {:induction false} LeftWithoutWork(scn: Scenario, cs: seq<Callback>, x: int) returns (k: nat)
    requires scn != []
    requires var s := Run(scn, StartServer(scn), cs);
             (x in s.mgr.roles && s.mgr.roles[x] == Shutdown) || x in s.mgr.toErase
    ensures k < |cs| && cs[k].ExitCb? && cs[k].ix == x
    ensures var s := Run(scn, StartServer(scn), cs[..k]);
            x in s.mgr.roles && s.mgr.roles[x] != Shutdown && MayGo(s, x, cs[k].hasWork)
  {
    hide SessionInv, Perform, CanOccur, MayGo, Run;
    var start := StartServer(scn);
    RunKeepsStart(scn, cs);
    if x in Run(scn, start, cs).mgr.toErase {
      ErasedIsShut(Run(scn, start, cs), x);
    }
    if cs == [] {
      NobodyShutAtStart(scn, x);
      RunNothing(scn, start);
    } else {
      var init, c := cs[..|cs| - 1], cs[|cs| - 1];
      var s := Run(scn, start, init);
      LastCallback(scn, start, cs);
      RunKeepsStart(scn, init);
      SmallTable(s);
      if CanOccur(s, c) {
        ShutByExit(scn, s, c, x);
      }
      if s.mgr.roles[x] == Shutdown {
        k := LeftWithoutWork(scn, init, x);
        assert init[..k] == cs[..k];
      } else {
        k := |cs| - 1;
      }
    }
  }

  lemma RunKeepsStart(scn: Scenario, cs: seq<Callback>)
    requires scn != []
    ensures SessionInv(Run(scn, StartServer(scn), cs))
  {
    hide SessionInv, Run;
    StartServerIsFine(scn);
    RunKeeps(scn, StartServer(scn), cs);
  }

  lemma NobodyShutAtStart(scn: Scenario, x: int)
    requires scn != []
    ensures x in StartServer(scn).mgr.roles ==> StartServer(scn).mgr.roles[x] == ServingProxy
  {
    hide Start;
  }

  lemma ErasedIsShut(s: Srv, x: int)
    requires SessionInv(s) && x in s.mgr.toErase
    ensures x in s.mgr.roles && s.mgr.roles[x] == Shutdown
  {
    hide SeatsTaken, Matched;
  }

  lemma LastCallback(scn: Scenario, s: Srv, cs: seq<Callback>)
    requires cs != []
    ensures var before, c := Run(scn, s, cs[..|cs| - 1]), cs[|cs| - 1];
            Run(scn, s, cs)
            == if CanOccur(before, c) && |before.game.table| <= 3 then Perform(scn, before, c) else before
  {
    hide Perform, CanOccur, Run;
    var init, c := cs[..|cs| - 1], cs[|cs| - 1];
    assert cs == init + [c];
    RunAppend(scn, s, init, [c]);
    OneCallback(scn, Run(scn, s, init), c);
  }

  // ---------------------------------------------------------------- the end of the game

  /** Orders are not taken back; and if this has ended the game, everybody has been ordered to quit. */
  ghost predicate Orderly(s: Srv, s1: Srv) {
    && s.mgr.killed <= s1.mgr.killed
    && (s.mgr.finishFlag ==> s1.mgr.finishFlag)
    && (s.game.exiting ==> s1.game.exiting)
    && (!s.game.exiting && s1.game.exiting ==> AllOrdered(s1.mgr))
  }

  /** After every callback earlier orders stand, and the one that ends the game orders everybody to quit. */
  lemma EndOrders(scn: Scenario, s: Srv, c: Callback)
    requires SessionInv(s) && CanOccur(s, c)
    ensures |s.game.table| <= 3 && Orderly(s, Perform(scn, s, c))
  {
    SmallTable(s);
    hide SessionInv, GrandExit, PlayerTricked, PlayerIntro, HandleTimeout, HandleWrongMessage, Spawn, Clear, Orderly;
    match c {
      case Connected => OthersOrder(s, 0);
      case IntroMsg(side, ix) => IntroOrders(s, side, ix);
      case TrickMsg(trickNo, card, ix) => MoveOrders(scn, s, trickNo, card, ix);
      case BadMsg(ix) => OthersOrder(s, ix);
      case ExitCb(ix, hasWork) => ExitOrders(s, ix, hasWork);
      case TimeoutCb(ix) => OthersOrder(s, ix);
      case Cleaner => OthersOrder(s, 0);
    }
  }

  lemma OthersOrder(s: Srv, ix: int)
    ensures Orderly(s, s.(mgr := Spawn(s.mgr, ServingUnknown))) && Orderly(s, s.(mgr := Clear(s.mgr)))
    ensures ix in s.mgr.roles ==> Orderly(s, HandleTimeout(s, ix)) && Orderly(s, HandleWrongMessage(s, ix).0)
  {
    hide AllOrdered, SendJob, SendKill;
    JobFrame(s.mgr, Trick(s.game.table, s.game.trickNo), ix);
  }

  lemma FinishOrders(m: Mgr)
    ensures AllOrdered(Finish(m)) && m.killed <= Finish(m).killed
  {
  }

  lemma ExitOrders(s: Srv, ix: int, hasWork: bool)
    requires ix in s.mgr.roles
    ensures Orderly(s, GrandExit(s, ix, hasWork).0)
  {
    hide AllOrdered, Finish, Dismiss, SetRole;
    Dismissal(s.mgr, ix);
    FinishOrders(Dismiss(s.mgr, ix));
    JobKeepsOrders(s.mgr, Cleanup, Wrong(0), ix);
  }

  lemma IntroOrders(s: Srv, side: Side, ix: int)
    requires ix in s.mgr.roles
    ensures Orderly(s, PlayerIntro(s, side, ix).0)
  {
    hide AllOrdered, TakeSeat, SendJob, SendKill, SetRole;
    var busy := set x | x in s.activeSides && s.activeSides[x] != -1;
    TakeSeatOrders(s, side, ix);
    JobKeepsOrders(s.mgr, CleanupUnknown, Busy(busy), ix);
    JobKeepsOrders(s.mgr, Cleanup, Busy(busy), ix);
  }

  lemma JobKeepsOrders(m: Mgr, role: Role, j: Job, ix: int)
    ensures var m1 := SendJob(SetRole(m, ix, role), j, ix); m1.killed == m.killed && m1.finishFlag == m.finishFlag
    ensures var m1 := SetRole(SendKill(m, ix), ix, role); m.killed <= m1.killed && m1.finishFlag == m.finishFlag
    ensures SetRole(m, ix, role).killed == m.killed && SetRole(m, ix, role).finishFlag == m.finishFlag
  {
  }

  lemma TakeSeatOrders(s: Srv, side: Side, ix: int)
    ensures Orderly(s, TakeSeat(s, side, ix))
  {
    hide AllOrdered, SeatMail, SeatGame;
    SeatOrders(Seat(s, side, ix), side, ix);
  }

  lemma SeatOrders(s: Srv, side: Side, ix: int)
    ensures SeatMail(s, side, ix).(mail := s.mgr.mail, unknown := s.mgr.unknown) == s.mgr
    ensures SeatGame(s).exiting == s.game.exiting
  {
    hide Post, PostLog, Deals, AskNext;
    var g := s.game;
    var m := SendJob(s.mgr, Deal(g.roundMode, g.nextMove, LastDealOf(g, side)), ix);
    PostFrame(s.mgr, s.activeSides, Deals(g) + AskNext(g));
    PostLogFrame(m, ix, g.takenInRound);
    PostFrame(PostLog(m, ix, g.takenInRound), s.activeSides, AskNext(g));
  }

  lemma MoveOrders(scn: Scenario, s: Srv, trickNo: int, card: Card, ix: int)
    requires ix in s.mgr.roles && |s.game.table| <= 3
    ensures Orderly(s, PlayerTricked(scn, s, trickNo, card, ix).0)
  {
    hide AllOrdered, MoveBy, Finish;
    FinishOrders(SetRole(s.mgr, ix, CleanupUnknown));
    if s.mgr.roles[ix] == ServingActive && ix in s.workerToSide {
      MoveByOrders(scn, s, s.workerToSide[ix], trickNo, card);
    } else if s.mgr.roles[ix] == Cleanup && ix in s.zombieWorkerToSide {
      MoveByOrders(scn, s, s.zombieWorkerToSide[ix], trickNo, card);
    }
  }

  lemma MoveByOrders(scn: Scenario, s: Srv, side: Side, trickNo: int, card: Card)
    requires |s.game.table| <= 3
    ensures Orderly(s, MoveBy(scn, s, side, trickNo, card))
  {
    hide AllOrdered, Accept, AcceptOuts, Post, Accepted, Finish;
    var m := Post(s.mgr, s.activeSides, AcceptOuts(scn, s.game, card));
    PostFrame(s.mgr, s.activeSides, AcceptOuts(scn, s.game, card));
    FinishOrders(m);
    AcceptExiting(scn, s.game, card);
  }

  lemma AcceptExiting(scn: Scenario, g: Game, card: Card)
    requires |g.table| <= 3
    ensures g.exiting ==> Accept(scn, g, card).exiting
  {
    hide Taker, TrickPenaltyOf, At, UpdatePenalties;
    var g1 := Place(g, card);
    if |g1.table| == 4 {
      UpdateKeepsTheRest(Resolve(g1));
    }
  }

  /** In every run that stops the server, one callback has stopped it, and everybody was ordered to quit by it. */
  lemma {:induction false} EndOrderedInRuns(scn: Scenario, cs: seq<Callback>) returns (k: nat)
    requires scn != [] && Run(scn, StartServer(scn), cs).game.exiting
    ensures k < |cs| && !Run(scn, StartServer(scn), cs[..k]).game.exiting
    ensures var s, last := Run(scn, StartServer(scn), cs[..k + 1]), Run(scn, StartServer(scn), cs);
            && s.game.exiting && AllOrdered(s.mgr)
            && s.mgr.killed <= last.mgr.killed && last.mgr.finishFlag
  {
    hide SessionInv, Perform, CanOccur, Run, AllOrdered, StartServer;
    var start := StartServer(scn);
    if cs == [] {
      StartIsSound(scn);
      RunNothing(scn, start);
    } else {
      var init, c := cs[..|cs| - 1], cs[|cs| - 1];
      var s := Run(scn, start, init);
      LastCallback(scn, start, cs);
      RunKeepsStart(scn, init);
      if CanOccur(s, c) {
        EndOrders(scn, s, c);
      }
      if s.game.exiting {
        k := EndOrderedInRuns(scn, init);
        assert init[..k] == cs[..k] && init[..k + 1] == cs[..k + 1];
      } else {
        k := |cs| - 1;
        assert cs[..k + 1] == cs;
        OrderedHasFlag(Run(scn, start, cs).mgr);
      }
    }
  }

  lemma OrderedHasFlag(m: Mgr)
    requires AllOrdered(m)
    ensures m.finishFlag
  {
  }

  // ---------------------------------------------------------------- introductions

  /** A client that asks for a taken seat is told which sides have a worker; nothing else happens but to its role. */
  lemma RefusedIsTold(s: Srv, side: Side, ix: int)
    requires SessionInv(s) && ix in s.mgr.roles && s.mgr.roles[ix] == ServingUnknown && s.activeSides[side] != -1
    ensures var (s1, done) := PlayerIntro(s, side, ix);
            && done && ix in s.mgr.mail
            && Told(s.mgr, s1.mgr, map[ix := [Busy(set k | k in s.workerToSide :: s.workerToSide[k])]])
            && s1.game == s.game && SameTable(s, s1)
            && s1.mgr.roles == s.mgr.roles[ix := CleanupUnknown]
            && s1.mgr.toErase == s.mgr.toErase && s1.mgr.killed == s.mgr.killed
  {
    hide SeatsTaken;
    var busy := set x | x in s.activeSides && s.activeSides[x] != -1;
    var taken := set k | k in s.workerToSide :: s.workerToSide[k];
    forall x: Side ensures x in busy <==> x in taken {
      if x in busy {
        assert s.workerToSide[s.activeSides[x]] == x;
      }
    }
    assert busy == taken;
  }

  /** A worker that introduces itself again waits for all four; then it is ordered to quit and loses its role. */
  lemma SecondIntroIsOrdered(s: Srv, side: Side, ix: int)
    requires SessionInv(s) && Handler(s, ix) && s.mgr.roles[ix] != ServingUnknown
    ensures var (s1, done) := PlayerIntro(s, side, ix);
            && (done <==> Full(s.activeSides))
            && (!done ==> s1 == s)
            && (done ==>
                  && s1.game == s.game && SameTable(s, s1) && NobodyTold(s.mgr, s1.mgr)
                  && s1.mgr.killed == s.mgr.killed + {ix} && s1.mgr.toErase == s.mgr.toErase
                  && s1.mgr.roles == s.mgr.roles[ix := Cleanup])
  {
    hide SeatsTaken, Matched;
    FullIsFour(s);
  }

  /** What the worker of a side is told when ix has taken the given seat; full tells whether all four are there then. */
  ghost function Welcome(g: Game, full: bool, side: Side, x: Side): seq<Job> {
    if g.lastDeal == map[] then
      if !full then [] else [Deal(g.roundMode, g.nextMove, g.hands[x])] + Ask(g, x)
    else
      (if x == side then [Deal(g.roundMode, g.nextMove, LastDealOf(g, side))] + g.takenInRound else [])
      + (if full then Ask(g, x) else [])
  }

  /**
   * A client that asks for a free seat gets it. The fourth to come starts the game: everybody is dealt a hand, and the
   * side to move is asked. In a game that has started the newcomer is replayed the round, and when all four are there
   * again the side to move is asked.
   */
  lemma SeatedIsTold(s: Srv, side: Side, ix: int, x: Side)
    requires SeatSound(s) && Handler(s, ix) && s.mgr.roles[ix] == ServingUnknown && s.activeSides[side] == -1
    ensures var (s1, done) := PlayerIntro(s, side, ix);
            var seats := s.activeSides[side := ix];
            && done && s1.activeSides == seats && s1.workerToSide == s.workerToSide[ix := side]
            && s1.mgr.roles == s.mgr.roles[ix := ServingActive]
            && s1.mgr.killed == s.mgr.killed && s1.mgr.toErase == s.mgr.toErase
            && s1.game == s.game.(lastDeal := if Full(seats) && s.game.lastDeal == map[] then s.game.hands
                                             else s.game.lastDeal)
            && s1.mgr.mail.Keys == s.mgr.mail.Keys
            && (seats[x] != -1 && seats[x] in s.mgr.mail ==>
                  s1.mgr.mail[seats[x]] == s.mgr.mail[seats[x]] + Welcome(s.game, Full(seats), side, x))
  {
    hide SeatSound, SeatMail, Welcome, SeatGame;
    SeatIsSound(s, side, ix);
    SoundIsSession(s);
    var s1 := Seat(s, side, ix);
    SoundIsSession(s1);
    FullIsFour(s1);
    SeatOrders(s1, side, ix);
    WelcomeArrives(s1, side, ix, x);
  }

  /** Nobody without a seat is told anything when somebody sits down. */
  lemma NobodyElseIsTold(s: Srv, side: Side, ix: int, y: int)
    requires SessionInv(s) && Handler(s, ix) && s.mgr.roles[ix] == ServingUnknown && s.activeSides[side] == -1
    requires y in s.mgr.mail && y != ix && forall x: Side :: s.activeSides[x] != y
    ensures var s1 := PlayerIntro(s, side, ix).0; y in s1.mgr.mail && s1.mgr.mail[y] == s.mgr.mail[y]
  {
    WorkerFacts(s, ix);
    hide SessionInv, SeatMail, SeatGame;
    SeatMailMisses(Seat(s, side, ix), side, ix, y);
  }

  lemma SeatMailMisses(s: Srv, side: Side, ix: int, y: int)
    requires ix in s.mgr.mail && y in s.mgr.mail && y != ix && forall x: Side :: s.activeSides[x] != y
    ensures var m := SeatMail(s, side, ix); y in m.mail && m.mail[y] == s.mgr.mail[y]
  {
    hide Post, PostLog, Deals, AskNext, LastDealOf;
    var g := s.game;
    var m := SendJob(s.mgr, Deal(g.roundMode, g.nextMove, LastDealOf(g, side)), ix);
    PostMisses(s.mgr, s.activeSides, Deals(g) + AskNext(g), y);
    PostLogReaches(m, ix, g.takenInRound, y);
    PostMisses(PostLog(m, ix, g.takenInRound), s.activeSides, AskNext(g), y);
  }

  lemma WelcomeArrives(s: Srv, side: Side, ix: int, x: Side)
    requires Apart(s.activeSides) && s.activeSides[side] == ix && ix in s.mgr.mail && ix != -1
    requires s.playersConnected <= 4 && (s.playersConnected == 4 <==> Full(s.activeSides))
    ensures SeatMail(s, side, ix).mail.Keys == s.mgr.mail.Keys
    ensures SeatGame(s) == s.game.(lastDeal := if Full(s.activeSides) && s.game.lastDeal == map[] then s.game.hands
                                              else s.game.lastDeal)
    ensures var y := s.activeSides[x];
            y != -1 && y in s.mgr.mail ==>
              SeatMail(s, side, ix).mail[y] == s.mgr.mail[y] + Welcome(s.game, Full(s.activeSides), side, x)
  {
    hide Post, PostLog, Deals, AskNext, Full, LastDealOf, JobsFor;
    if s.game.lastDeal == map[] {
      PostFrame(s.mgr, s.activeSides, Deals(s.game) + AskNext(s.game));
      if s.activeSides[x] != -1 && s.activeSides[x] in s.mgr.mail {
        FirstDealArrives(s.mgr, s.activeSides, s.game, x);
      }
    } else {
      ReplayArrives(s.mgr, s.activeSides, s.game, side, ix, x);
    }
  }

  lemma FirstDealArrives(m: Mgr, seats: Seating, g: Game, x: Side)
    requires Apart(seats) && seats[x] != -1 && seats[x] in m.mail
    ensures seats[x] in Post(m, seats, Deals(g) + AskNext(g)).mail
    ensures Post(m, seats, Deals(g) + AskNext(g)).mail[seats[x]]
         == m.mail[seats[x]] + ([Deal(g.roundMode, g.nextMove, g.hands[x])] + Ask(g, x))
  {
    hide Post, Deals, AskNext, JobsFor;
    PostReaches(m, seats, Deals(g) + AskNext(g), x);
    JobsForAppend(Deals(g), AskNext(g), x);
    JobsForDeals(g, x);
    JobsForAsk(g, x);
  }

  lemma ReplayArrives(m: Mgr, seats: Seating, g: Game, side: Side, ix: int, x: Side)
    requires Apart(seats) && seats[side] == ix && ix in m.mail && ix != -1
    ensures var deal := Deal(g.roundMode, g.nextMove, LastDealOf(g, side));
            var m1 := PostLog(SendJob(m, deal, ix), ix, g.takenInRound);
            var m2 := Post(m1, seats, AskNext(g));
            var replay := if x == side then [deal] + g.takenInRound else [];
            && m1.mail.Keys == m.mail.Keys && m2.mail.Keys == m.mail.Keys
            && (seats[x] != -1 && seats[x] in m.mail ==>
                  && m1.mail[seats[x]] == m.mail[seats[x]] + replay
                  && m2.mail[seats[x]] == m.mail[seats[x]] + (replay + Ask(g, x)))
  {
    hide Post, PostLog, AskNext, JobsFor, LastDealOf;
    var deal, y := Deal(g.roundMode, g.nextMove, LastDealOf(g, side)), seats[x];
    var m0 := SendJob(m, deal, ix);
    var m1 := PostLog(m0, ix, g.takenInRound);
    PostLogFrame(m0, ix, g.takenInRound);
    PostFrame(m1, seats, AskNext(g));
    if y != -1 && y in m.mail {
      PostLogReaches(m0, ix, g.takenInRound, y);
      assert y in m1.mail.Keys;
      PostReaches(m1, seats, AskNext(g), x);
      JobsForAsk(g, x);
      if x == side {
        assert m.mail[ix] + [deal] + g.takenInRound == m.mail[ix] + ([deal] + g.takenInRound);
      }
    }
  }

  // ---------------------------------------------------------------- moves

  /** Whether a side may play the card now: its turn, the open trick, a card it holds, and it follows suit if it can. */
  ghost predicate MayPlay(g: Game, side: Side, trickNo: int, card: Card) {
    && trickNo == g.trickNo && side == g.nextMove && card in g.hands[side]
    && (|| g.table == [] || card.color == g.table[0].color
        || forall c :: c in g.hands[side] ==> c.color != g.table[0].color)
  }

  /** The worker plays for the side: it has the seat, or it had it and is in clean-up. */
  ghost predicate PlaysFor(s: Srv, ix: int, side: Side) {
    && ix in s.mgr.roles
    && (|| (s.mgr.roles[ix] == ServingActive && ix in s.workerToSide && s.workerToSide[ix] == side)
        || (s.mgr.roles[ix] == Cleanup && ix in s.zombieWorkerToSide && s.zombieWorkerToSide[ix] == side))
  }

  /** A move waits until all four are connected. */
  lemma MoveWaits(scn: Scenario, s: Srv, trickNo: int, card: Card, ix: int)
    requires SessionInv(s) && Handler(s, ix)
    ensures var (s1, done) := PlayerTricked(scn, s, trickNo, card, ix);
            && (done <==> Full(s.activeSides))
            && (!done ==> s1 == s)
  {
    FullIsFour(s);
    SmallTable(s);
    WorkerFacts(s, ix);
    hide SessionInv, MoveBy, Full;
  }

  /** A move that a side may not make changes nothing; whoever has the seat is told WRONG and the trick number. */
  lemma RefusedMoveIsTold(scn: Scenario, s: Srv, side: Side, trickNo: int, card: Card, ix: int)
    requires SeatSound(s) && Full(s.activeSides) && PlaysFor(s, ix, side) && !MayPlay(s.game, side, trickNo, card)
    ensures var s1 := PlayerTricked(scn, s, trickNo, card, ix).0;
            && s1.game == s.game && SameTable(s, s1) && SameWorkers(s.mgr, s1.mgr) && s1.mgr.killed == s.mgr.killed
            && Told(s.mgr, s1.mgr, map[s.activeSides[side] := [Wrong(s.game.trickNo)]])
  {
    SoundIsSession(s);
    FullIsFour(s);
    SmallTable(s);
    SeatedIsServed(s, side);
    hide SessionInv, SeatSound, PlayerTricked, MoveBy, PlaysFor, MayPlay, Full, Told, SendJob, Accept, AcceptOuts, Post,
         SameWorkers;
    TrickIsMove(scn, s, side, trickNo, card, ix);
    MovesEffect(scn, s, side, trickNo, card);
    JobTold(s.mgr, Wrong(s.game.trickNo), s.activeSides[side]);
  }

  /** A move that it may make is accepted: each seat is told what the move brings it, nobody else is told anything. */
  lemma AcceptedMoveIsTold(scn: Scenario, s: Srv, side: Side, trickNo: int, card: Card, ix: int, x: int)
    requires SeatSound(s) && Full(s.activeSides) && PlaysFor(s, ix, side) && MayPlay(s.game, side, trickNo, card)
    requires x in s.mgr.mail
    ensures |s.game.table| <= 3
    ensures var s1 := PlayerTricked(scn, s, trickNo, card, ix).0;
            && s1.game == Accept(scn, s.game, card) && SameTable(s, s1)
            && s1.mgr.roles == s.mgr.roles && s1.mgr.toErase == s.mgr.toErase && s1.mgr.mail.Keys == s.mgr.mail.Keys
            && (forall y: Side :: s.activeSides[y] == x ==>
                  s1.mgr.mail[x] == s.mgr.mail[x] + JobsFor(AcceptOuts(scn, s.game, card), y))
            && ((forall y: Side :: s.activeSides[y] != x) ==> s1.mgr.mail[x] == s.mgr.mail[x])
  {
    SoundIsSession(s);
    FullIsFour(s);
    SmallTable(s);
    hide SessionInv, SeatSound, PlayerTricked, MoveBy, PlaysFor, MayPlay, Accept, AcceptOuts, Post, JobsFor,
         Apart, Finish;
    var outs := AcceptOuts(scn, s.game, card);
    TrickIsMove(scn, s, side, trickNo, card, ix);
    MovesEffect(scn, s, side, trickNo, card);
    PostFrame(s.mgr, s.activeSides, outs);
    if y: Side :| s.activeSides[y] == x {
      PostReaches(s.mgr, s.activeSides, outs, y);
      OneSide(s.activeSides, x, y);
    } else {
      PostMisses(s.mgr, s.activeSides, outs, x);
    }
  }

  /**
   * After the first, second and third card of a trick exactly one worker is told anything: the one at the side that is
   * one place on in the order north, east, south, west.
   */
  lemma NextIsTold(scn: Scenario, s: Srv, i: nat, trickNo: int, card: Card, ix: int)
    requires i < 4 && s.game.nextMove == CLOCKWISE[i] && |s.game.table| <= 2
    requires SeatSound(s) && Full(s.activeSides) && PlaysFor(s, ix, CLOCKWISE[i])
    requires MayPlay(s.game, CLOCKWISE[i], trickNo, card)
    ensures var s1 := PlayerTricked(scn, s, trickNo, card, ix).0;
            var next := CLOCKWISE[(i + 1) % 4];
            && s1.game.nextMove == next && s1.game.table == s.game.table + [card]
            && s.activeSides[next] in s.mgr.mail
            && Told(s.mgr, s1.mgr, map[s.activeSides[next] := [Trick(s.game.table + [card], s.game.trickNo)]])
  {
    SoundIsSession(s);
    FullIsFour(s);
    var next := CLOCKWISE[(i + 1) % 4];
    var job := Trick(s.game.table + [card], s.game.trickNo);
    SeatedIsServed(s, next);
    hide SessionInv, SeatSound, PlayerTricked, MoveBy, PlaysFor, MayPlay, Full, Accept, AcceptOuts, Told, Post, SendJob;
    TrickIsMove(scn, s, CLOCKWISE[i], trickNo, card, ix);
    MovesEffect(scn, s, CLOCKWISE[i], trickNo, card);
    NextIsAsked(scn, s.game, i, card);
    PostOne(s.mgr, s.activeSides, Out(next, job));
    JobTold(s.mgr, job, s.activeSides[next]);
    SameMailTold(s.mgr, SendJob(s.mgr, job, s.activeSides[next]),
                 PlayerTricked(scn, s, trickNo, card, ix).0.mgr, map[s.activeSides[next] := [job]]);
  }

  lemma PostOne(m: Mgr, seats: Seating, o: Out)
    ensures Post(m, seats, [o]) == SendJob(m, o.job, seats[o.to])
  {
    assert [o][..0] == [];
    assert Post(m, seats, []) == m;
  }

  lemma SameMailTold(m: Mgr, m1: Mgr, m2: Mgr, news: map<int, seq<Job>>)
    requires Told(m, m1, news) && m2.mail == m1.mail
    ensures Told(m, m2, news)
  {
  }

  lemma TrickIsMove(scn: Scenario, s: Srv, side: Side, trickNo: int, card: Card, ix: int)
    requires s.playersConnected >= 4 && |s.game.table| <= 3 && PlaysFor(s, ix, side)
    ensures PlayerTricked(scn, s, trickNo, card, ix) == (MoveBy(scn, s, side, trickNo, card), true)
  {
    hide MoveBy;
  }

  lemma MovesEffect(scn: Scenario, s: Srv, side: Side, trickNo: int, card: Card)
    requires |s.game.table| <= 3
    ensures var s1 := MoveBy(scn, s, side, trickNo, card);
            if MayPlay(s.game, side, trickNo, card) then
              var m := Post(s.mgr, s.activeSides, AcceptOuts(scn, s.game, card));
              && s1.game == Accept(scn, s.game, card) && SameTable(s, s1)
              && s1.mgr.mail == m.mail && s1.mgr.roles == m.roles && s1.mgr.toErase == m.toErase
            else
              s1 == s.(mgr := SendJob(s.mgr, Wrong(s.game.trickNo), s.activeSides[side]))
  {
    hide Accept, AcceptOuts, Post;
  }

  lemma OneSide(seats: Seating, x: int, y: Side)
    requires Apart(seats) && seats[y] == x && Full(seats)
    ensures forall z: Side :: seats[z] == x ==> z == y
  {
  }

  /** A move by a worker that has not introduced itself: it is ordered to quit and told nothing. */
  lemma StrangersMoveIsOrdered(scn: Scenario, s: Srv, trickNo: int, card: Card, ix: int)
    requires SessionInv(s) && Full(s.activeSides) && ix in s.mgr.roles && s.mgr.roles[ix] == ServingUnknown
    ensures |s.game.table| <= 3
    ensures var s1 := PlayerTricked(scn, s, trickNo, card, ix).0;
            && s1.game == s.game && SameTable(s, s1) && NobodyTold(s.mgr, s1.mgr)
            && s1.mgr.killed == s.mgr.killed + {ix} && s1.mgr.toErase == s.mgr.toErase
            && s1.mgr.roles == s.mgr.roles[ix := CleanupUnknown]
  {
    FullIsFour(s);
    hide SeatsTaken, Matched;
  }

  // ---------------------------------------------------------------- the other callbacks

  /** A message that is not understood gets its worker ordered to quit, once all four are there or the game is over. */
  lemma BadMessageIsOrdered(s: Srv, ix: int)
    requires SessionInv(s) && Handler(s, ix)
    ensures var (s1, done) := HandleWrongMessage(s, ix);
            && (done <==> Full(s.activeSides) || s.game.exiting)
            && (!done ==> s1 == s)
            && s1.game == s.game && SameTable(s, s1) && SameWorkers(s.mgr, s1.mgr) && NobodyTold(s.mgr, s1.mgr)
            && s1.mgr.killed == s.mgr.killed + (if done then {ix} else {})
  {
    FullIsFour(s);
    hide SeatsTaken, Matched;
  }

  /** A new connection gets a worker of its own, with an empty mailbox; nothing else changes. */
  lemma NewWorker(scn: Scenario, s: Srv)
    requires SessionInv(s)
    ensures |s.game.table| <= 3
    ensures var s1, ix := Perform(scn, s, Connected), s.mgr.nextIx;
            && ix !in s.mgr.mail && ix !in s.mgr.roles
            && s1.mgr.mail == s.mgr.mail[ix := []] && s1.mgr.roles == s.mgr.roles[ix := ServingUnknown]
            && s1.game == s.game && SameTable(s, s1)
            && s1.mgr.killed == s.mgr.killed && s1.mgr.toErase == s.mgr.toErase
  {
    hide SeatsTaken, Matched;
  }

  /** The cleaner takes away the mailboxes of exactly the workers queued for erasure. */
  lemma CleanerTakesAway(scn: Scenario, s: Srv, x: int)
    requires SessionInv(s)
    ensures |s.game.table| <= 3
    ensures var s1 := Perform(scn, s, Cleaner);
            && (x in s1.mgr.mail <==> x in s.mgr.mail && x !in s.mgr.toErase)
            && (x in s1.mgr.mail ==> s1.mgr.mail[x] == s.mgr.mail[x])
            && s1.mgr.toErase == [] && s1.mgr.roles == s.mgr.roles && s1.mgr.killed == s.mgr.killed
            && s1.game == s.game && SameTable(s, s1)
  {
    hide SeatsTaken, Matched;
  }
}
