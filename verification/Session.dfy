/** Seats, roles and mailboxes over all interleavings of the server's callbacks (server/server.cpp). */
module Session {
  import opened Cards
  import opened Jobs
  import opened Game
  import opened GameRuns
  import opened ServerState

  function Occupied(seats: Seating, s: Side): int {
    if seats[s] == -1 then 0 else 1
  }

  function SeatsTaken(seats: Seating): int {
    Occupied(seats, N) + Occupied(seats, E) + Occupied(seats, S) + Occupied(seats, W)
  }

  // ---------------------------------------------------------------- the invariant

  /** Sides and workers are matched one to one. */
  ghost predicate Matched(seats: Seating, sideOf: map<int, Side>) {
    && (forall side: Side :: seats[side] == -1 || (seats[side] in sideOf && sideOf[seats[side]] == side))
    && (forall ix :: ix in sideOf ==> ix >= 0 && seats[sideOf[ix]] == ix)
  }

  ghost predicate RolesFit(roles: map<int, Role>, sideOf: map<int, Side>, zombies: map<int, Side>) {
    && (forall ix :: ix in sideOf || ix in zombies ==> ix in roles)
    && (forall ix :: ix in roles && roles[ix] == ServingActive ==> ix in sideOf)
    && (forall ix :: ix in roles && roles[ix] == ServingUnknown ==> ix !in sideOf && ix !in zombies)
    && (forall ix :: ix in roles && roles[ix] == ServingProxy ==> ix !in sideOf)
  }

  ghost predicate Full(seats: Seating) {
    forall s: Side :: seats[s] != -1
  }

  /** A worker keeps its mailbox until it is shut down; ids are not reused. */
  ghost predicate Alive(m: Mgr) {
    && (forall ix :: ix in m.roles ==> 0 <= ix < m.nextIx)
    && (forall ix :: ix in m.mail ==> ix in m.roles)
    && (forall ix :: ix in m.roles && m.roles[ix] != Shutdown ==> ix in m.mail && ix !in m.toErase)
    && (forall ix :: ix in m.toErase ==> ix in m.roles)
    && -1 !in m.unknown
  }

  ghost predicate SessionInv(s: Srv) {
    && Matched(s.activeSides, s.workerToSide)
    && RolesFit(s.mgr.roles, s.workerToSide, s.zombieWorkerToSide)
    && Alive(s.mgr)
    && s.playersConnected == SeatsTaken(s.activeSides)
    && |s.game.table| <= 3
  }

  // ---------------------------------------------------------------- posting jobs

  /** Posting only appends to mailboxes and records failed lookups of seat numbers. */
  lemma {:induction false} PostFrame(m: Mgr, seats: Seating, outs: seq<Out>)
    ensures var m1 := Post(m, seats, outs);
            && m1.(mail := m.mail, unknown := m.unknown) == m
            && m1.mail.Keys == m.mail.Keys
            && (forall x :: x in m1.unknown ==> x in m.unknown || exists s: Side :: seats[s] == x)
            && ((forall s: Side :: seats[s] in m.mail) ==> m1.unknown == m.unknown)
  {
    if outs != [] {
      PostFrame(m, seats, outs[..|outs| - 1]);
    }
  }

  lemma {:induction false} PostLogFrame(m: Mgr, ix: int, log: seq<TakenJob>)
    ensures var m1 := PostLog(m, ix, log);
            && m1.(mail := m.mail, unknown := m.unknown) == m
            && m1.mail.Keys == m.mail.Keys
            && (forall x :: x in m1.unknown ==> x in m.unknown || x == ix)
            && (ix in m.mail ==> m1.unknown == m.unknown)
  {
    if log != [] {
      PostLogFrame(m, ix, log[..|log| - 1]);
    }
  }

  /** With four players connected every side has a worker, so no job is addressed to worker -1. */
  lemma NobodyIsMissing(seats: Seating)
    requires SeatsTaken(seats) >= 4
    ensures Full(seats)
  {
    forall side: Side ensures seats[side] != -1 {
      match side { case N => case E => case S => case W => }
    }
  }

  /** Nothing but mailbox contents, kill orders and failed lookups has changed. */
  ghost predicate MailOnly(m: Mgr, m1: Mgr) {
    && m1.roles == m.roles && m1.toErase == m.toErase && m1.nextIx == m.nextIx
    && m1.mail.Keys == m.mail.Keys
    && (-1 in m1.unknown ==> -1 in m.unknown)
  }

  lemma PostSafe(m: Mgr, seats: Seating, outs: seq<Out>)
    requires Full(seats)
    ensures MailOnly(m, Post(m, seats, outs))
  {
    hide Post;
    PostFrame(m, seats, outs);
  }

  lemma PostLogSafe(m: Mgr, ix: int, log: seq<TakenJob>)
    requires ix != -1
    ensures MailOnly(m, PostLog(m, ix, log))
  {
    hide PostLog;
    PostLogFrame(m, ix, log);
  }

  lemma SendJobSafe(m: Mgr, job: Job, ix: int)
    requires ix != -1
    ensures MailOnly(m, SendJob(m, job, ix)) && MailOnly(m, SendKill(m, ix)) && MailOnly(m, Threw(m, ix))
  {
  }

  ghost predicate SameSeats(s: Srv, s1: Srv) {
    && s1.activeSides == s.activeSides && s1.workerToSide == s.workerToSide
    && s1.zombieWorkerToSide == s.zombieWorkerToSide && s1.playersConnected == s.playersConnected
    && |s1.game.table| <= 3
  }

  lemma MailOnlyKeeps(s: Srv, s1: Srv)
    requires SessionInv(s) && SameSeats(s, s1) && MailOnly(s.mgr, s1.mgr)
    ensures SessionInv(s1)
  {
    hide SeatsTaken;
  }

  /** A worker that has spoken moves on to a clean-up role; it keeps its mailbox. */
  lemma RoleKeeps(s: Srv, ix: int, role: Role)
    requires SessionInv(s) && ix in s.mgr.roles && s.mgr.roles[ix] != Shutdown
    requires role == Cleanup || role == CleanupUnknown
    ensures SessionInv(s.(mgr := SetRole(s.mgr, ix, role)))
  {
    hide SeatsTaken;
  }

  lemma DismissKeeps(s: Srv, ix: int)
    requires SessionInv(s) && ix in s.mgr.roles
    ensures SessionInv(s.(mgr := Dismiss(s.mgr, ix)))
  {
    hide SeatsTaken, Matched;
  }

  // ---------------------------------------------------------------- each callback keeps the invariant

  lemma MoveByKeeps(scn: Scenario, s: Srv, side: Side, trickNo: int, card: Card)
    requires SessionInv(s) && s.playersConnected >= 4
    ensures var s1 := MoveBy(scn, s, side, trickNo, card);
            SessionInv(s1) && SameSeats(s, s1) && MailOnly(s.mgr, s1.mgr)
  {
    hide Accept, AcceptOuts, Accepted, Post, Matched, RolesFit, Alive, SeatsTaken;
    NobodyIsMissing(s.activeSides);
    PostSafe(s.mgr, s.activeSides, AcceptOuts(scn, s.game, card));
    SendJobSafe(s.mgr, Wrong(s.game.trickNo), s.activeSides[side]);
    FinishedTable(scn, s.game, card);
    MailOnlyKeeps(s, MoveBy(scn, s, side, trickNo, card));
  }

  lemma PlayerTrickedKeeps(scn: Scenario, s: Srv, trickNo: int, card: Card, ix: int)
    requires SessionInv(s) && Handler(s, ix)
    ensures SessionInv(PlayerTricked(scn, s, trickNo, card, ix).0)
  {
    hide MoveBy, SeatsTaken, Matched;
    if s.playersConnected >= 4 {
      SendJobSafe(s.mgr, Wrong(0), ix);
      if s.mgr.roles[ix] == ServingActive {
        MoveByKeeps(scn, s, s.workerToSide[ix], trickNo, card);
      } else if s.mgr.roles[ix] == Cleanup && ix in s.zombieWorkerToSide {
        MoveByKeeps(scn, s, s.zombieWorkerToSide[ix], trickNo, card);
      } else if s.mgr.roles[ix] == Cleanup {
        MailOnlyKeeps(s, s.(mgr := Threw(s.mgr, ix)));
      } else if s.mgr.roles[ix] == ServingUnknown {
        RoleKeeps(s, ix, CleanupUnknown);
        var s1 := s.(mgr := SetRole(s.mgr, ix, CleanupUnknown));
        SendJobSafe(s1.mgr, Wrong(0), ix);
        MailOnlyKeeps(s1, s1.(mgr := SendKill(s1.mgr, ix)));
      }
    }
  }

  lemma SeatCounts(seats: Seating, side: Side, ix: int)
    requires (seats[side] == -1) != (ix == -1)
    ensures SeatsTaken(seats[side := ix]) == SeatsTaken(seats) + if ix == -1 then -1 else 1
  {
    match side { case N => case E => case S => case W => }
  }

  lemma SeatMatched(seats: Seating, sideOf: map<int, Side>, side: Side, ix: int)
    requires Matched(seats, sideOf) && ix !in sideOf && seats[side] == -1 && ix >= 0
    ensures Matched(seats[side := ix], sideOf[ix := side])
  {
  }

  lemma LeaveMatched(seats: Seating, sideOf: map<int, Side>, ix: int)
    requires Matched(seats, sideOf) && ix in sideOf
    ensures Matched(seats[sideOf[ix] := -1], sideOf - {ix})
  {
  }

  lemma SeatRoles(roles: map<int, Role>, sideOf: map<int, Side>, zombies: map<int, Side>, ix: int, side: Side)
    requires RolesFit(roles, sideOf, zombies) && ix in roles
    ensures RolesFit(roles[ix := ServingActive], sideOf[ix := side], zombies)
  {
  }

  lemma LeaveRoles(roles: map<int, Role>, sideOf: map<int, Side>, zombies: map<int, Side>, ix: int)
    requires RolesFit(roles, sideOf, zombies) && ix in sideOf
    ensures RolesFit(roles[ix := Cleanup], sideOf - {ix}, zombies[ix := sideOf[ix]])
  {
  }

  lemma RoleAlive(m: Mgr, ix: int, role: Role)
    requires Alive(m) && ix in m.roles && m.roles[ix] != Shutdown
    ensures Alive(SetRole(m, ix, role))
  {
  }

  lemma SeatKeeps(s: Srv, side: Side, ix: int)
    requires SessionInv(s) && ix in s.mgr.roles && s.mgr.roles[ix] == ServingUnknown && s.activeSides[side] == -1
    ensures SessionInv(Seat(s, side, ix))
  {
    UnknownIsUnseated(s, ix);
    hide SeatsTaken, Matched, RolesFit, Alive;
    SeatCounts(s.activeSides, side, ix);
    SeatMatched(s.activeSides, s.workerToSide, side, ix);
    SeatRoles(s.mgr.roles, s.workerToSide, s.zombieWorkerToSide, ix, side);
    RoleAlive(s.mgr, ix, ServingActive);
  }

  lemma UnknownIsUnseated(s: Srv, ix: int)
    requires SessionInv(s) && ix in s.mgr.roles && s.mgr.roles[ix] == ServingUnknown
    ensures ix !in s.workerToSide && ix >= 0
  {
  }

  lemma SeatMailSafe(s: Srv, side: Side, ix: int)
    requires ix >= 0 && (s.playersConnected == 4 ==> Full(s.activeSides))
    ensures MailOnly(s.mgr, SeatMail(s, side, ix))
  {
    hide Post, PostLog, Deals, AskNext, Full;
    var deal := Deal(s.game.roundMode, s.game.nextMove, LastDealOf(s.game, side));
    var m := SendJob(s.mgr, deal, ix);
    SendJobSafe(s.mgr, deal, ix);
    PostLogSafe(m, ix, s.game.takenInRound);
    if s.playersConnected == 4 {
      PostSafe(s.mgr, s.activeSides, Deals(s.game) + AskNext(s.game));
      PostSafe(PostLog(m, ix, s.game.takenInRound), s.activeSides, AskNext(s.game));
    }
  }

  lemma TakeSeatKeeps(s: Srv, side: Side, ix: int)
    requires SessionInv(s) && Handler(s, ix) && s.mgr.roles[ix] == ServingUnknown && s.activeSides[side] == -1
    ensures SessionInv(TakeSeat(s, side, ix))
  {
    hide SeatMail, SeatsTaken, Matched;
    SeatKeeps(s, side, ix);
    if s.playersConnected + 1 == 4 {
      NobodyIsMissing(s.activeSides[side := ix]);
    }
    SeatMailSafe(Seat(s, side, ix), side, ix);
    MailOnlyKeeps(Seat(s, side, ix), TakeSeat(s, side, ix));
  }

  lemma TurnAwayKeeps(s: Srv, ix: int, job: Job)
    requires SessionInv(s) && Handler(s, ix)
    ensures SessionInv(s.(mgr := SendJob(SetRole(s.mgr, ix, CleanupUnknown), job, ix)))
    ensures SessionInv(s.(mgr := SetRole(SendKill(s.mgr, ix), ix, Cleanup)))
  {
    hide SeatsTaken, Matched;
    SendJobSafe(s.mgr, job, ix);
    MailOnlyKeeps(s, s.(mgr := SendKill(s.mgr, ix)));
    RoleKeeps(s.(mgr := SendKill(s.mgr, ix)), ix, Cleanup);
    RoleKeeps(s, ix, CleanupUnknown);
    var s1 := s.(mgr := SetRole(s.mgr, ix, CleanupUnknown));
    SendJobSafe(s1.mgr, job, ix);
    MailOnlyKeeps(s1, s1.(mgr := SendJob(s1.mgr, job, ix)));
  }

  lemma PlayerIntroKeeps(s: Srv, side: Side, ix: int)
    requires SessionInv(s) && Handler(s, ix)
    ensures SessionInv(PlayerIntro(s, side, ix).0)
  {
    hide SessionInv, TakeSeat, SendJob, SendKill, SetRole;
    if s.mgr.roles[ix] == ServingUnknown && s.activeSides[side] == -1 {
      TakeSeatKeeps(s, side, ix);
    } else {
      TurnAwayKeeps(s, ix, Busy(set x | x in s.activeSides && s.activeSides[x] != -1));
    }
  }

  /** The seat is vacated before the worker's new role is decided. */
  function Leave(s: Srv, ix: int): Srv
    requires ix in s.workerToSide
  {
    var side := s.workerToSide[ix];
    s.(playersConnected := s.playersConnected - 1, activeSides := s.activeSides[side := -1],
       zombieWorkerToSide := s.zombieWorkerToSide[ix := side], workerToSide := s.workerToSide - {ix},
       mgr := SetRole(s.mgr, ix, Cleanup))
  }

  lemma LeaveKeeps(s: Srv, ix: int)
    requires SessionInv(s) && ix in s.workerToSide && s.mgr.roles[ix] == ServingActive
    ensures SessionInv(Leave(s, ix))
  {
    SeatOfSeated(s, ix);
    hide SeatsTaken, Matched, RolesFit, Alive;
    SeatCounts(s.activeSides, s.workerToSide[ix], -1);
    LeaveMatched(s.activeSides, s.workerToSide, ix);
    LeaveRoles(s.mgr.roles, s.workerToSide, s.zombieWorkerToSide, ix);
    RoleAlive(s.mgr, ix, Cleanup);
  }

  lemma SeatOfSeated(s: Srv, ix: int)
    requires SessionInv(s) && ix in s.workerToSide
    ensures s.activeSides[s.workerToSide[ix]] == ix >= 0
  {
  }

  function Dismissed(s: Srv, ix: int): Srv {
    s.(mgr := Dismiss(s.mgr, ix))
  }

  lemma SetRoleTwice(m: Mgr, ix: int, role: Role)
    ensures Dismiss(SetRole(m, ix, role), ix) == Dismiss(m, ix)
  {
    assert m.roles[ix := role][ix := Shutdown] == m.roles[ix := Shutdown];
  }

  /** An active worker leaves its seat and is cleaned up later or dismissed at once. */
  lemma ActiveExit(s: Srv, ix: int, hasWork: bool)
    requires ix in s.mgr.roles && s.mgr.roles[ix] == ServingActive && ix in s.workerToSide
    ensures var s1 := GrandExit(s, ix, hasWork).0; s1 == Leave(s, ix) || s1 == Dismissed(Leave(s, ix), ix)
  {
    hide Dismiss, SetRole;
    SetRoleTwice(s.mgr, ix, Cleanup);
  }

  /** A worker without a seat stays or is dismissed; the listening worker takes the server with it. */
  lemma OtherExit(s: Srv, ix: int, hasWork: bool)
    requires ix in s.mgr.roles && s.mgr.roles[ix] != ServingActive
    ensures var s1 := GrandExit(s, ix, hasWork).0;
            if s.mgr.roles[ix] == ServingProxy then s1 == Finalize(Dismissed(s, ix))
            else s1 == s || (s1 == Dismissed(s, ix) && s.mgr.roles[ix] != Shutdown)
  {
    hide Dismiss, Finalize;
  }

  lemma FinalizeKeeps(s: Srv)
    requires SessionInv(s)
    ensures SessionInv(Finalize(s))
  {
    hide Matched, RolesFit, Alive, SeatsTaken;
    MailOnlyKeeps(s, Finalize(s));
  }

  lemma GrandExitKeeps(s: Srv, ix: int, hasWork: bool)
    requires SessionInv(s) && ix in s.mgr.roles
    ensures SessionInv(GrandExit(s, ix, hasWork).0)
  {
    hide GrandExit, SessionInv, Leave, Finalize, Dismiss;
    if s.mgr.roles[ix] == ServingActive {
      ActiveIsSeated(s, ix);
      ActiveExit(s, ix, hasWork);
      LeaveKeeps(s, ix);
      LeaveRole(s, ix);
      DismissKeeps(Leave(s, ix), ix);
    } else {
      OtherExit(s, ix, hasWork);
      DismissKeeps(s, ix);
      FinalizeKeeps(Dismissed(s, ix));
    }
  }

  lemma ActiveIsSeated(s: Srv, ix: int)
    requires SessionInv(s) && ix in s.mgr.roles && s.mgr.roles[ix] == ServingActive
    ensures ix in s.workerToSide
  {
    hide Matched, Alive, SeatsTaken;
  }

  lemma LeaveRole(s: Srv, ix: int)
    requires ix in s.workerToSide
    ensures ix in Leave(s, ix).mgr.roles
  {
  }

  // ---------------------------------------------------------------- any interleaving of callbacks

  datatype Callback =
    | Connected
    | IntroMsg(side: Side, ix: int)
    | TrickMsg(trickNo: int, card: Card, ix: int)
    | BadMsg(ix: int)
    | ExitCb(ix: int, hasWork: bool)
    | TimeoutCb(ix: int)
    | Cleaner

  /** Only connection handlers whose thread has not ended deliver messages; any worker may report its exit again. */
  ghost predicate CanOccur(s: Srv, c: Callback) {
    match c
    case Connected => true
    case IntroMsg(_, ix) => Handler(s, ix)
    case TrickMsg(_, _, ix) => Handler(s, ix)
    case BadMsg(ix) => Handler(s, ix)
    case ExitCb(ix, _) => ix in s.mgr.roles
    case TimeoutCb(ix) => ix in s.mgr.roles
    case Cleaner => true
  }

  ghost predicate Handler(s: Srv, ix: int) {
    ix in s.mgr.roles && s.mgr.roles[ix] != ServingProxy && s.mgr.roles[ix] != Shutdown
  }

  ghost function Perform(scn: Scenario, s: Srv, c: Callback): Srv
    requires CanOccur(s, c) && |s.game.table| <= 3
  {
    match c
    case Connected => s.(mgr := Spawn(s.mgr, ServingUnknown))
    case IntroMsg(side, ix) => PlayerIntro(s, side, ix).0
    case TrickMsg(trickNo, card, ix) => PlayerTricked(scn, s, trickNo, card, ix).0
    case BadMsg(ix) => HandleWrongMessage(s, ix).0
    case ExitCb(ix, hasWork) => GrandExit(s, ix, hasWork).0
    case TimeoutCb(ix) => HandleTimeout(s, ix)
    case Cleaner => s.(mgr := Clear(s.mgr))
  }

  lemma ConnectedKeeps(s: Srv)
    requires SessionInv(s)
    ensures SessionInv(s.(mgr := Spawn(s.mgr, ServingUnknown)))
  {
    hide SeatsTaken;
  }

  lemma CleanerKeeps(s: Srv)
    requires SessionInv(s)
    ensures SessionInv(s.(mgr := Clear(s.mgr)))
  {
    hide SeatsTaken, Matched;
  }

  lemma SmallCallbacksKeep(s: Srv, ix: int)
    requires SessionInv(s) && ix in s.mgr.roles
    ensures SessionInv(HandleWrongMessage(s, ix).0) && SessionInv(HandleTimeout(s, ix))
  {
    hide SeatsTaken, Matched;
    SendJobSafe(s.mgr, Trick(s.game.table, s.game.trickNo), ix);
    MailOnlyKeeps(s, HandleWrongMessage(s, ix).0);
    MailOnlyKeeps(s, HandleTimeout(s, ix));
  }

  lemma PerformKeeps(scn: Scenario, s: Srv, c: Callback)
    requires SessionInv(s) && CanOccur(s, c)
    ensures SessionInv(Perform(scn, s, c))
  {
    hide SeatsTaken, PlayerIntro, PlayerTricked, GrandExit, Matched, RolesFit, Alive;
    match c {
      case Connected => ConnectedKeeps(s);
      case IntroMsg(side, ix) => PlayerIntroKeeps(s, side, ix);
      case TrickMsg(trickNo, card, ix) => PlayerTrickedKeeps(scn, s, trickNo, card, ix);
      case BadMsg(ix) => SmallCallbacksKeep(s, ix);
      case ExitCb(ix, hasWork) => GrandExitKeeps(s, ix, hasWork);
      case TimeoutCb(ix) => SmallCallbacksKeep(s, ix);
      case Cleaner => CleanerKeeps(s);
    }
  }

  ghost function Run(scn: Scenario, s: Srv, cs: seq<Callback>): Srv
    decreases |cs|
  {
    if cs == [] then s
    else if CanOccur(s, cs[0]) && |s.game.table| <= 3 then Run(scn, Perform(scn, s, cs[0]), cs[1..])
    else Run(scn, s, cs[1..])
  }

  lemma StartServerIsFine(scn: Scenario)
    requires scn != []
    ensures SessionInv(StartServer(scn))
  {
    forall x: Side ensures PerSide(-1, -1, -1, -1)[x] == -1 {
      match x { case N => case E => case S => case W => }
    }
  }

  /** After any sequence of callbacks seats and workers match, and no job was ever addressed to worker -1. */
  lemma {:induction false} RunKeeps(scn: Scenario, s: Srv, cs: seq<Callback>)
    requires SessionInv(s)
    ensures SessionInv(Run(scn, s, cs))
    decreases |cs|
  {
    hide SessionInv, Perform, CanOccur;
    if cs != [] {
      if CanOccur(s, cs[0]) && |s.game.table| <= 3 {
        PerformKeeps(scn, s, cs[0]);
        RunKeeps(scn, Perform(scn, s, cs[0]), cs[1..]);
      } else {
        RunKeeps(scn, s, cs[1..]);
      }
    }
  }
}
