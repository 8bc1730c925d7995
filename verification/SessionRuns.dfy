/** Leaving a seat, being erased, and what a second IAM breaks (server/server.cpp, server/io_worker.cpp). */
module SessionRuns {
  import opened Cards
  import opened Jobs
  import opened Game
  import opened ServerState
  import opened Session

  // ---------------------------------------------------------------- what one callback does to one worker

  ghost predicate LeavesSeat(s: Srv, s1: Srv, ix: int) {
    ix in s.workerToSide && ix !in s1.workerToSide
  }

  ghost predicate QueuedForErasure(s: Srv, s1: Srv, ix: int) {
    ix !in s.mgr.toErase && ix in s1.mgr.toErase
  }

  /** 1 as long as the worker may still leave a seat. */
  ghost function SeatCredit(s: Srv, ix: int): nat {
    if ix in s.workerToSide || ix !in s.mgr.roles || s.mgr.roles[ix] == ServingUnknown then 1 else 0
  }

  /** 1 as long as the worker may still be queued for erasure. */
  ghost function EraseCredit(s: Srv, ix: int): nat {
    if ix in s.mgr.roles && s.mgr.roles[ix] == Shutdown then 0 else 1
  }

  /** Each departure and each erasure is paid for with a credit that never comes back. */
  ghost predicate Pays(s: Srv, s1: Srv, ix: int) {
    && SeatCredit(s1, ix) + (if LeavesSeat(s, s1, ix) then 1 else 0) <= SeatCredit(s, ix)
    && EraseCredit(s1, ix) + (if QueuedForErasure(s, s1, ix) then 1 else 0) <= EraseCredit(s, ix)
  }

  lemma MailOnlyPays(s: Srv, s1: Srv, ix: int)
    requires SameSeats(s, s1) && MailOnly(s.mgr, s1.mgr)
    ensures Pays(s, s1, ix)
  {
  }

  lemma TrickPays(scn: Scenario, s: Srv, trickNo: int, card: Card, who: int, ix: int)
    requires SessionInv(s) && Handler(s, who)
    ensures Pays(s, PlayerTricked(scn, s, trickNo, card, who).0, ix)
  {
    hide MoveBy, SeatsTaken, Matched, Alive;
    if s.playersConnected >= 4 {
      if s.mgr.roles[who] == ServingActive {
        MoveByKeeps(scn, s, s.workerToSide[who], trickNo, card);
        MailOnlyPays(s, PlayerTricked(scn, s, trickNo, card, who).0, ix);
      } else if s.mgr.roles[who] == Cleanup && who in s.zombieWorkerToSide {
        MoveByKeeps(scn, s, s.zombieWorkerToSide[who], trickNo, card);
        MailOnlyPays(s, PlayerTricked(scn, s, trickNo, card, who).0, ix);
      }
    }
  }

  lemma IntroPays(s: Srv, side: Side, who: int, ix: int)
    requires SessionInv(s) && Handler(s, who)
    ensures Pays(s, PlayerIntro(s, side, who).0, ix)
  {
    hide TakeSeat, SessionInv, Pays;
    if s.mgr.roles[who] == ServingUnknown && s.activeSides[side] == -1 {
      SeatPays(s, side, who, ix);
    } else {
      RefusedPays(s, who, ix, Busy(set x | x in s.activeSides && s.activeSides[x] != -1));
    }
  }

  lemma RefusedPays(s: Srv, who: int, ix: int, job: Job)
    requires Handler(s, who)
    ensures Pays(s, s, ix) && Pays(s, s.(mgr := SetRole(SendKill(s.mgr, who), who, Cleanup)), ix)
    ensures Pays(s, s.(mgr := SendJob(SetRole(s.mgr, who, CleanupUnknown), job, who)), ix)
  {
  }

  lemma SeatPays(s: Srv, side: Side, who: int, ix: int)
    requires SessionInv(s) && Handler(s, who) && s.mgr.roles[who] == ServingUnknown && s.activeSides[side] == -1
    ensures Pays(s, TakeSeat(s, side, who), ix)
  {
    hide SeatMail, SessionInv;
    SeatKeeps(s, side, who);
    SeatTaken(s, side, who);
    SeatMailSafe(Seat(s, side, who), side, who);
  }

  lemma SeatTaken(s: Srv, side: Side, ix: int)
    requires SessionInv(Seat(s, side, ix)) && ix in s.mgr.roles
    ensures ix >= 0 && (Seat(s, side, ix).playersConnected == 4 ==> Full(Seat(s, side, ix).activeSides))
  {
    if Seat(s, side, ix).playersConnected == 4 {
      NobodyIsMissing(Seat(s, side, ix).activeSides);
    }
  }

  lemma ExitPays(s: Srv, who: int, hasWork: bool, ix: int)
    requires SessionInv(s) && who in s.mgr.roles
    ensures Pays(s, GrandExit(s, who, hasWork).0, ix)
  {
    hide GrandExit, SessionInv, Finalize, Dismiss, Leave, Pays;
    if s.mgr.roles[who] == ServingActive {
      ActiveIsSeated(s, who);
      ActiveExit(s, who, hasWork);
      LeavePays(s, who, ix);
    } else {
      OtherExit(s, who, hasWork);
      DismissPays(s, who, ix);
    }
  }

  lemma LeavePays(s: Srv, who: int, ix: int)
    requires who in s.workerToSide && who in s.mgr.roles && s.mgr.roles[who] == ServingActive
    ensures Pays(s, Leave(s, who), ix) && Pays(s, Dismissed(Leave(s, who), who), ix)
  {
  }

  lemma DismissPays(s: Srv, who: int, ix: int)
    requires SessionInv(s) && who in s.mgr.roles && s.mgr.roles[who] != ServingActive
    ensures Pays(s, s, ix)
    ensures s.mgr.roles[who] != Shutdown ==> Pays(s, Dismissed(s, who), ix) && Pays(s, Finalize(Dismissed(s, who)), ix)
  {
    hide Matched, SeatsTaken;
  }

  lemma PerformPays(scn: Scenario, s: Srv, c: Callback, ix: int)
    requires SessionInv(s) && CanOccur(s, c)
    ensures Pays(s, Perform(scn, s, c), ix)
  {
    hide SeatsTaken, PlayerIntro, PlayerTricked, GrandExit, Matched;
    match c {
      case Connected =>
      case IntroMsg(side, who) => IntroPays(s, side, who, ix);
      case TrickMsg(trickNo, card, who) => TrickPays(scn, s, trickNo, card, who, ix);
      case BadMsg(who) =>
      case ExitCb(who, hasWork) => ExitPays(s, who, hasWork, ix);
      case TimeoutCb(who) =>
      case Cleaner =>
    }
  }

  // ---------------------------------------------------------------- over whole runs

  ghost function Departures(scn: Scenario, s: Srv, cs: seq<Callback>, ix: int): nat
    decreases |cs|
  {
    if cs == [] then 0
    else if CanOccur(s, cs[0]) && |s.game.table| <= 3 then
      var s1 := Perform(scn, s, cs[0]);
      Departures(scn, s1, cs[1..], ix) + if LeavesSeat(s, s1, ix) then 1 else 0
    else Departures(scn, s, cs[1..], ix)
  }

  ghost function Erasures(scn: Scenario, s: Srv, cs: seq<Callback>, ix: int): nat
    decreases |cs|
  {
    if cs == [] then 0
    else if CanOccur(s, cs[0]) && |s.game.table| <= 3 then
      var s1 := Perform(scn, s, cs[0]);
      Erasures(scn, s1, cs[1..], ix) + if QueuedForErasure(s, s1, ix) then 1 else 0
    else Erasures(scn, s, cs[1..], ix)
  }

  /**
    * However often a worker reports its exit, it leaves its seat at most once and is queued for erasure at most once.
    */
  lemma {:induction false} AtMostOnce(scn: Scenario, s: Srv, cs: seq<Callback>, ix: int)
    requires SessionInv(s)
    ensures Departures(scn, s, cs, ix) <= SeatCredit(s, ix) <= 1
    ensures Erasures(scn, s, cs, ix) <= EraseCredit(s, ix) <= 1
    decreases |cs|
  {
    hide SessionInv, Perform, CanOccur, LeavesSeat, QueuedForErasure;
    if cs != [] {
      if CanOccur(s, cs[0]) && |s.game.table| <= 3 {
        PerformPays(scn, s, cs[0], ix);
        PerformKeeps(scn, s, cs[0]);
        AtMostOnce(scn, Perform(scn, s, cs[0]), cs[1..], ix);
      } else {
        AtMostOnce(scn, s, cs[1..], ix);
      }
    }
  }

  // ---------------------------------------------------------------- seats and mailboxes

  /** Whoever sits has an active role, and no lookup of a worker has ever failed. */
  ghost predicate SeatSound(s: Srv) {
    && SessionInv(s)
    && ActiveSeats(s.mgr.roles, s.workerToSide)
    && ZombiesKnown(s.mgr.roles, s.zombieWorkerToSide)
    && s.mgr.unknown == {}
  }

  ghost predicate ActiveSeats(roles: map<int, Role>, sideOf: map<int, Side>) {
    forall ix :: ix in sideOf ==> ix in roles && roles[ix] == ServingActive
  }

  /** Exactly the workers that once sat down have a remembered side. */
  ghost predicate ZombiesKnown(roles: map<int, Role>, zombies: map<int, Side>) {
    forall ix :: ix in roles ==>
      && (roles[ix] == Cleanup ==> ix in zombies)
      && (roles[ix] == CleanupUnknown || roles[ix] == ServingActive ==> ix !in zombies)
  }

  /**
   * An introduction is polite while it has no effect or comes from a worker that introduces itself for the first
   * time, or is being cleaned up already; the worker of a seat and one that has been turned away may not introduce
   * itself again.
   */
  ghost predicate Polite(s: Srv, c: Callback)
    requires CanOccur(s, c)
  {
    c.IntroMsg? ==> s.playersConnected < 4 || s.mgr.roles[c.ix] == ServingUnknown || s.mgr.roles[c.ix] == Cleanup
  }

  ghost predicate SeatsHaveMail(m: Mgr, seats: Seating) {
    forall side: Side :: seats[side] in m.mail
  }

  lemma FullSeatsHaveMail(s: Srv)
    requires SessionInv(s) && ActiveSeats(s.mgr.roles, s.workerToSide) && s.playersConnected >= 4
    ensures SeatsHaveMail(s.mgr, s.activeSides)
  {
    NobodyIsMissing(s.activeSides);
    hide SeatsTaken;
  }

  lemma PostFinds(m: Mgr, seats: Seating, outs: seq<Out>)
    requires SeatsHaveMail(m, seats)
    ensures Post(m, seats, outs).unknown == m.unknown
  {
    hide Post;
    PostFrame(m, seats, outs);
  }

  lemma MoveBySound(scn: Scenario, s: Srv, side: Side, trickNo: int, card: Card)
    requires SeatSound(s) && s.playersConnected >= 4
    ensures SeatSound(MoveBy(scn, s, side, trickNo, card))
  {
    SmallTable(s);
    hide Accept, AcceptOuts, Accepted, Post, SessionInv, ActiveSeats, ZombiesKnown;
    FullSeatsHaveMail(s);
    PostFinds(s.mgr, s.activeSides, AcceptOuts(scn, s.game, card));
    MoveByKeeps(scn, s, side, trickNo, card);
  }

  lemma SmallTable(s: Srv)
    requires SessionInv(s)
    ensures |s.game.table| <= 3
  {
  }

  lemma HandlerHasMail(s: Srv, ix: int)
    requires SessionInv(s) && Handler(s, ix)
    ensures ix in s.mgr.mail && (s.mgr.roles[ix] == ServingActive ==> ix in s.workerToSide)
  {
  }

  lemma TrickSound(scn: Scenario, s: Srv, trickNo: int, card: Card, ix: int)
    requires SeatSound(s) && Handler(s, ix)
    ensures SeatSound(PlayerTricked(scn, s, trickNo, card, ix).0)
  {
    hide MoveBy, SessionInv;
    PlayerTrickedKeeps(scn, s, trickNo, card, ix);
    HandlerHasMail(s, ix);
    if s.playersConnected >= 4 {
      if s.mgr.roles[ix] == ServingActive {
        MoveBySound(scn, s, s.workerToSide[ix], trickNo, card);
      } else if s.mgr.roles[ix] == Cleanup {
        MoveBySound(scn, s, s.zombieWorkerToSide[ix], trickNo, card);
      } else if s.mgr.roles[ix] == ServingUnknown {
        UnknownHasNoPast(s, ix);
      }
    }
  }

  lemma UnknownHasNoPast(s: Srv, ix: int)
    requires SessionInv(s) && ix in s.mgr.roles && s.mgr.roles[ix] == ServingUnknown
    ensures ix !in s.workerToSide && ix !in s.zombieWorkerToSide
  {
  }

  lemma SeatMailFinds(s: Srv, side: Side, ix: int)
    requires ix in s.mgr.mail && (s.playersConnected == 4 ==> SeatsHaveMail(s.mgr, s.activeSides))
    ensures SeatMail(s, side, ix).unknown == s.mgr.unknown
  {
    hide Post, PostLog, Deals, AskNext, SeatsHaveMail;
    var m := SendJob(s.mgr, Deal(s.game.roundMode, s.game.nextMove, LastDealOf(s.game, side)), ix);
    PostLogFrame(m, ix, s.game.takenInRound);
    if s.playersConnected == 4 {
      SameKeys(s.mgr, PostLog(m, ix, s.game.takenInRound), s.activeSides);
      PostFinds(s.mgr, s.activeSides, Deals(s.game) + AskNext(s.game));
      PostFinds(PostLog(m, ix, s.game.takenInRound), s.activeSides, AskNext(s.game));
    }
  }

  lemma SameKeys(m: Mgr, m1: Mgr, seats: Seating)
    requires SeatsHaveMail(m, seats) && m1.mail.Keys == m.mail.Keys
    ensures SeatsHaveMail(m1, seats)
  {
    forall side: Side ensures seats[side] in m1.mail {
      assert seats[side] in m.mail;
      assert seats[side] in m.mail.Keys;
    }
  }

  lemma SeatRolesSound(roles: map<int, Role>, sideOf: map<int, Side>, zombies: map<int, Side>, ix: int, side: Side)
    requires ActiveSeats(roles, sideOf) && ZombiesKnown(roles, zombies) && ix !in zombies
    ensures ActiveSeats(roles[ix := ServingActive], sideOf[ix := side])
    ensures ZombiesKnown(roles[ix := ServingActive], zombies)
  {
  }

  lemma TakeSeatSound(s: Srv, side: Side, ix: int)
    requires SeatSound(s) && Handler(s, ix) && s.mgr.roles[ix] == ServingUnknown && s.activeSides[side] == -1
    ensures SeatSound(TakeSeat(s, side, ix))
  {
    hide SeatMail, SessionInv, ActiveSeats, ZombiesKnown;
    PlayerIntroKeeps(s, side, ix);
    HandlerHasMail(s, ix);
    UnknownHasNoPast(s, ix);
    SeatRolesSound(s.mgr.roles, s.workerToSide, s.zombieWorkerToSide, ix, side);
    SeatKeeps(s, side, ix);
    SeatTaken(s, side, ix);
    var s1 := Seat(s, side, ix);
    if s1.playersConnected == 4 {
      FullSeatsHaveMail(s1);
    }
    SeatMailFinds(s1, side, ix);
    SeatMailSafe(s1, side, ix);
  }

  /** An introduction keeps seats and mailboxes sound if and only if it is polite. */
  lemma IntroSoundIffPolite(s: Srv, side: Side, ix: int)
    requires SeatSound(s) && Handler(s, ix)
    ensures SeatSound(PlayerIntro(s, side, ix).0) <==> Polite(s, IntroMsg(side, ix))
  {
    hide TakeSeat, SessionInv;
    PlayerIntroKeeps(s, side, ix);
    HandlerHasMail(s, ix);
    if s.mgr.roles[ix] == ServingUnknown {
      UnknownHasNoPast(s, ix);
      if s.activeSides[side] == -1 {
        TakeSeatSound(s, side, ix);
      }
    }
  }

  /** Every seated worker is served, and every job so far has found its worker. */
  ghost predicate SeatsServed(s: Srv) {
    SessionInv(s) && ActiveSeats(s.mgr.roles, s.workerToSide) && s.mgr.unknown == {}
  }

  /** Every seated worker stays served if and only if the introduction does not come from one of them. */
  lemma IntroServesIffUnseated(s: Srv, side: Side, ix: int)
    requires SeatSound(s) && Handler(s, ix)
    ensures SeatsServed(PlayerIntro(s, side, ix).0) <==> s.playersConnected < 4 || ix !in s.workerToSide
  {
    hide TakeSeat, SessionInv, ZombiesKnown, Matched, SeatsTaken;
    PlayerIntroKeeps(s, side, ix);
    HandlerHasMail(s, ix);
    UnseatedUnlessActive(s, ix);
    if s.mgr.roles[ix] == ServingUnknown && s.activeSides[side] == -1 {
      TakeSeatSound(s, side, ix);
    }
  }

  lemma UnseatedUnlessActive(s: Srv, ix: int)
    requires SeatSound(s) && ix in s.mgr.roles
    ensures ix in s.workerToSide <==> s.mgr.roles[ix] == ServingActive
  {
  }

  lemma LeaveRolesSound(roles: map<int, Role>, sideOf: map<int, Side>, zombies: map<int, Side>, ix: int, role: Role)
    requires ActiveSeats(roles, sideOf) && ZombiesKnown(roles, zombies) && ix in sideOf
    requires role == Cleanup || role == Shutdown
    ensures ActiveSeats(roles[ix := role], sideOf - {ix})
    ensures ZombiesKnown(roles[ix := role], zombies[ix := sideOf[ix]])
  {
  }

  lemma DismissRolesSound(roles: map<int, Role>, sideOf: map<int, Side>, zombies: map<int, Side>, ix: int)
    requires ActiveSeats(roles, sideOf) && ZombiesKnown(roles, zombies) && ix !in sideOf
    ensures ActiveSeats(roles[ix := Shutdown], sideOf)
    ensures ZombiesKnown(roles[ix := Shutdown], zombies)
  {
  }

  lemma LeaveSound(s: Srv, ix: int)
    requires SeatSound(s) && ix in s.mgr.roles && s.mgr.roles[ix] == ServingActive
    ensures ix in s.workerToSide && SeatSound(Leave(s, ix))
  {
    hide SessionInv, ActiveSeats, ZombiesKnown;
    ActiveIsSeated(s, ix);
    LeaveKeeps(s, ix);
    LeaveRolesSound(s.mgr.roles, s.workerToSide, s.zombieWorkerToSide, ix, Cleanup);
  }

  lemma DismissSound(s: Srv, ix: int)
    requires SeatSound(s) && ix in s.mgr.roles && ix !in s.workerToSide
    ensures SeatSound(Dismissed(s, ix))
  {
    hide SessionInv, ActiveSeats, ZombiesKnown;
    DismissKeeps(s, ix);
    DismissRolesSound(s.mgr.roles, s.workerToSide, s.zombieWorkerToSide, ix);
  }

  lemma FinalizeSound(s: Srv)
    requires SeatSound(s)
    ensures SeatSound(Finalize(s))
  {
    hide SessionInv;
    FinalizeKeeps(s);
  }

  lemma ExitSound(s: Srv, ix: int, hasWork: bool)
    requires SeatSound(s) && ix in s.mgr.roles
    ensures SeatSound(GrandExit(s, ix, hasWork).0)
  {
    hide SeatSound, GrandExit, Finalize, Dismissed;
    if s.mgr.roles[ix] == ServingActive {
      LeaveSound(s, ix);
      ActiveExit(s, ix, hasWork);
      DismissSound(Leave(s, ix), ix);
    } else {
      OtherExit(s, ix, hasWork);
      NotSeated(s, ix);
      DismissSound(s, ix);
      FinalizeSound(Dismissed(s, ix));
    }
  }

  lemma NotSeated(s: Srv, ix: int)
    requires SeatSound(s) && ix in s.mgr.roles && s.mgr.roles[ix] != ServingActive
    ensures ix !in s.workerToSide
  {
  }

  lemma ConnectedSound(s: Srv)
    requires SeatSound(s)
    ensures SeatSound(s.(mgr := Spawn(s.mgr, ServingUnknown)))
  {
    ConnectedKeeps(s);
  }

  lemma TimeoutSound(s: Srv, ix: int)
    requires SeatSound(s) && ix in s.mgr.roles
    ensures SeatSound(HandleTimeout(s, ix))
  {
    hide SessionInv;
    SmallCallbacksKeep(s, ix);
    if s.mgr.roles[ix] == ServingUnknown || s.mgr.roles[ix] == ServingActive {
      HandlerHasMail(s, ix);
    }
  }

  /** A callback keeps seats and mailboxes sound if and only if it is polite. */
  lemma SoundIffPolite(scn: Scenario, s: Srv, c: Callback)
    requires SeatSound(s) && CanOccur(s, c)
    ensures SeatSound(Perform(scn, s, c)) <==> Polite(s, c)
  {
    hide PlayerIntro, PlayerTricked, GrandExit, SessionInv, HandleTimeout;
    match c {
      case Connected => ConnectedSound(s);
      case IntroMsg(side, ix) => IntroSoundIffPolite(s, side, ix);
      case TrickMsg(trickNo, card, ix) => TrickSound(scn, s, trickNo, card, ix);
      case BadMsg(ix) => SmallCallbacksKeep(s, ix); HandlerHasMail(s, ix);
      case ExitCb(ix, hasWork) => ExitSound(s, ix, hasWork);
      case TimeoutCb(ix) => TimeoutSound(s, ix);
      case Cleaner => CleanerKeeps(s);
    }
  }

  /** Every seated worker stays served if and only if the callback is not a second introduction by one of them. */
  lemma ServedIffUnseated(scn: Scenario, s: Srv, c: Callback)
    requires SeatSound(s) && CanOccur(s, c)
    ensures SeatsServed(Perform(scn, s, c)) <==> !(c.IntroMsg? && s.playersConnected >= 4 && c.ix in s.workerToSide)
  {
    hide PlayerIntro, PlayerTricked, GrandExit, SessionInv, HandleTimeout, ActiveSeats, ZombiesKnown, Clear, Spawn,
         HandleWrongMessage;
    if c.IntroMsg? {
      IntroServesIffUnseated(s, c.side, c.ix);
    } else {
      SoundIffPolite(scn, s, c);
    }
  }

  /** No callback of the run is impolite. */
  ghost predicate AllPolite(scn: Scenario, s: Srv, cs: seq<Callback>) {
    forall k :: 0 <= k < |cs| && CanOccur(Run(scn, s, cs[..k]), cs[k]) ==> Polite(Run(scn, s, cs[..k]), cs[k])
  }

  /** In a run without second introductions every seated worker is served and every job finds its worker. */
  lemma {:induction false} PoliteRunsAreSound(scn: Scenario, cs: seq<Callback>)
    requires scn != [] && AllPolite(scn, StartServer(scn), cs)
    ensures SeatSound(Run(scn, StartServer(scn), cs))
  {
    hide SeatSound, Perform, CanOccur, Polite;
    if cs == [] {
      StartIsSound(scn);
    } else {
      var init, s := cs[..|cs| - 1], StartServer(scn);
      forall k | 0 <= k < |init| && CanOccur(Run(scn, s, init[..k]), init[k])
        ensures Polite(Run(scn, s, init[..k]), init[k])
      {
        assert init[..k] == cs[..k];
      }
      PoliteRunsAreSound(scn, init);
      var s1, c := Run(scn, s, init), cs[|cs| - 1];
      assert cs == init + [c];
      RunAppend(scn, s, init, [c]);
      assert Run(scn, s1, [c]) == if CanOccur(s1, c) && |s1.game.table| <= 3 then Perform(scn, s1, c) else s1;
      if CanOccur(s1, c) {
        SoundIffPolite(scn, s1, c);
      }
    }
  }

  lemma SeatedIsServed(s: Srv, side: Side)
    requires SeatSound(s) && s.playersConnected == 4
    ensures var ix := s.activeSides[side];
            && ix in s.mgr.roles && s.mgr.roles[ix] == ServingActive && ix in s.mgr.mail && |s.game.table| <= 3
  {
    FullSeatsHaveMail(s);
    NobodyIsMissing(s.activeSides);
    hide SeatsTaken;
  }

  lemma IntroThenExit(s: Srv, side: Side, ix: int)
    requires ix in s.mgr.roles && s.mgr.roles[ix] == ServingActive && ix in s.mgr.mail && s.playersConnected == 4
    ensures var s1 := PlayerIntro(s, side, ix).0;
            && ix in s1.mgr.roles && s1.mgr.roles[ix] == Cleanup
            && var s2 := GrandExit(s1, ix, false).0;
            && s2.activeSides == s.activeSides && ix in s2.mgr.toErase && s2.game == s.game
  {
    hide TakeSeat;
  }

  /**
   * What the impolite introduction leads to: a seated worker that introduces itself again, reports its exit
   * and is cleaned up still occupies its seat, and the next job for that side finds no worker.
   */
  lemma SecondIntroLosesTheMailbox(scn: Scenario, s: Srv, side: Side, other: Side, job: Job)
    requires SeatSound(s) && s.playersConnected == 4
    ensures var ix := s.activeSides[side];
            var s1 := Run(scn, s, [IntroMsg(other, ix), ExitCb(ix, false), Cleaner]);
            && s1.activeSides[side] == ix
            && ix in SendJob(s1.mgr, job, s1.activeSides[side]).unknown
  {
    hide SeatSound, TakeSeat, PlayerIntro, GrandExit;
    var ix := s.activeSides[side];
    SeatedIsServed(s, side);
    IntroThenExit(s, other, ix);
    var s1 := PlayerIntro(s, other, ix).0;
    var s2 := GrandExit(s1, ix, false).0;
    RunStep(scn, s, IntroMsg(other, ix), [ExitCb(ix, false), Cleaner]);
    IntroKeepsGame(s, other, ix);
    RunStep(scn, s1, ExitCb(ix, false), [Cleaner]);
    RunStep(scn, s2, Cleaner, []);
  }

  lemma IntroKeepsGame(s: Srv, side: Side, ix: int)
    requires ix in s.mgr.roles && s.mgr.roles[ix] != ServingUnknown
    ensures PlayerIntro(s, side, ix).0.game == s.game
  {
  }

  lemma RunStep(scn: Scenario, s: Srv, c: Callback, cs: seq<Callback>)
    requires CanOccur(s, c) && |s.game.table| <= 3
    ensures Run(scn, s, [c] + cs) == Run(scn, Perform(scn, s, c), cs)
  {
    hide CanOccur, Perform;
    assert ([c] + cs)[1..] == cs;
  }

  lemma {:induction false} RunAppend(scn: Scenario, s: Srv, a: seq<Callback>, b: seq<Callback>)
    ensures Run(scn, s, a + b) == Run(scn, Run(scn, s, a), b)
    decreases |a|
  {
    hide Perform, CanOccur;
    if a == [] {
      assert a + b == b;
    } else {
      assert (a + b)[0] == a[0] && (a + b)[1..] == a[1..] + b;
      RunAppend(scn, if CanOccur(s, a[0]) && |s.game.table| <= 3 then Perform(scn, s, a[0]) else s, a[1..], b);
    }
  }

  lemma IntroSeats(scn: Scenario, s: Srv, side: Side, ix: int)
    requires SeatSound(s) && ix in s.mgr.roles && s.mgr.roles[ix] == ServingUnknown && s.activeSides[side] == -1
    ensures CanOccur(s, IntroMsg(side, ix)) && |s.game.table| <= 3
    ensures var s1 := Perform(scn, s, IntroMsg(side, ix));
            && SeatSound(s1) && s1.activeSides == s.activeSides[side := ix]
            && s1.playersConnected == s.playersConnected + 1
            && s1.mgr.roles == s.mgr.roles[ix := ServingActive] && s1.game.exiting == s.game.exiting
  {
    hide SessionInv, ActiveSeats, ZombiesKnown, SeatMail;
    IntroSoundIffPolite(s, side, ix);
    SmallTable(s);
    SeatMailRoles(Seat(s, side, ix), side, ix);
  }

  lemma SeatMailRoles(s: Srv, side: Side, ix: int)
    ensures SeatMail(s, side, ix).roles == s.mgr.roles
  {
    hide Post, PostLog;
    PostFrame(s.mgr, s.activeSides, Deals(s.game) + AskNext(s.game));
    var m := SendJob(s.mgr, Deal(s.game.roundMode, s.game.nextMove, LastDealOf(s.game, side)), ix);
    PostLogFrame(m, ix, s.game.takenInRound);
    PostFrame(PostLog(m, ix, s.game.takenInRound), s.activeSides, AskNext(s.game));
  }

  lemma StartIsSound(scn: Scenario)
    requires scn != []
    ensures SeatSound(StartServer(scn)) && StartServer(scn).mgr.nextIx == 1
    ensures forall x: Side :: StartServer(scn).activeSides[x] == -1
    ensures StartServer(scn).playersConnected == 0 && !StartServer(scn).game.exiting
  {
    hide SessionInv, Start;
    StartServerIsFine(scn);
    StartIsGoing(scn);
    forall x: Side ensures StartServer(scn).activeSides[x] == -1 {
      match x { case N => case E => case S => case W => }
    }
  }

  lemma StartIsGoing(scn: Scenario)
    requires scn != []
    ensures !Start(scn).exiting
  {
  }

  /** One more client connects and takes a free seat. */
  lemma OneJoins(scn: Scenario, s: Srv, side: Side)
    requires SeatSound(s) && s.activeSides[side] == -1
    ensures var s1 := Run(scn, s, [Connected, IntroMsg(side, s.mgr.nextIx)]);
            && SeatSound(s1) && s1.activeSides == s.activeSides[side := s.mgr.nextIx]
            && s1.playersConnected == s.playersConnected + 1 && s1.game.exiting == s.game.exiting
  {
    hide SeatSound, PlayerIntro, Run;
    ConnectedSound(s);
    SoundTableOf(s);
    var s1 := Perform(scn, s, Connected);
    IntroSeats(scn, s1, side, s.mgr.nextIx);
    RunStep(scn, s, Connected, [IntroMsg(side, s.mgr.nextIx)]);
    RunStep(scn, s1, IntroMsg(side, s.mgr.nextIx), []);
    RunNothing(scn, Perform(scn, s1, IntroMsg(side, s.mgr.nextIx)));
    assert [Connected] + [IntroMsg(side, s.mgr.nextIx)] == [Connected, IntroMsg(side, s.mgr.nextIx)];
    assert [IntroMsg(side, s.mgr.nextIx)] + [] == [IntroMsg(side, s.mgr.nextIx)];
  }

  lemma SoundTableOf(s: Srv)
    requires SeatSound(s)
    ensures |s.game.table| <= 3
  {
  }

  lemma RunNothing(scn: Scenario, s: Srv)
    ensures Run(scn, s, []) == s
  {
  }

  /** The state in which all four are connected is reached from the start. */
  lemma FourJoin(scn: Scenario) returns (cs: seq<Callback>)
    requires scn != []
    ensures var s := Run(scn, StartServer(scn), cs); SeatSound(s) && s.playersConnected == 4 && !s.game.exiting
  {
    hide SeatSound, Run, StartServer;
    var s0 := StartServer(scn);
    StartIsSound(scn);
    OneJoins(scn, s0, N);
    var a := [Connected, IntroMsg(N, s0.mgr.nextIx)];
    var s1 := Run(scn, s0, a);
    OneJoins(scn, s1, E);
    var b := [Connected, IntroMsg(E, s1.mgr.nextIx)];
    var s2 := Run(scn, s1, b);
    OneJoins(scn, s2, S);
    var c := [Connected, IntroMsg(S, s2.mgr.nextIx)];
    var s3 := Run(scn, s2, c);
    OneJoins(scn, s3, W);
    var d := [Connected, IntroMsg(W, s3.mgr.nextIx)];
    RunAppend(scn, s0, a, b);
    RunAppend(scn, s0, a + b, c);
    RunAppend(scn, s0, a + b + c, d);
    cs := a + b + c + d;
  }

  /** A run from the start after which a side is taken by a worker that is no longer there. */
  lemma SecondIntroRun(scn: Scenario, side: Side, job: Job) returns (cs: seq<Callback>)
    requires scn != []
    ensures var s := Run(scn, StartServer(scn), cs);
            s.activeSides[side] != -1 && s.activeSides[side] in SendJob(s.mgr, job, s.activeSides[side]).unknown
  {
    hide SeatSound, Run, SendJob;
    var before := FourJoin(scn);
    var s := Run(scn, StartServer(scn), before);
    SeatedIsServed(s, side);
    SecondIntroLosesTheMailbox(scn, s, side, side, job);
    var ix := s.activeSides[side];
    cs := before + [IntroMsg(side, ix), ExitCb(ix, false), Cleaner];
    RunAppend(scn, StartServer(scn), before, [IntroMsg(side, ix), ExitCb(ix, false), Cleaner]);
    SeatedNotNobody(s, side);
  }

  lemma SeatedNotNobody(s: Srv, side: Side)
    requires SeatSound(s) && s.playersConnected == 4
    ensures s.activeSides[side] != -1
  {
    hide SeatsTaken;
    SeatedIsServed(s, side);
  }
}
