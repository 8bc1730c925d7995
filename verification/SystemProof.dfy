/** The server and its clients stay in step over every run. */
module SystemProof {
  import opened Cards
  import opened Rules
  import opened Jobs
  import opened Game
  import opened GameInvariant
  import opened GameRuns
  import opened ServerState
  import opened Session
  import opened SessionRuns
  import opened Client
  import opened Views
  import opened Delivery
  import opened System

  // ---------------------------------------------------------------- mailboxes after posting

  /** No two sides share a worker. */
  ghost predicate Apart(seats: Seating) {
    forall a: Side, b: Side :: a != b ==> seats[a] == -1 || seats[a] != seats[b]
  }

  lemma MatchedIsApart(seats: Seating, sideOf: map<int, Side>)
    requires Matched(seats, sideOf)
    ensures Apart(seats)
  {
  }

  lemma {:induction false} PostReaches(m: Mgr, seats: Seating, outs: seq<Out>, s: Side)
    requires Apart(seats) && seats[s] != -1 && seats[s] in m.mail
    ensures Post(m, seats, outs).mail.Keys == m.mail.Keys
    ensures Post(m, seats, outs).mail[seats[s]] == m.mail[seats[s]] + JobsFor(outs, s)
  {
    if outs != [] {
      PostReaches(m, seats, outs[..|outs| - 1], s);
    }
  }

  lemma {:induction false} PostMisses(m: Mgr, seats: Seating, outs: seq<Out>, ix: int)
    requires ix in m.mail && forall s: Side :: seats[s] != ix
    ensures ix in Post(m, seats, outs).mail && Post(m, seats, outs).mail[ix] == m.mail[ix]
  {
    if outs != [] {
      PostMisses(m, seats, outs[..|outs| - 1], ix);
    }
  }

  lemma {:induction false} PostClean(m: Mgr, seats: Seating, outs: seq<Out>)
    requires CleanMail(m.mail) && AllReadable(outs)
    ensures CleanMail(Post(m, seats, outs).mail)
  {
    if outs != [] {
      PostClean(m, seats, outs[..|outs| - 1]);
    }
  }

  lemma {:induction false} PostLogReaches(m: Mgr, ix: int, log: seq<TakenJob>, other: int)
    requires ix in m.mail
    ensures PostLog(m, ix, log).mail.Keys == m.mail.Keys
    ensures PostLog(m, ix, log).mail[ix] == m.mail[ix] + log
    ensures other != ix && other in m.mail ==> PostLog(m, ix, log).mail[other] == m.mail[other]
  {
    if log != [] {
      PostLogReaches(m, ix, log[..|log| - 1], other);
      assert log == log[..|log| - 1] + [log[|log| - 1]];
    }
  }

  lemma CleanPush(mail: map<int, seq<Job>>, ix: int, j: Job)
    requires CleanMail(mail) && ix in mail && ValidToClient(j) && !j.Wrong?
    ensures CleanMail(mail[ix := mail[ix] + [j]])
  {
  }

  lemma CleanPop(mail: map<int, seq<Job>>, ix: int)
    requires CleanMail(mail) && ix in mail && mail[ix] != []
    ensures CleanMail(mail[ix := mail[ix][1..]])
  {
    hide ValidToClient;
  }

  // ---------------------------------------------------------------- facts about seats

  lemma SeatFacts(s: Srv)
    requires SeatSound(s)
    ensures Apart(s.activeSides)
    ensures forall x: Side :: s.activeSides[x] != -1 ==>
              && s.activeSides[x] in s.mgr.mail && s.activeSides[x] in s.mgr.roles
              && s.mgr.roles[s.activeSides[x]] == ServingActive && s.activeSides[x] >= 0
    ensures s.playersConnected >= 4 ==> Full(s.activeSides)
    ensures s.playersConnected <= 4
    ensures forall ix :: ix in s.mgr.roles && s.mgr.roles[ix] != ServingActive ==>
            forall x: Side :: s.activeSides[x] != ix
  {
    MatchedIsApart(s.activeSides, s.workerToSide);
    if s.playersConnected >= 4 {
      NobodyIsMissing(s.activeSides);
    }
    hide SeatsTaken, Apart, Full;
  }

  lemma SeatedSide(s: Srv, ix: int)
    requires SeatSound(s) && ix in s.mgr.roles && s.mgr.roles[ix] == ServingActive
    ensures ix in s.workerToSide && s.activeSides[s.workerToSide[ix]] == ix != -1
  {
    hide SeatsTaken, Alive, ZombiesKnown;
  }

  // ---------------------------------------------------------------- delivery to a client

  lemma DeliverSeat(scn: Scenario, g: Game, s: Side, p: Proc, box: seq<Job>)
    requires g.roundNumber < |scn| && SeatView(scn, g, s, p, box) && box != []
    ensures SeatView(scn, g, s, RecvP(p, box[0]), box[1..])
    ensures Settled(RecvP(p, box[0]), box[1..]) == Settled(p, box)
  {
    hide InStep, RecvP, Settled;
    SettledDeliver(p, box);
  }

  lemma ToClientStrangers(roles: map<int, Role>, mail: map<int, seq<Job>>, procs: map<int, Proc>, ix: int)
    requires Strangers(roles, mail, procs) && ix in mail && ix in procs && mail[ix] != []
    ensures Strangers(roles, mail[ix := mail[ix][1..]], procs[ix := RecvP(procs[ix], mail[ix][0])])
  {
  }

  lemma ToClientSeats(scn: Scenario, g: Game, seats: Seating, mail: map<int, seq<Job>>, procs: map<int, Proc>, ix: int)
    requires g.roundNumber < |scn| && Seats(scn, g, seats, mail, procs) && ix in mail && ix in procs && mail[ix] != []
    ensures Seats(scn, g, seats, mail[ix := mail[ix][1..]], procs[ix := RecvP(procs[ix], mail[ix][0])])
  {
    hide SeatView, RecvP;
    forall s: Side | seats[s] == ix != -1
      ensures SeatView(scn, g, s, RecvP(procs[ix], mail[ix][0]), mail[ix][1..])
    {
      DeliverSeat(scn, g, s, procs[ix], mail[ix]);
    }
  }

  lemma ToClientAsked(g: Game, seats: Seating, mail: map<int, seq<Job>>, procs: map<int, Proc>, ix: int)
    requires Asked(g, seats, mail, procs) && ix in mail && ix in procs && mail[ix] != []
    ensures Asked(g, seats, mail[ix := mail[ix][1..]], procs[ix := RecvP(procs[ix], mail[ix][0])])
  {
    hide Answered, RecvP, Settled;
    SettledDeliver(procs[ix], mail[ix]);
  }

  lemma ToClientKeeps(scn: Scenario, sys: System, ix: int)
    requires SystemInv(scn, sys) && Enabled(sys, ToClient(ix))
    ensures SystemInv(scn, Do(scn, sys, ToClient(ix)))
  {
    hide SessionInv, GameReady, Strangers, Seats, Asked, RecvP, ActiveSeats, ZombiesKnown, Over, CleanMail;
    var s := sys.srv;
    ToClientStrangers(s.mgr.roles, s.mgr.mail, sys.procs, ix);
    MailOnlyKeeps(s, s.(mgr := s.mgr.(mail := s.mgr.mail[ix := s.mgr.mail[ix][1..]])));
    CleanPop(s.mgr.mail, ix);
    ReadyInRange(scn, s.game);
    ToClientSeats(scn, s.game, s.activeSides, s.mgr.mail, sys.procs, ix);
    if s.playersConnected == 4 {
      ToClientAsked(s.game, s.activeSides, s.mgr.mail, sys.procs, ix);
    }
  }

  lemma ReadyInRange(scn: Scenario, g: Game)
    requires GameReady(scn, g)
    ensures WellFormed(scn) && g.roundNumber < |scn| && |g.table| <= 3 && !g.exiting
  {
  }

  // ---------------------------------------------------------------- a client joins, a timer fires, the cleaner runs

  lemma JoinStrangers(m: Mgr, procs: map<int, Proc>, p: Proc)
    requires Strangers(m.roles, m.mail, procs) && Introducing(p) && Alive(m)
    ensures var m1 := Spawn(m, ServingUnknown);
            Strangers(m1.roles, m1.mail, procs[m.nextIx := p])
  {
  }

  lemma IdsAreUsed(s: Srv)
    requires SessionInv(s)
    ensures Alive(s.mgr) && s.mgr.nextIx !in s.mgr.roles
  {
  }

  lemma JoinSeats(scn: Scenario, g: Game, seats: Seating, mail: map<int, seq<Job>>, procs: map<int, Proc>, ix: int,
      p: Proc)
    requires g.roundNumber < |scn| && Seats(scn, g, seats, mail, procs) && forall s: Side :: seats[s] != ix
    ensures Seats(scn, g, seats, mail[ix := []], procs[ix := p])
    ensures Asked(g, seats, mail, procs) ==> Asked(g, seats, mail[ix := []], procs[ix := p])
  {
    hide SeatView, Answered, Settled;
  }

  lemma NewIsNobody(s: Srv)
    requires SeatSound(s)
    ensures forall x: Side :: s.activeSides[x] != s.mgr.nextIx
    ensures Alive(s.mgr)
  {
    hide SeatSound;
    SeatFacts(s);
    SoundMeansSession(s);
    IdsAreUsed(s);
  }

  lemma JoinKeeps(scn: Scenario, sys: System, side: Side)
    requires SystemInv(scn, sys) && Enabled(sys, Join(side))
    ensures SystemInv(scn, Do(scn, sys, Join(side)))
  {
    hide SeatSound, GameReady, Strangers, Seats, Asked, Alive, CleanMail, Over, PlayerIntro, PlayerTricked, GrandExit;
    var s := sys.srv;
    var p := Proc(FRESH, [Intro(side)]);
    ConnectedSound(s);
    NewIsNobody(s);
    JoinStrangers(s.mgr, sys.procs, p);
    CleanNew(s.mgr.mail, s.mgr.nextIx);
    ReadyInRange(scn, s.game);
    JoinSeats(scn, s.game, s.activeSides, s.mgr.mail, sys.procs, s.mgr.nextIx, p);
  }

  lemma CleanNew(mail: map<int, seq<Job>>, ix: int)
    requires CleanMail(mail)
    ensures CleanMail(mail[ix := []])
  {
  }

  lemma SoundMeansSession(s: Srv)
    requires SeatSound(s)
    ensures SessionInv(s) && |s.game.table| <= 3
  {
  }

  /** Asking the player to move once more leaves it with the one answer it has given. */
  lemma AskAgain(scn: Scenario, g: Game, s: Side, p: Proc, box: seq<Job>)
    requires GameReady(scn, g) && g.lastDeal != map[] && s == g.nextMove && SeatView(scn, g, s, p, box)
    ensures SeatView(scn, g, s, p, box + [Trick(g.table, g.trickNo)])
    ensures Answered(g, s, Settled(p, box + [Trick(g.table, g.trickNo)]))
  {
    hide InStep, Answered, Settled, Inv;
    AskMessage(scn, g, Settled(p, box));
    SettledAppend(p, box, [Trick(g.table, g.trickNo)]);
    SettledOne(Settled(p, box), Trick(g.table, g.trickNo));
  }

  lemma PushStrangers(roles: map<int, Role>, mail: map<int, seq<Job>>, procs: map<int, Proc>, ix: int, j: Job)
    requires Strangers(roles, mail, procs) && ix in mail && ix in roles && roles[ix] == ServingActive
    ensures Strangers(roles, mail[ix := mail[ix] + [j]], procs)
  {
  }

  lemma AskOne(scn: Scenario, g: Game, seats: Seating, mail: map<int, seq<Job>>, procs: map<int, Proc>)
    requires GameReady(scn, g) && g.roundNumber < |scn| && Seats(scn, g, seats, mail, procs)
             && Asked(g, seats, mail, procs)
    requires Apart(seats) && seats[g.nextMove] != -1
    ensures var ix := seats[g.nextMove];
            var mail1 := mail[ix := mail[ix] + [Trick(g.table, g.trickNo)]];
            Seats(scn, g, seats, mail1, procs) && Asked(g, seats, mail1, procs)
  {
    hide SeatView, Answered, Settled, GameReady;
    var ix := seats[g.nextMove];
    AskAgain(scn, g, g.nextMove, procs[ix], mail[ix]);
  }

  lemma TimerSends(scn: Scenario, sys: System, ix: int)
    requires SystemInv(scn, sys) && Enabled(sys, Timer(ix))
    requires ix in sys.srv.workerToSide && sys.srv.mgr.roles[ix] == ServingActive
    requires sys.srv.game.nextMove == sys.srv.workerToSide[ix] && sys.srv.playersConnected == 4
    ensures Together(scn, sys.(srv := HandleTimeout(sys.srv, ix)))
    ensures CleanMail(HandleTimeout(sys.srv, ix).mgr.mail)
  {
    hide SeatSound, GameReady, Strangers, Seats, Asked, CleanMail, Over, Full, Apart, ValidToClient;
    var s := sys.srv;
    var j := Trick(s.game.table, s.game.trickNo);
    SeatFacts(s);
    SeatedSide(s, ix);
    PushStrangers(s.mgr.roles, s.mgr.mail, sys.procs, ix, j);
    AskedNumbers(scn, s.game);
    CleanPush(s.mgr.mail, ix, j);
    AskOne(scn, s.game, s.activeSides, s.mgr.mail, sys.procs);
  }

  lemma AskedNumbers(scn: Scenario, g: Game)
    requires GameReady(scn, g)
    ensures g.roundNumber < |scn| && ValidToClient(Trick(g.table, g.trickNo))
  {
    hide RmAll, LegalMove, LogLegal, Replay, WellFormed, Partition, Conserved, GrandTotals;
  }

  lemma TimerKeeps(scn: Scenario, sys: System, ix: int)
    requires SystemInv(scn, sys) && Enabled(sys, Timer(ix))
    ensures SystemInv(scn, Do(scn, sys, Timer(ix)))
  {
    hide SeatSound, Strangers, Seats, Asked, CleanMail, Finished, GameReady;
    var s := sys.srv;
    TimeoutSound(s, ix);
    SeatFacts(s);
    SoundMeansSession(s);
    if s.mgr.roles[ix] == ServingActive {
      SeatedSide(s, ix);
      if s.game.nextMove == s.workerToSide[ix] && s.playersConnected >= 4 {
        TimerSends(scn, sys, ix);
      }
    } else if s.mgr.roles[ix] == ServingUnknown {
      HandlerHasMail(s, ix);
    }
  }

  lemma SweepStrangers(m: Mgr, procs: map<int, Proc>)
    requires Strangers(m.roles, m.mail, procs) && Alive(m)
    ensures Strangers(m.roles, Clear(m).mail, procs)
  {
  }

  lemma SweepSeats(scn: Scenario, g: Game, seats: Seating, m: Mgr, procs: map<int, Proc>)
    requires g.roundNumber < |scn| && Seats(scn, g, seats, m.mail, procs)
    requires forall x: Side :: seats[x] != -1 ==> seats[x] !in m.toErase
    ensures Seats(scn, g, seats, Clear(m).mail, procs)
    ensures Asked(g, seats, m.mail, procs) && seats[g.nextMove] != -1 ==> Asked(g, seats, Clear(m).mail, procs)
  {
    hide SeatView, Answered, Settled;
  }

  lemma SweepKeeps(scn: Scenario, sys: System)
    requires SystemInv(scn, sys) && Enabled(sys, Sweep)
    ensures SystemInv(scn, Do(scn, sys, Sweep))
  {
    hide SeatSound, Strangers, Seats, Asked, CleanMail, Over, GameReady, Alive, PlayerIntro, PlayerTricked, GrandExit;
    var s := sys.srv;
    SweepSound(scn, s);
    SweepStrangers(s.mgr, sys.procs);
    CleanSweep(s.mgr);
    SeatFacts(s);
    SeatedNotErased(s);
    ReadyInRange(scn, s.game);
    SweepSeats(scn, s.game, s.activeSides, s.mgr, sys.procs);
  }

  lemma SweepSound(scn: Scenario, s: Srv)
    requires SeatSound(s)
    ensures Alive(s.mgr) && SeatSound(s.(mgr := Clear(s.mgr)))
  {
    hide SeatSound, Clear;
    SoundMeansSession(s);
    IdsAreUsed(s);
    SoundIffPolite(scn, s, Cleaner);
  }

  lemma SeatedNotErased(s: Srv)
    requires SeatSound(s)
    ensures forall x: Side :: s.activeSides[x] != -1 ==> s.activeSides[x] !in s.mgr.toErase
  {
    SeatFacts(s);
  }

  lemma CleanSweep(m: Mgr)
    requires CleanMail(m.mail)
    ensures CleanMail(Clear(m).mail)
  {
  }

  // ---------------------------------------------------------------- a worker reports its exit

  lemma ExitFrame(s: Srv, ix: int, hasWork: bool)
    requires SeatSound(s) && ix in s.mgr.roles && s.mgr.roles[ix] != ServingProxy
    ensures var s1 := GrandExit(s, ix, hasWork).0;
            && s1.game == s.game && s1.mgr.mail == s.mgr.mail
            && (s1.mgr.roles == s.mgr.roles || s1.mgr.roles == s.mgr.roles[ix := Cleanup]
                || s1.mgr.roles == s.mgr.roles[ix := Shutdown])
            && (|| (s1.activeSides == s.activeSides && s1.playersConnected == s.playersConnected)
                || (s1.playersConnected < 4 && ix in s.workerToSide
                    && s1.activeSides == s.activeSides[s.workerToSide[ix] := -1]))
  {
    hide SeatSound, Full, Apart, GrandExit, EraseWorker;
    SeatFacts(s);
    EraseKeepsMail(s.mgr, ix);
    if s.mgr.roles[ix] == ServingActive {
      SeatedSide(s, ix);
      ActiveExit(s, ix, hasWork);
      EraseKeepsMail(Leave(s, ix).mgr, ix);
      assert s.mgr.roles[ix := Cleanup][ix := Shutdown] == s.mgr.roles[ix := Shutdown];
    } else {
      OtherExit(s, ix, hasWork);
    }
  }

  lemma EraseKeepsMail(m: Mgr, ix: int)
    ensures EraseWorker(m, ix).mail == m.mail && EraseWorker(m, ix).roles == m.roles
  {
  }

  lemma ExitStrangers(roles: map<int, Role>, mail: map<int, seq<Job>>, procs: map<int, Proc>, ix: int, role: Role)
    requires Strangers(roles, mail, procs) && ix in roles && roles[ix] != ServingProxy
             && (role == Cleanup || role == Shutdown)
    ensures Strangers(roles[ix := role], mail, procs)
  {
  }

  lemma DropKeeps(scn: Scenario, sys: System, ix: int, hasWork: bool)
    requires SystemInv(scn, sys) && Enabled(sys, Drop(ix, hasWork))
    ensures SystemInv(scn, Do(scn, sys, Drop(ix, hasWork)))
  {
    hide SeatSound, GrandExit, Strangers, SeatView, Answered, Settled, CleanMail, Finished, GameReady;
    var s := sys.srv;
    ExitSound(s, ix, hasWork);
    ExitFrame(s, ix, hasWork);
    ExitStrangers(s.mgr.roles, s.mgr.mail, sys.procs, ix, Cleanup);
    ExitStrangers(s.mgr.roles, s.mgr.mail, sys.procs, ix, Shutdown);
    ReadyInRange(scn, s.game);
  }

  // ---------------------------------------------------------------- a worker reads a move

  /** The only thing a seated client can have sent is its answer to the open trick. */
  lemma SeatedMessage(scn: Scenario, g: Game, s: Side, p: Proc, box: seq<Job>)
    requires GameReady(scn, g) && SeatView(scn, g, s, p, box) && p.outbox != []
    ensures g.lastDeal != map[] && s == g.nextMove
    ensures Answered(g, s, Settled(p, box))
    ensures p.outbox == [Trick([Pick(g.hands[s], g.table)], g.trickNo)]
    ensures Settled(p.(outbox := []), box) == Settled(p, box).(outbox := [])
  {
    hide Inv, Settled, Answered, InStep;
    ReadyInRange(scn, g);
    NothingSentYet(p, box);
    var q := Settled(p, box);
    SettledOutbox(p, box);
    OneAnswer(scn, g, s, q);
    assert |p.outbox| <= |q.outbox| == 1 && p.outbox[0] == q.outbox[0];
    assert p.outbox == q.outbox && p.outbox[1..] == [] && q.outbox[1..] == [];
  }

  lemma NothingSentYet(p: Proc, box: seq<Job>)
    requires p.outbox != []
    ensures !(box == [] && p == Proc(FRESH, []))
  {
  }

  lemma OneAnswer(scn: Scenario, g: Game, s: Side, q: Proc)
    requires g.roundNumber < |scn| && InStep(scn, g, s, q) && q.outbox != []
    ensures Answered(g, s, q) && s == g.nextMove && g.hands[s] != []
    ensures q.outbox == [Trick([Pick(g.hands[s], g.table)], g.trickNo)]
  {
    hide Sane, HasPlayed, Pick, Rm, RmTaken;
  }

  /** The view of a side after an accepted move, before the jobs of the move reach it. */
  lemma ViewAfterPlace(scn: Scenario, g: Game, s: Side, p: Proc, box: seq<Job>)
    requires GameReady(scn, g) && g.lastDeal != map[] && SeatView(scn, g, s, p, box)
    requires s == g.nextMove ==> p.outbox != []
    requires g.hands[g.nextMove] != []
    ensures var card := Pick(g.hands[g.nextMove], g.table);
            && LegalMove(g.hands[g.nextMove], card, g.table)
            && InStep(scn, Place(g, card), s, Settled(if s == g.nextMove then p.(outbox := []) else p, box))
  {
    hide RoundInv, Partition, Conserved, GrandTotals, Settled, InStep, Pick, LegalMove, Answered;
    PickIsLegal(g.hands[g.nextMove], g.table);
    if s == g.nextMove {
      SeatedMessage(scn, g, s, p, box);
      AnsweredHasSent(g, s, Settled(p, box));
      MoverIsDone(scn, g, Settled(p, box));
    } else {
      OthersUnmoved(scn, g, Pick(g.hands[g.nextMove], g.table), s, Settled(p, box));
    }
  }

  lemma AnsweredHasSent(g: Game, s: Side, p: Proc)
    requires Answered(g, s, p)
    ensures p.outbox != [] && g.hands[s] != []
  {
  }

  lemma AcceptSeat(scn: Scenario, g: Game, s: Side, p: Proc, box: seq<Job>)
    requires GameReady(scn, g) && g.lastDeal != map[] && SeatView(scn, g, s, p, box)
    requires s == g.nextMove ==> p.outbox != []
    requires g.hands[g.nextMove] != []
    ensures var card := Pick(g.hands[g.nextMove], g.table);
            var g1 := Accept(scn, g, card);
            var p1 := if s == g.nextMove then p.(outbox := []) else p;
            var box1 := box + JobsFor(AcceptOuts(scn, g, card), s);
            !g1.exiting ==>
              GameReady(scn, g1) && g1.lastDeal != map[] && SeatView(scn, g1, s, p1, box1)
              && (s == g1.nextMove ==> Answered(g1, s, Settled(p1, box1)))
  {
    hide RoundState, Settled, InStep, Pick, LegalMove, Answered, Accept, AcceptOuts, JobsFor, Finished, Progress;
    var card := Pick(g.hands[g.nextMove], g.table);
    ViewAfterPlace(scn, g, s, p, box);
    var p1 := if s == g.nextMove then p.(outbox := []) else p;
    AcceptKeeps(scn, g, card);
    AcceptView(scn, g, card, s, Settled(p1, box));
    SettledAppend(p1, box, JobsFor(AcceptOuts(scn, g, card), s));
    var g1 := Accept(scn, g, card);
    NonEmptyDeal(scn, g1.roundNumber);
    if !g1.exiting {
      InvFacts(scn, g1);
    }
  }

  lemma NonEmptyDeal(scn: Scenario, n: nat)
    ensures n < |scn| ==> scn[n].deal != map[]
  {
    if n < |scn| {
      assert N in scn[n].deal;
    }
  }

  /** Connections without a seat are not touched by jobs for the seated. */
  lemma PostStrangers(m: Mgr, seats: Seating, outs: seq<Out>, procs: map<int, Proc>)
    requires Strangers(m.roles, m.mail, procs)
    requires forall ix :: ix in m.roles && m.roles[ix] != ServingActive ==> forall x: Side :: seats[x] != ix
    ensures Strangers(m.roles, Post(m, seats, outs).mail, procs)
  {
    hide Post, Introducing, TurnedAway;
    forall ix | ix in m.roles && m.roles[ix] != ServingActive && ix in m.mail
      ensures ix in Post(m, seats, outs).mail && Post(m, seats, outs).mail[ix] == m.mail[ix]
    {
      PostMisses(m, seats, outs, ix);
    }
  }

  lemma PopStrangers(roles: map<int, Role>, mail: map<int, seq<Job>>, procs: map<int, Proc>, ix: int, p: Proc)
    requires Strangers(roles, mail, procs) && ix in roles && roles[ix] == ServingActive
    ensures Strangers(roles, mail, procs[ix := p])
  {
  }

  lemma MoverNotEmptyHanded(scn: Scenario, g: Game)
    requires GameReady(scn, g)
    ensures g.hands[g.nextMove] != [] && Inv(scn, g)
  {
    MoverHasCards(scn, g);
  }

  /** The state after an accepted move, with the mover's answer taken off its channel. */
  ghost function AfterMove(scn: Scenario, sys: System, ix: int): System
    requires |sys.srv.game.table| <= 3 && ix in sys.procs && sys.srv.game.hands[sys.srv.game.nextMove] != []
  {
    var s, g := sys.srv, sys.srv.game;
    var card := Pick(g.hands[g.nextMove], g.table);
    System(MoveBy(scn, s, g.nextMove, g.trickNo, card), sys.procs[ix := sys.procs[ix].(outbox := [])])
  }

  lemma MoveTogether(scn: Scenario, sys: System, ix: int)
    requires SystemInv(scn, sys) && !sys.srv.game.exiting && sys.srv.playersConnected == 4
    requires ix == sys.srv.activeSides[sys.srv.game.nextMove] && ix in sys.procs && sys.procs[ix].outbox != []
    requires sys.srv.game.hands[sys.srv.game.nextMove] != [] && |sys.srv.game.table| <= 3
    requires var g := sys.srv.game; Accepted(g, g.trickNo, g.nextMove, Pick(g.hands[g.nextMove], g.table))
    ensures var sys1 := AfterMove(scn, sys, ix);
            !sys1.srv.game.exiting ==> Together(scn, sys1)
  {
    hide SeatSound, Strangers, SeatView, Answered, Settled, CleanMail, Finished, GameReady, Post, Accept, AcceptOuts,
         Accepted, JobsFor, Pick, Apart;
    var s, g := sys.srv, sys.srv.game;
    var card := Pick(g.hands[g.nextMove], g.table);
    var outs := AcceptOuts(scn, g, card);
    var g1 := Accept(scn, g, card);
    if !g1.exiting {
      SeatFacts(s);
      PostStrangers(s.mgr, s.activeSides, outs, sys.procs);
      var mail1 := Post(s.mgr, s.activeSides, outs).mail;
      PopStrangers(s.mgr.roles, mail1, sys.procs, ix, sys.procs[ix].(outbox := []));
      PostFrame(s.mgr, s.activeSides, outs);
      var procs1 := sys.procs[ix := sys.procs[ix].(outbox := [])];
      ReadyInRange(scn, g);
      AcceptSeat(scn, g, g.nextMove, sys.procs[ix], s.mgr.mail[ix]);
      ReadyInRange(scn, g1);
      forall x: Side
        ensures s.activeSides[x] in mail1 && s.activeSides[x] in procs1
        ensures SeatView(scn, g1, x, procs1[s.activeSides[x]], mail1[s.activeSides[x]])
        ensures x == g1.nextMove ==> Answered(g1, x, Settled(procs1[s.activeSides[x]], mail1[s.activeSides[x]]))
      {
        var i := s.activeSides[x];
        PostReaches(s.mgr, s.activeSides, outs, x);
        AcceptSeat(scn, g, x, sys.procs[i], s.mgr.mail[i]);
        SameWorkerSameSide(s.activeSides, x, g.nextMove);
      }
    }
  }

  /** The last card: what every seated client finds in its mailbox brings it to the end of the game. */
  lemma MoveOver(scn: Scenario, sys: System, ix: int)
    requires SystemInv(scn, sys) && !sys.srv.game.exiting && sys.srv.playersConnected == 4
    requires ix == sys.srv.activeSides[sys.srv.game.nextMove] && ix in sys.procs && sys.procs[ix].outbox != []
    requires sys.srv.game.hands[sys.srv.game.nextMove] != [] && |sys.srv.game.table| <= 3
    requires var g := sys.srv.game; Accepted(g, g.trickNo, g.nextMove, Pick(g.hands[g.nextMove], g.table))
    ensures var sys1 := AfterMove(scn, sys, ix);
            sys1.srv.game.exiting ==> SeenThrough(sys1.srv.activeSides, sys1.srv.mgr.mail, sys1.procs)
  {
    hide SeatSound, Strangers, SeatView, Answered, Settled, CleanMail, Finished, GameReady, Post, Accept, AcceptOuts,
         Accepted, JobsFor, Pick, Apart, Through;
    var s, g := sys.srv, sys.srv.game;
    var card := Pick(g.hands[g.nextMove], g.table);
    var outs := AcceptOuts(scn, g, card);
    if Accept(scn, g, card).exiting {
      SeatFacts(s);
      var mail1 := Post(s.mgr, s.activeSides, outs).mail;
      PostFrame(s.mgr, s.activeSides, outs);
      var procs1 := sys.procs[ix := sys.procs[ix].(outbox := [])];
      ReadyInRange(scn, g);
      forall x: Side
        ensures s.activeSides[x] in mail1 && s.activeSides[x] in procs1
        ensures Through(Settled(procs1[s.activeSides[x]], mail1[s.activeSides[x]]))
      {
        var i := s.activeSides[x];
        PostReaches(s.mgr, s.activeSides, outs, x);
        LastSeat(scn, g, x, sys.procs[i], s.mgr.mail[i]);
        SameWorkerSameSide(s.activeSides, x, g.nextMove);
      }
    }
  }

  lemma LastSeat(scn: Scenario, g: Game, s: Side, p: Proc, box: seq<Job>)
    requires GameReady(scn, g) && g.lastDeal != map[] && SeatView(scn, g, s, p, box)
    requires s == g.nextMove ==> p.outbox != []
    requires g.hands[g.nextMove] != []
    ensures var card := Pick(g.hands[g.nextMove], g.table);
            var p1 := if s == g.nextMove then p.(outbox := []) else p;
            Accept(scn, g, card).exiting ==> Through(Settled(p1, box + JobsFor(AcceptOuts(scn, g, card), s)))
  {
    hide RoundState, Settled, InStep, Pick, LegalMove, Answered, Accept, AcceptOuts, JobsFor, Through;
    var card := Pick(g.hands[g.nextMove], g.table);
    ViewAfterPlace(scn, g, s, p, box);
    var p1 := if s == g.nextMove then p.(outbox := []) else p;
    LastView(scn, g, card, s, Settled(p1, box));
    SettledAppend(p1, box, JobsFor(AcceptOuts(scn, g, card), s));
  }

  lemma SameWorkerSameSide(seats: Seating, a: Side, b: Side)
    requires Apart(seats) && seats[a] != -1
    ensures seats[a] == seats[b] <==> a == b
  {
  }

  /** What a worker reads from a seated client while four are connected is the open trick's answer, and it is legal. */
  lemma SeatedReads(scn: Scenario, sys: System, ix: int)
    requires SystemInv(scn, sys) && Enabled(sys, ToServer(ix)) && sys.srv.mgr.roles[ix] == ServingActive
    ensures ix in sys.srv.workerToSide && sys.srv.workerToSide[ix] == sys.srv.game.nextMove
    ensures sys.srv.activeSides[sys.srv.game.nextMove] == ix
    ensures var g := sys.srv.game;
            && g.hands[g.nextMove] != []
            && var card := Pick(g.hands[g.nextMove], g.table);
            && sys.procs[ix].outbox == [Trick([card], g.trickNo)]
            && Accepted(g, g.trickNo, g.nextMove, card)
  {
    hide SeatSound, Strangers, Answered, Settled, CleanMail, Finished, GameReady, Pick, LegalMove, Asked, SeatView;
    var s, g := sys.srv, sys.srv.game;
    SeatFacts(s);
    SeatedSide(s, ix);
    ReadyInRange(scn, g);
    SeatedMessage(scn, g, s.workerToSide[ix], sys.procs[ix], s.mgr.mail[ix]);
    MoverNotEmptyHanded(scn, g);
    PickIsLegal(g.hands[g.nextMove], g.table);
  }

  lemma AcceptEnds(scn: Scenario, g: Game, card: Card)
    requires GameReady(scn, g) && Accepted(g, g.trickNo, g.nextMove, card)
    ensures AllReadable(AcceptOuts(scn, g, card))
    ensures Accept(scn, g, card).exiting ==> Finished(scn, Accept(scn, g, card))
  {
    hide RoundState, AcceptOuts, Accept, Finished, AllReadable, Progress, LegalMove;
    AcceptOutsValid(scn, g, card);
    AcceptKeeps(scn, g, card);
  }

  lemma ReadingTheAnswer(scn: Scenario, sys: System, ix: int, card: Card)
    requires Enabled(sys, ToServer(ix)) && sys.srv.mgr.roles[ix] == ServingActive && sys.srv.playersConnected == 4
    requires ix in sys.srv.workerToSide && sys.srv.workerToSide[ix] == sys.srv.game.nextMove
    requires sys.srv.game.hands[sys.srv.game.nextMove] != []
    requires card == Pick(sys.srv.game.hands[sys.srv.game.nextMove], sys.srv.game.table)
    requires sys.procs[ix].outbox == [Trick([card], sys.srv.game.trickNo)]
    ensures Do(scn, sys, ToServer(ix)) == AfterMove(scn, sys, ix)
  {
    hide MoveBy, Pick;
    assert sys.procs[ix].outbox[1..] == [];
  }

  lemma AcceptedMove(scn: Scenario, s: Srv, card: Card)
    requires |s.game.table| <= 3 && Accepted(s.game, s.game.trickNo, s.game.nextMove, card)
    ensures var s1 := MoveBy(scn, s, s.game.nextMove, s.game.trickNo, card);
            && s1.game == Accept(scn, s.game, card)
            && s1.mgr.mail == Post(s.mgr, s.activeSides, AcceptOuts(scn, s.game, card)).mail
  {
    hide Accept, AcceptOuts, Post, LegalMove;
  }

  /** Four are connected and the mover's answer is read: the move is accepted and everybody is in step again. */
  lemma MoveKeeps(scn: Scenario, sys: System, ix: int, card: Card)
    requires SystemInv(scn, sys) && Enabled(sys, ToServer(ix)) && sys.srv.mgr.roles[ix] == ServingActive
    requires sys.srv.playersConnected == 4 && sys.srv.activeSides[sys.srv.game.nextMove] == ix
    requires sys.srv.game.hands[sys.srv.game.nextMove] != []
    requires card == Pick(sys.srv.game.hands[sys.srv.game.nextMove], sys.srv.game.table)
    requires Accepted(sys.srv.game, sys.srv.game.trickNo, sys.srv.game.nextMove, card)
    ensures SystemInv(scn, AfterMove(scn, sys, ix))
  {
    hide SeatSound, Together, CleanMail, Finished, Pick, Accepted, Accept, AcceptOuts, Post, AllReadable, MoveBy,
         Enabled, SeenThrough;
    var s, g := sys.srv, sys.srv.game;
    EnabledFacts(sys, ix);
    MoveBySound(scn, s, g.nextMove, g.trickNo, card);
    MoveTogether(scn, sys, ix);
    MoveOver(scn, sys, ix);
    TogetherIsReady(scn, sys);
    AcceptEnds(scn, g, card);
    PostClean(s.mgr, s.activeSides, AcceptOuts(scn, g, card));
    AcceptedMove(scn, s, card);
  }

  lemma EnabledFacts(sys: System, ix: int)
    requires Enabled(sys, ToServer(ix))
    ensures !sys.srv.game.exiting && |sys.srv.game.table| <= 3
    ensures ix in sys.srv.mgr.roles && Reads(sys.srv.mgr.roles[ix]) && ix in sys.procs && sys.procs[ix].outbox != []
  {
  }

  lemma TooFewPlayers(scn: Scenario, sys: System, ix: int)
    requires Enabled(sys, ToServer(ix)) && sys.srv.playersConnected < 4 && sys.procs[ix].outbox[0].Trick?
    ensures Do(scn, sys, ToServer(ix)) == sys
  {
  }

  lemma ReadMoveKeeps(scn: Scenario, sys: System, ix: int)
    requires SystemInv(scn, sys) && Enabled(sys, ToServer(ix)) && sys.srv.mgr.roles[ix] == ServingActive
    ensures SystemInv(scn, Do(scn, sys, ToServer(ix)))
  {
    hide SeatSound, Together, CleanMail, Finished, Pick, Accepted, AfterMove, Do, Enabled;
    EnabledFacts(sys, ix);
    SeatedReads(scn, sys, ix);
    SeatFacts(sys.srv);
    if sys.srv.playersConnected == 4 {
      var card := Pick(sys.srv.game.hands[sys.srv.game.nextMove], sys.srv.game.table);
      MoveKeeps(scn, sys, ix, card);
      ReadingTheAnswer(scn, sys, ix, card);
    } else {
      TooFewPlayers(scn, sys, ix);
    }
  }

  lemma TogetherIsReady(scn: Scenario, sys: System)
    requires Together(scn, sys)
    ensures GameReady(scn, sys.srv.game)
  {
  }

  // ---------------------------------------------------------------- a worker reads an introduction

  lemma UnknownReads(scn: Scenario, sys: System, ix: int)
    requires Together(scn, sys) && Enabled(sys, ToServer(ix)) && sys.srv.mgr.roles[ix] != ServingActive
    ensures sys.srv.mgr.roles[ix] == ServingUnknown
    ensures ix in sys.srv.mgr.mail && sys.srv.mgr.mail[ix] == [] && Introducing(sys.procs[ix])
  {
    hide GameReady, Seats, Asked, Introducing, TurnedAway;
  }

  lemma BusyStrangers(roles: map<int, Role>, mail: map<int, seq<Job>>, procs: map<int, Proc>, ix: int, j: Job, p: Proc)
    requires Strangers(roles, mail, procs) && ix in roles && ix in mail && mail[ix] == [] && j.Busy? && p.outbox == []
    ensures Strangers(roles[ix := CleanupUnknown], mail[ix := [j]], procs[ix := p])
  {
  }

  /** The newcomer is turned away with one message and sends nothing more. */
  function Turned(sys: System, ix: int, busy: Job): System
    requires ix in sys.procs
  {
    var m := sys.srv.mgr;
    System(sys.srv.(mgr := m.(roles := m.roles[ix := CleanupUnknown], mail := m.mail[ix := [busy]])),
           sys.procs[ix := sys.procs[ix].(outbox := [])])
  }

  lemma BusyFrame(scn: Scenario, sys: System, ix: int, side: Side) returns (busy: Job)
    requires Enabled(sys, ToServer(ix)) && sys.srv.mgr.roles[ix] == ServingUnknown
    requires sys.procs[ix].outbox == [Intro(side)] && sys.srv.activeSides[side] != -1
    requires ix in sys.srv.mgr.mail && sys.srv.mgr.mail[ix] == []
    ensures busy.Busy? && ValidToClient(busy)
    ensures Do(scn, sys, ToServer(ix)) == Turned(sys, ix, busy)
    ensures Turned(sys, ix, busy).srv == PlayerIntro(sys.srv, side, ix).0
  {
    hide TakeSeat;
    var seats := sys.srv.activeSides;
    busy := Busy(set x | x in seats && seats[x] != -1);
    assert side in busy.sides;
    assert sys.procs[ix].outbox[1..] == [];
    assert sys.srv.mgr.mail[ix] + [busy] == [busy];
  }

  lemma TurnedTogether(scn: Scenario, sys: System, ix: int, busy: Job)
    requires Together(scn, sys) && SeatSound(sys.srv) && CleanMail(sys.srv.mgr.mail)
    requires busy.Busy? && ValidToClient(busy)
    requires ix in sys.procs && ix in sys.srv.mgr.roles && sys.srv.mgr.roles[ix] == ServingUnknown
    requires ix in sys.srv.mgr.mail && sys.srv.mgr.mail[ix] == []
    ensures Together(scn, Turned(sys, ix, busy)) && CleanMail(Turned(sys, ix, busy).srv.mgr.mail)
  {
    hide SeatSound, Strangers, SeatView, Answered, Settled, CleanMail, GameReady, ValidToClient, Apart, Full;
    var s, p := sys.srv, sys.procs[ix];
    SeatFacts(s);
    ReadyInRange(scn, s.game);
    BusyStrangers(s.mgr.roles, s.mgr.mail, sys.procs, ix, busy, p.(outbox := []));
    CleanPush(s.mgr.mail, ix, busy);
    assert [] + [busy] == [busy];
  }

  lemma BusyKeeps(scn: Scenario, sys: System, ix: int, side: Side)
    requires SystemInv(scn, sys) && Enabled(sys, ToServer(ix)) && sys.srv.mgr.roles[ix] == ServingUnknown
    requires sys.procs[ix].outbox == [Intro(side)] && sys.srv.activeSides[side] != -1
    ensures SystemInv(scn, Do(scn, sys, ToServer(ix)))
  {
    hide SeatSound, Together, CleanMail, Finished, PlayerIntro, Do, ValidToClient;
    UnknownReads(scn, sys, ix);
    IntroSoundIffPolite(sys.srv, side, ix);
    var busy := BusyFrame(scn, sys, ix, side);
    TurnedTogether(scn, sys, ix, busy);
  }

  /** A fresh client has just been given a seat: which messages it finds, and that they bring it in step. */
  lemma NewSeatView(scn: Scenario, g: Game, s: Side)
    requires GameReady(scn, g) && g.lastDeal != map[]
    ensures s in g.lastDeal
    ensures SeatView(scn, g, s, Proc(FRESH, []), [Deal(g.roundMode, g.nextMove, g.lastDeal[s])] + g.takenInRound)
  {
    hide RoundInv, Partition, Conserved, GrandTotals, InStep, Settled;
    assert s in scn[g.roundNumber].deal by { InRange(scn, g); }
    ReplayBringsInStep(scn, g, s);
  }

  lemma LogIsClean(scn: Scenario, g: Game)
    requires GameReady(scn, g)
    ensures CleanBox(g.takenInRound)
  {
    hide Replay, Partition, Conserved, GrandTotals, TrickLegal, RmAll, At, WellFormed;
    LogNumbered(scn[g.roundNumber], g.takenInRound);
  }

  lemma {:induction false} LogNumbered(r: Round, log: seq<TakenJob>)
    requires LogLegal(r, log) && |log| <= TRICKS_PER_ROUND
    ensures Replay(r, log).trickNo == |log| + 1
    ensures CleanBox(log)
  {
    hide TrickLegal, Taker, TrickPenaltyOf, RmAll, PerSide, At;
    if log != [] {
      LogNumbered(r, log[..|log| - 1]);
    }
  }

  lemma FirstDealView(scn: Scenario, g: Game, s: Side)
    requires GameReady(scn, g) && g.lastDeal == map[]
    ensures var g1 := g.(lastDeal := g.hands);
            && GameReady(scn, g1) && g1.lastDeal != map[]
            && SeatView(scn, g1, s, Proc(FRESH, []), [Deal(g.roundMode, g.nextMove, g.hands[s])])
            && ValidToClient(Deal(g.roundMode, g.nextMove, g.hands[s]))
  {
    var g1 := g.(lastDeal := g.hands);
    NewDealIsNoMatter(scn, g);
    assert g.hands == scn[0].deal && g.takenInRound == [] && g.table == [] && g.trickNo == 1;
    DealSize(scn, g, s);
    NonEmptyDeal(scn, 0);
    hide RoundState, InStep, Settled;
    NewSeatView(scn, g1, s);
    assert [Deal(g.roundMode, g.nextMove, g.hands[s])] + [] == [Deal(g.roundMode, g.nextMove, g.hands[s])];
  }

  // ---------------------------------------------------------------- a worker takes a seat

  lemma {:induction false} PostAppend(m: Mgr, seats: Seating, a: seq<Out>, b: seq<Out>)
    ensures Post(m, seats, a + b) == Post(Post(m, seats, a), seats, b)
  {
    if b == [] {
      assert a + b == a;
    } else {
      assert (a + b)[..|a + b| - 1] == a + b[..|b| - 1];
      PostAppend(m, seats, a, b[..|b| - 1]);
    }
  }

  ghost predicate SeatsHold(m: Mgr, seats: Seating) {
    && Apart(seats) && Full(seats)
    && (forall x: Side :: seats[x] in m.mail)
    && (forall ix :: ix in m.roles && m.roles[ix] != ServingActive ==> forall x: Side :: seats[x] != ix)
  }

  /** Four are connected and the player to move is asked. */
  lemma AskEverybody(scn: Scenario, g: Game, m: Mgr, seats: Seating, procs: map<int, Proc>)
    requires GameReady(scn, g) && g.lastDeal != map[] && SeatsHold(m, seats)
    requires Strangers(m.roles, m.mail, procs) && CleanMail(m.mail)
    requires Seats(scn, g, seats, m.mail, procs)
    ensures var m1 := Post(m, seats, AskNext(g));
            && Strangers(m.roles, m1.mail, procs) && CleanMail(m1.mail)
            && Seats(scn, g, seats, m1.mail, procs) && Asked(g, seats, m1.mail, procs)
  {
    hide Strangers, SeatView, Answered, Settled, CleanMail, GameReady, Post, JobsFor, ValidToClient, Apart, AskNext;
    var m1 := Post(m, seats, AskNext(g));
    AskNextIsClean(scn, g);
    PostStrangers(m, seats, AskNext(g), procs);
    PostClean(m, seats, AskNext(g));
    PostFrame(m, seats, AskNext(g));
    forall x: Side
      ensures seats[x] in m1.mail && SeatView(scn, g, x, procs[seats[x]], m1.mail[seats[x]])
      ensures x == g.nextMove ==> Answered(g, x, Settled(procs[seats[x]], m1.mail[seats[x]]))
    {
      PostReaches(m, seats, AskNext(g), x);
      JobsForAsk(g, x);
      if x == g.nextMove {
        AskAgain(scn, g, x, procs[seats[x]], m.mail[seats[x]]);
      } else {
        assert m.mail[seats[x]] + [] == m.mail[seats[x]];
      }
    }
  }

  lemma AskNextIsClean(scn: Scenario, g: Game)
    requires GameReady(scn, g)
    ensures AllReadable(AskNext(g)) && g.roundNumber < |scn|
  {
    hide GameReady;
    AskedNumbers(scn, g);
  }

  /** The game starts: every seated client gets its hand. */
  lemma DealEverybody(scn: Scenario, g: Game, m: Mgr, seats: Seating, procs: map<int, Proc>)
    requires GameReady(scn, g) && g.lastDeal == map[] && SeatsHold(m, seats)
    requires Strangers(m.roles, m.mail, procs) && CleanMail(m.mail)
    requires Seats(scn, g, seats, m.mail, procs)
    ensures var m1 := Post(m, seats, Deals(g));
            var g1 := g.(lastDeal := g.hands);
            && GameReady(scn, g1) && g1.lastDeal != map[]
            && Strangers(m.roles, m1.mail, procs) && CleanMail(m1.mail)
            && Seats(scn, g1, seats, m1.mail, procs) && SeatsHold(m1, seats)
  {
    hide Strangers, Settled, CleanMail, GameReady, Post, JobsFor, ValidToClient, Apart, Deals, InStep;
    var m1 := Post(m, seats, Deals(g));
    var g1 := g.(lastDeal := g.hands);
    ReadyInRange(scn, g);
    FirstDealView(scn, g, N);
    DealsAreClean(scn, g);
    PostStrangers(m, seats, Deals(g), procs);
    PostClean(m, seats, Deals(g));
    PostFrame(m, seats, Deals(g));
    forall x: Side
      ensures seats[x] in m1.mail && SeatView(scn, g1, x, procs[seats[x]], m1.mail[seats[x]])
    {
      PostReaches(m, seats, Deals(g), x);
      JobsForDeals(g, x);
      FirstDealView(scn, g, x);
      assert [] + JobsFor(Deals(g), x) == JobsFor(Deals(g), x);
    }
  }

  lemma DealsAreClean(scn: Scenario, g: Game)
    requires GameReady(scn, g) && g.lastDeal == map[]
    ensures AllReadable(Deals(g))
  {
    hide GameReady, SeatView;
    FirstDealView(scn, g, N);
    FirstDealView(scn, g, S);
    FirstDealView(scn, g, W);
    FirstDealView(scn, g, E);
  }

  lemma {:induction false} PostLogClean(m: Mgr, ix: int, log: seq<TakenJob>)
    requires CleanMail(m.mail) && CleanBox(log)
    ensures CleanMail(PostLog(m, ix, log).mail)
  {
    if log != [] {
      PostLogClean(m, ix, log[..|log| - 1]);
    }
  }

  /** A round in progress is replayed to the newcomer. */
  lemma ReplayToNewcomer(scn: Scenario, g: Game, m: Mgr, seats: Seating, procs: map<int, Proc>, side: Side, ix: int)
    requires GameReady(scn, g) && g.lastDeal != map[] && Apart(seats) && seats[side] == ix != -1
    requires ix in m.mail && m.mail[ix] == [] && ix in m.roles && m.roles[ix] == ServingActive
    requires Strangers(m.roles, m.mail, procs) && CleanMail(m.mail)
    requires ix in procs && procs[ix] == Proc(FRESH, [])
    requires forall x: Side :: x != side && seats[x] != -1 ==>
               seats[x] in m.mail && seats[x] in procs && SeatView(scn, g, x, procs[seats[x]], m.mail[seats[x]])
    ensures var m1 := PostLog(SendJob(m, Deal(g.roundMode, g.nextMove, LastDealOf(g, side)), ix), ix, g.takenInRound);
            && Strangers(m.roles, m1.mail, procs) && CleanMail(m1.mail) && m1.roles == m.roles
            && m1.mail.Keys == m.mail.Keys
            && Seats(scn, g, seats, m1.mail, procs)
  {
    hide Strangers, SeatView, CleanMail, GameReady, PostLog, ValidToClient;
    var deal := Deal(g.roundMode, g.nextMove, LastDealOf(g, side));
    var m0 := SendJob(m, deal, ix);
    var m1 := PostLog(m0, ix, g.takenInRound);
    NewSeatView(scn, g, side);
    ReplayedDealSize(scn, g, side);
    CleanPush(m.mail, ix, deal);
    LogIsClean(scn, g);
    PostLogClean(m0, ix, g.takenInRound);
    PostLogFrame(m0, ix, g.takenInRound);
    PostLogReaches(m0, ix, g.takenInRound, ix);
    assert m1.mail[ix] == [deal] + g.takenInRound;
    forall other | other in m.mail && other != ix ensures other in m1.mail && m1.mail[other] == m.mail[other] {
      PostLogReaches(m0, ix, g.takenInRound, other);
      assert other in m0.mail.Keys;
    }
    assert ix in m0.mail.Keys;
    OneMailboxStrangers(m.roles, m.mail, m1.mail, procs, ix);
    ReadyInRange(scn, g);
  }

  lemma OneMailboxStrangers(roles: map<int, Role>, mail: map<int, seq<Job>>, mail1: map<int, seq<Job>>,
      procs: map<int, Proc>, ix: int)
    requires Strangers(roles, mail, procs) && ix in roles && roles[ix] == ServingActive
    requires forall other :: other in mail && other != ix ==> other in mail1 && mail1[other] == mail[other]
    ensures Strangers(roles, mail1, procs)
  {
    hide Introducing, TurnedAway;
  }

  lemma ReplayedDealSize(scn: Scenario, g: Game, side: Side)
    requires GameReady(scn, g) && g.lastDeal != map[]
    ensures |LastDealOf(g, side)| == TRICKS_PER_ROUND && LastDealOf(g, side) == g.lastDeal[side]
  {
    hide RoundInv, Partition, Conserved, GrandTotals;
    InRange(scn, g);
    assert side in scn[g.roundNumber].deal;
  }

  lemma SeatIsSound(s: Srv, side: Side, ix: int)
    requires SeatSound(s) && Handler(s, ix) && s.mgr.roles[ix] == ServingUnknown && s.activeSides[side] == -1
    ensures SeatSound(Seat(s, side, ix))
  {
    hide SessionInv, ActiveSeats, ZombiesKnown;
    UnknownHasNoPast(s, ix);
    SeatRolesSound(s.mgr.roles, s.workerToSide, s.zombieWorkerToSide, ix, side);
    SeatKeeps(s, side, ix);
  }

  lemma SeatStrangers(roles: map<int, Role>, mail: map<int, seq<Job>>, procs: map<int, Proc>, ix: int)
    requires Strangers(roles, mail, procs) && ix in roles
    ensures Strangers(roles[ix := ServingActive], mail, procs[ix := Proc(FRESH, [])])
  {
  }

  /** The system in which the introduction has been read and the seat taken, before any job is posted. */
  ghost predicate Sitting(scn: Scenario, s: Srv, procs: map<int, Proc>, side: Side, ix: int) {
    && SeatSound(s) && GameReady(scn, s.game) && CleanMail(s.mgr.mail)
    && Strangers(s.mgr.roles, s.mgr.mail, procs)
    && s.activeSides[side] == ix != -1
    && ix in s.mgr.mail && s.mgr.mail[ix] == [] && ix in procs && procs[ix] == Proc(FRESH, [])
    && ix in s.mgr.roles && s.mgr.roles[ix] == ServingActive
    && s.game.roundNumber < |scn|
    && (forall x: Side :: x != side && s.activeSides[x] != -1 ==>
          && s.activeSides[x] in s.mgr.mail && s.activeSides[x] in procs
          && SeatView(scn, s.game, x, procs[s.activeSides[x]], s.mgr.mail[s.activeSides[x]]))
  }

  lemma SoundSeatsHold(s: Srv)
    requires SeatSound(s) && s.playersConnected == 4
    ensures SeatsHold(s.mgr, s.activeSides)
  {
    hide SeatSound;
    SeatFacts(s);
  }

  /** Nobody has been dealt a hand yet: an empty seat is in step with empty mail. */
  lemma EmptySeats(scn: Scenario, s: Srv, procs: map<int, Proc>, side: Side, ix: int)
    requires Sitting(scn, s, procs, side, ix) && s.game.lastDeal == map[]
    ensures Seats(scn, s.game, s.activeSides, s.mgr.mail, procs)
  {
    hide SeatSound, Strangers, SeatView, CleanMail, GameReady;
    EmptySeatView(scn, s.game, side);
  }

  /** The fourth player sits down: everybody gets a hand and the first player is asked. */
  lemma GameStarts(scn: Scenario, s: Srv, procs: map<int, Proc>, side: Side, ix: int)
    requires Sitting(scn, s, procs, side, ix) && s.playersConnected == 4 && s.game.lastDeal == map[]
    ensures var g1 := s.game.(lastDeal := s.game.hands);
            var m1 := Post(s.mgr, s.activeSides, Deals(s.game) + AskNext(s.game));
            && Together(scn, System(s.(game := g1, mgr := m1), procs)) && CleanMail(m1.mail)
  {
    hide SeatSound, Strangers, Seats, CleanMail, GameReady, Post, Deals, AskNext, SeatsHold, Asked;
    var g, m := s.game, Post(s.mgr, s.activeSides, Deals(s.game));
    var g1 := g.(lastDeal := g.hands);
    SoundSeatsHold(s);
    EmptySeats(scn, s, procs, side, ix);
    DealEverybody(scn, g, s.mgr, s.activeSides, procs);
    PostFrame(s.mgr, s.activeSides, Deals(g));
    AskEverybody(scn, g1, m, s.activeSides, procs);
    SameQuestion(g);
    PostAppend(s.mgr, s.activeSides, Deals(g), AskNext(g));
    PostFrame(m, s.activeSides, AskNext(g));
  }

  /** A player sits down in the middle of a round: it is replayed to the newcomer, and a full table goes on. */
  lemma RoundGoesOn(scn: Scenario, s: Srv, procs: map<int, Proc>, side: Side, ix: int)
    requires Sitting(scn, s, procs, side, ix) && s.game.lastDeal != map[]
    ensures Together(scn, System(s.(mgr := SeatMail(s, side, ix)), procs)) && CleanMail(SeatMail(s, side, ix).mail)
  {
    hide SeatSound, Strangers, SeatView, CleanMail, GameReady, Post, PostLog, Deals, AskNext, SeatsHold, Asked, Apart,
         SendJob, LastDealOf, Full;
    var g := s.game;
    SeatFacts(s);
    ReplayToNewcomer(scn, g, s.mgr, s.activeSides, procs, side, ix);
    if s.playersConnected == 4 {
      var m := PostLog(SendJob(s.mgr, Deal(g.roundMode, g.nextMove, LastDealOf(g, side)), ix), ix, g.takenInRound);
      SoundSeatsHold(s);
      HoldStill(s.mgr, m, s.activeSides);
      AskEverybody(scn, g, m, s.activeSides, procs);
      PostFrame(m, s.activeSides, AskNext(g));
    }
  }

  lemma MailFollows(scn: Scenario, s: Srv, procs: map<int, Proc>, side: Side, ix: int)
    requires Sitting(scn, s, procs, side, ix)
    ensures var s1 := s.(game := SeatGame(s), mgr := SeatMail(s, side, ix));
            Together(scn, System(s1, procs)) && CleanMail(s1.mgr.mail)
  {
    hide SeatSound, Strangers, Seats, CleanMail, GameReady, Post, PostLog, Deals, AskNext, Asked, SendJob, LastDealOf;
    if s.game.lastDeal != map[] {
      RoundGoesOn(scn, s, procs, side, ix);
    } else if s.playersConnected == 4 {
      GameStarts(scn, s, procs, side, ix);
    } else {
      EmptySeats(scn, s, procs, side, ix);
    }
  }

  lemma HoldStill(m: Mgr, m1: Mgr, seats: Seating)
    requires SeatsHold(m, seats) && m1.roles == m.roles && m1.mail.Keys == m.mail.Keys
    ensures SeatsHold(m1, seats)
  {
    hide Apart, Full;
    forall x: Side ensures seats[x] in m1.mail {
      assert seats[x] in m.mail.Keys;
    }
  }

  lemma EmptySeatView(scn: Scenario, g: Game, s: Side)
    requires g.roundNumber < |scn| && g.lastDeal == map[]
    ensures SeatView(scn, g, s, Proc(FRESH, []), [])
  {
  }

  lemma SameQuestion(g: Game)
    ensures AskNext(g.(lastDeal := g.hands)) == AskNext(g)
  {
  }

  lemma SitFrame(scn: Scenario, sys: System, ix: int, side: Side)
    requires Enabled(sys, ToServer(ix)) && sys.srv.mgr.roles[ix] == ServingUnknown
    requires sys.procs[ix] == Proc(FRESH, [Intro(side)]) && sys.srv.activeSides[side] == -1
    ensures Do(scn, sys, ToServer(ix)) == System(TakeSeat(sys.srv, side, ix), sys.procs[ix := Proc(FRESH, [])])
  {
    hide TakeSeat;
    assert sys.procs[ix].outbox[1..] == [];
  }

  /** The newcomer's seat is taken; the others are as they were. */
  lemma SitsDown(scn: Scenario, sys: System, ix: int, side: Side)
    requires Together(scn, sys) && SeatSound(sys.srv) && CleanMail(sys.srv.mgr.mail)
    requires Handler(sys.srv, ix) && sys.srv.mgr.roles[ix] == ServingUnknown && sys.srv.activeSides[side] == -1
    requires ix in sys.srv.mgr.mail && sys.srv.mgr.mail[ix] == []
    ensures Sitting(scn, Seat(sys.srv, side, ix), sys.procs[ix := Proc(FRESH, [])], side, ix)
  {
    hide SeatSound, Strangers, SeatView, CleanMail, GameReady, Asked, Apart, Full;
    var s := sys.srv;
    SeatIsSound(s, side, ix);
    SeatFacts(s);
    SeatFacts(Seat(s, side, ix));
    SeatStrangers(s.mgr.roles, s.mgr.mail, sys.procs, ix);
    ReadyInRange(scn, s.game);
  }

  lemma SitKeeps(scn: Scenario, sys: System, ix: int, side: Side)
    requires SystemInv(scn, sys) && Enabled(sys, ToServer(ix)) && sys.srv.mgr.roles[ix] == ServingUnknown
    requires sys.procs[ix] == Proc(FRESH, [Intro(side)]) && sys.srv.activeSides[side] == -1
    ensures SystemInv(scn, Do(scn, sys, ToServer(ix)))
  {
    hide SeatSound, Together, CleanMail, Sitting, SeatMail, SeatGame, Seat, Do, Over;
    UnknownReads(scn, sys, ix);
    SitFrame(scn, sys, ix, side);
    TakeSeatSound(sys.srv, side, ix);
    SitsDown(scn, sys, ix, side);
    MailFollows(scn, Seat(sys.srv, side, ix), sys.procs[ix := Proc(FRESH, [])], side, ix);
    NotFinishedYet(sys.srv, side, ix);
  }

  lemma NotFinishedYet(s: Srv, side: Side, ix: int)
    ensures TakeSeat(s, side, ix).game.exiting == s.game.exiting
  {
  }

  // ---------------------------------------------------------------- the theorems

  lemma ReadKeeps(scn: Scenario, sys: System, ix: int)
    requires SystemInv(scn, sys) && Enabled(sys, ToServer(ix))
    ensures SystemInv(scn, Do(scn, sys, ToServer(ix)))
  {
    hide SeatSound, Together, CleanMail, Finished, Do, PlayerIntro;
    if sys.srv.mgr.roles[ix] == ServingActive {
      ReadMoveKeeps(scn, sys, ix);
    } else {
      UnknownReads(scn, sys, ix);
      var side := sys.procs[ix].outbox[0].side;
      assert sys.procs[ix].outbox == [Intro(side)];
      if sys.srv.activeSides[side] == -1 {
        SitKeeps(scn, sys, ix, side);
      } else {
        BusyKeeps(scn, sys, ix, side);
      }
    }
  }

  lemma DoKeeps(scn: Scenario, sys: System, a: Act)
    requires SystemInv(scn, sys) && Enabled(sys, a)
    ensures SystemInv(scn, Do(scn, sys, a))
  {
    hide SystemInv, Do, Enabled;
    match a {
      case Join(side) => JoinKeeps(scn, sys, side);
      case ToServer(ix) => ReadKeeps(scn, sys, ix);
      case ToClient(ix) => ToClientKeeps(scn, sys, ix);
      case Drop(ix, hasWork) => DropKeeps(scn, sys, ix, hasWork);
      case Timer(ix) => TimerKeeps(scn, sys, ix);
      case Sweep => SweepKeeps(scn, sys);
    }
  }

  lemma BeginHolds(scn: Scenario)
    requires WellFormed(scn)
    ensures SystemInv(scn, Begin(scn))
  {
    hide SessionInv, RoundState, Start;
    StartServerIsFine(scn);
    StartIsGood(scn);
    StartNotDealt(scn);
    var s := StartServer(scn);
    forall x: Side ensures s.activeSides[x] == -1 {
      match x { case N => case E => case S => case W => }
    }
  }

  lemma StartNotDealt(scn: Scenario)
    requires scn != []
    ensures Start(scn).lastDeal == map[] && Start(scn).roundNumber == 0 && !Start(scn).exiting
  {
  }

  lemma {:induction false} RunHolds(scn: Scenario, sys: System, acts: seq<Act>)
    requires SystemInv(scn, sys)
    ensures SystemInv(scn, RunSystem(scn, sys, acts))
    decreases |acts|
  {
    hide SystemInv, Do, Enabled;
    if acts != [] {
      if Enabled(sys, acts[0]) {
        DoKeeps(scn, sys, acts[0]);
      }
      RunHolds(scn, if Enabled(sys, acts[0]) then Do(scn, sys, acts[0]) else sys, acts[1..]);
    }
  }

  /**
   * Over every interleaving of connections, deliveries, timeouts, dropped connections and reconnects:
   * the server never sends WRONG, sends only messages its clients can read, and finds the worker of every job.
   */
  lemma NeverWrong(scn: Scenario, acts: seq<Act>)
    requires WellFormed(scn)
    ensures var sys := RunSystem(scn, Begin(scn), acts);
            && (forall ix, i :: ix in sys.srv.mgr.mail && 0 <= i < |sys.srv.mgr.mail[ix]| ==>
                  ValidToClient(sys.srv.mgr.mail[ix][i]) && !sys.srv.mgr.mail[ix][i].Wrong?)
            && sys.srv.mgr.unknown == {}
  {
    hide Together, SessionInv, ActiveSeats, ZombiesKnown, Finished, RunSystem, ValidToClient;
    BeginHolds(scn);
    RunHolds(scn, Begin(scn), acts);
  }

  /** Each seated client that has read its messages is in step with the game until it is over; then all is played. */
  lemma ClientsAgree(scn: Scenario, acts: seq<Act>)
    requires WellFormed(scn)
    ensures var sys := RunSystem(scn, Begin(scn), acts);
            if sys.srv.game.exiting then Over(scn, sys) else Together(scn, sys)
  {
    hide Together, SeatSound, CleanMail, Finished, RunSystem;
    BeginHolds(scn);
    RunHolds(scn, Begin(scn), acts);
  }

  /**
   * In every reachable state a client that gets the replayed deal and tricks of a side is in step with the game, and
   * what the replay leaves of the stored deal is the side's hand once the cards on the table are taken away.
   */
  lemma ReconnectIsSound(scn: Scenario, acts: seq<Act>, s: Side)
    requires WellFormed(scn)
    ensures var g := RunSystem(scn, Begin(scn), acts).srv.game;
            !g.exiting && g.lastDeal != map[] ==>
              && s in g.lastDeal && g.roundNumber < |scn|
              && RmAll(RmTaken(g.lastDeal[s], g.takenInRound), g.table) == g.hands[s]
              && InStep(scn, g, s,
                 Settled(Proc(FRESH, []), [Deal(g.roundMode, g.nextMove, g.lastDeal[s])] + g.takenInRound))
  {
    hide Strangers, Seats, Asked, SeatSound, CleanMail, Finished, RunSystem, InStep, Settled, RmAll, RmTaken,
         Partition, Conserved, GrandTotals, RoundInv;
    BeginHolds(scn);
    RunHolds(scn, Begin(scn), acts);
    var g := RunSystem(scn, Begin(scn), acts).srv.game;
    if !g.exiting && g.lastDeal != map[] {
      InRange(scn, g);
      ReplayBringsInStep(scn, g, s);
      HandIsReplayed(scn, g, s);
    }
  }
}
