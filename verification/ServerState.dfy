/** The server's callbacks as functions of its state (server/server.cpp, server/io_worker_mgr.cpp). */
module ServerState {
  import opened Cards
  import opened Jobs
  import opened Game

  datatype Role = ServingUnknown | ServingActive | ServingProxy | Cleanup | CleanupUnknown | Shutdown

  /**
   * The worker manager. mail[ix] holds every job handed to worker ix, in order; roles outlive their workers.
   * unknown collects the addresses for which a lookup in the worker map has thrown.
   */
  datatype Mgr = Mgr(
    mail: map<int, seq<Job>>,
    roles: map<int, Role>,
    killed: set<int>,
    toErase: seq<int>,
    finishFlag: bool,
    nextIx: nat,
    unknown: set<int>)

  type Seating = m: map<Side, int> | forall s: Side :: s in m
    witness PerSide(-1, -1, -1, -1)

  datatype Srv = Srv(
    game: Game,
    mgr: Mgr,
    activeSides: Seating,
    workerToSide: map<int, Side>,
    zombieWorkerToSide: map<int, Side>,
    playersConnected: int)

  // ---------------------------------------------------------------- the worker manager

  function Threw(m: Mgr, ix: int): Mgr {
    m.(unknown := m.unknown + {ix})
  }

  function SendJob(m: Mgr, job: Job, ix: int): Mgr {
    if ix in m.mail then m.(mail := m.mail[ix := m.mail[ix] + [job]]) else Threw(m, ix)
  }

  function SendKill(m: Mgr, ix: int): Mgr {
    if ix in m.mail then m.(killed := m.killed + {ix}) else Threw(m, ix)
  }

  function Finish(m: Mgr): Mgr {
    m.(finishFlag := true, killed := m.killed + (set ix | ix in m.mail && ix !in m.toErase))
  }

  function EraseWorker(m: Mgr, ix: int): Mgr {
    if ix in m.toErase then m else m.(toErase := m.toErase + [ix])
  }

  function SetRole(m: Mgr, ix: int, role: Role): Mgr {
    m.(roles := m.roles[ix := role])
  }

  function Spawn(m: Mgr, role: Role): Mgr {
    m.(mail := m.mail[m.nextIx := []], roles := m.roles[m.nextIx := role], nextIx := m.nextIx + 1)
  }

  /** One pass of the cleaner. */
  function Clear(m: Mgr): Mgr {
    m.(mail := m.mail - (set ix | ix in m.toErase), toErase := [])
  }

  /** Hands each job to whoever sits at its side. */
  function Post(m: Mgr, seats: Seating, outs: seq<Out>): Mgr {
    if outs == [] then m
    else
      var o := outs[|outs| - 1];
      SendJob(Post(m, seats, outs[..|outs| - 1]), o.job, seats[o.to])
  }

  /** Hands the logged messages to one worker. */
  function PostLog(m: Mgr, ix: int, log: seq<TakenJob>): Mgr {
    if log == [] then m else SendJob(PostLog(m, ix, log[..|log| - 1]), log[|log| - 1], ix)
  }

  lemma PostSnoc(m: Mgr, seats: Seating, outs: seq<Out>, o: Out)
    ensures Post(m, seats, outs + [o]) == SendJob(Post(m, seats, outs), o.job, seats[o.to])
  {
    assert (outs + [o])[..|outs|] == outs;
  }

  /** Every worker that is not queued for erasure has been ordered to quit. */
  ghost predicate AllOrdered(m: Mgr) {
    m.finishFlag && forall x :: x in m.mail && x !in m.toErase ==> x in m.killed
  }

  // ---------------------------------------------------------------- the callbacks

  function Finalize(s: Srv): Srv {
    if s.game.exiting then s else s.(game := s.game.(exiting := true), mgr := Finish(s.mgr))
  }

  ghost function MoveBy(scn: Scenario, s: Srv, side: Side, trickNo: int, card: Card): Srv
    requires |s.game.table| <= 3
  {
    if Accepted(s.game, trickNo, side, card) then
      var g := Accept(scn, s.game, card);
      var m := Post(s.mgr, s.activeSides, AcceptOuts(scn, s.game, card));
      s.(game := g, mgr := if g.exiting && !s.game.exiting then Finish(m) else m)
    else
      s.(mgr := SendJob(s.mgr, Wrong(s.game.trickNo), s.activeSides[side]))
  }

  /** Server::playerTricked; the second result tells whether the message is done with. */
  ghost function PlayerTricked(scn: Scenario, s: Srv, trickNo: int, card: Card, ix: int): (Srv, bool)
    requires ix in s.mgr.roles && |s.game.table| <= 3
  {
    if s.playersConnected < 4 then (s, false)
    else match s.mgr.roles[ix]
      case ServingUnknown => (s.(mgr := SendKill(SetRole(s.mgr, ix, CleanupUnknown), ix)), true)
      case ServingActive =>
        if ix in s.workerToSide then (MoveBy(scn, s, s.workerToSide[ix], trickNo, card), true)
        else (s.(mgr := Threw(s.mgr, ix)), true)
      case ServingProxy => (Finalize(s.(mgr := SetRole(s.mgr, ix, CleanupUnknown))), true)
      case Cleanup =>
        if ix in s.zombieWorkerToSide then (MoveBy(scn, s, s.zombieWorkerToSide[ix], trickNo, card), true)
        else (s.(mgr := Threw(s.mgr, ix)), true)
      case CleanupUnknown => (s, true)
      case Shutdown => (s, true)
  }

  function LastDealOf(g: Game, side: Side): Hand {
    if side in g.lastDeal then g.lastDeal[side] else []
  }

  /** A worker takes a free seat. */
  function Seat(s: Srv, side: Side, ix: int): Srv {
    s.(activeSides := s.activeSides[side := ix], workerToSide := s.workerToSide[ix := side],
       playersConnected := s.playersConnected + 1, mgr := SetRole(s.mgr, ix, ServingActive))
  }

  /** The game starts when all four are there for the first time. */
  function SeatGame(s: Srv): Game {
    if s.playersConnected == 4 && s.game.lastDeal == map[] then s.game.(lastDeal := s.game.hands) else s.game
  }

  /** The jobs that follow when a worker has sat down: the start of the game, or a replay of the round. */
  function SeatMail(s: Srv, side: Side, ix: int): Mgr {
    if s.playersConnected == 4 && s.game.lastDeal == map[] then
      Post(s.mgr, s.activeSides, Deals(s.game) + AskNext(s.game))
    else if s.game.lastDeal != map[] then
      var m := SendJob(s.mgr, Deal(s.game.roundMode, s.game.nextMove, LastDealOf(s.game, side)), ix);
      var m1 := PostLog(m, ix, s.game.takenInRound);
      if s.playersConnected == 4 then Post(m1, s.activeSides, AskNext(s.game)) else m1
    else s.mgr
  }

  function TakeSeat(s: Srv, side: Side, ix: int): Srv {
    var s1 := Seat(s, side, ix);
    s1.(game := SeatGame(s1), mgr := SeatMail(s1, side, ix))
  }

  /** Server::playerIntro. */
  function PlayerIntro(s: Srv, side: Side, ix: int): (Srv, bool)
    requires ix in s.mgr.roles
  {
    if s.mgr.roles[ix] != ServingUnknown then
      if s.playersConnected < 4 then (s, false)
      else (s.(mgr := SetRole(SendKill(s.mgr, ix), ix, Cleanup)), true)
    else if s.activeSides[side] == -1 then (TakeSeat(s, side, ix), true)
    else
      var busy := set x | x in s.activeSides && s.activeSides[x] != -1;
      (s.(mgr := SendJob(SetRole(s.mgr, ix, CleanupUnknown), Busy(busy), ix)), true)
  }

  function Dismiss(m: Mgr, ix: int): Mgr {
    SetRole(EraseWorker(m, ix), ix, Shutdown)
  }

  /** Server::grandExitCallback when no internal error is reported; true lets the worker's thread end. */
  function GrandExit(s: Srv, ix: int, hasWork: bool): (Srv, bool)
    requires ix in s.mgr.roles
  {
    match s.mgr.roles[ix]
    case ServingUnknown => (s.(mgr := Dismiss(s.mgr, ix)), true)
    case ServingActive =>
      if ix !in s.workerToSide then (s.(mgr := Threw(s.mgr, ix)), true)
      else
        var side := s.workerToSide[ix];
        var s1 := s.(playersConnected := s.playersConnected - 1,
                     activeSides := s.activeSides[side := -1],
                     zombieWorkerToSide := s.zombieWorkerToSide[ix := side],
                     workerToSide := s.workerToSide - {ix});
        if hasWork || (s1.playersConnected < 3 && !s.game.exiting)
        then (s1.(mgr := SetRole(s.mgr, ix, Cleanup)), false)
        else (s1.(mgr := Dismiss(s.mgr, ix)), true)
    case ServingProxy => (Finalize(s.(mgr := Dismiss(s.mgr, ix))), true)
    case Cleanup =>
      if s.playersConnected == 4 && !hasWork then (s.(mgr := Dismiss(s.mgr, ix)), true) else (s, false)
    case CleanupUnknown =>
      if s.playersConnected == 4 && !hasWork then (s.(mgr := Dismiss(s.mgr, ix)), true) else (s, false)
    case Shutdown => (s, true)
  }

  /** Server::handleTimeout: whoever is to move is asked again. */
  function HandleTimeout(s: Srv, ix: int): Srv
    requires ix in s.mgr.roles
  {
    if s.game.exiting then s
    else if s.mgr.roles[ix] == ServingUnknown then s.(mgr := SendKill(s.mgr, ix))
    else if s.mgr.roles[ix] == ServingActive then
      if ix !in s.workerToSide then s.(mgr := Threw(s.mgr, ix))
      else if s.game.nextMove != s.workerToSide[ix] || s.playersConnected < 4 then s
      else s.(mgr := SendJob(s.mgr, Trick(s.game.table, s.game.trickNo), ix))
    else s
  }

  /** Server::handleWrongMessage. */
  function HandleWrongMessage(s: Srv, ix: int): (Srv, bool) {
    if s.playersConnected < 4 && !s.game.exiting then (s, false)
    else (s.(mgr := SendKill(s.mgr, ix)), true)
  }

  /** The server as run() leaves it: the first round prepared and the listening worker spawned. */
  function StartServer(scn: Scenario): Srv
    requires scn != []
  {
    Srv(Start(scn),
        Spawn(Mgr(map[], map[], {}, [], false, 0, {}), ServingProxy),
        PerSide(-1, -1, -1, -1), map[], map[], 0)
  }
}
