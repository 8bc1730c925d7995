/** One server and any number of automatic clients over FIFO channels, with every interleaving of their steps. */
module System {
  import opened Cards
  import opened Jobs
  import opened Game
  import opened GameInvariant
  import opened ServerState
  import opened SessionRuns
  import opened Client
  import opened Views

  /**
   * procs holds the client at the other end of each connection. A worker's mailbox is the channel to the client,
   * the client's outbox the channel to the server.
   */
  datatype System = System(srv: Srv, procs: map<int, Proc>)

  datatype Act =
    | Join(side: Side)               // a client connects and introduces itself
    | ToServer(ix: int)              // a worker reads the next message of its client
    | ToClient(ix: int)              // a client reads the next message of the server
    | Drop(ix: int, hasWork: bool)   // a worker reports its exit
    | Timer(ix: int)                 // a worker's response timeout fires
    | Sweep                          // the cleaner removes dismissed workers

  /** A worker that has reported its exit has quit and reads nothing more. */
  predicate Reads(role: Role) {
    role == ServingUnknown || role == ServingActive || role == CleanupUnknown
  }

  ghost function HandleMessage(scn: Scenario, s: Srv, j: Job, ix: int): (Srv, bool)
    requires ix in s.mgr.roles && |s.game.table| <= 3
  {
    match j
    case Intro(side) => PlayerIntro(s, side, ix)
    case Trick(table, no) => if |table| == 1 then PlayerTricked(scn, s, no, table[0], ix) else (s, false)
    case _ => (s, false)
  }

  ghost predicate Enabled(sys: System, a: Act) {
    && !sys.srv.game.exiting
    && |sys.srv.game.table| <= 3
    && match a
       case Join(_) => true
       case ToServer(ix) =>
         ix in sys.srv.mgr.roles && Reads(sys.srv.mgr.roles[ix]) && ix in sys.procs && sys.procs[ix].outbox != []
       case ToClient(ix) => ix in sys.srv.mgr.mail && ix in sys.procs && sys.srv.mgr.mail[ix] != []
       case Drop(ix, _) => ix in sys.srv.mgr.roles && sys.srv.mgr.roles[ix] != ServingProxy
       case Timer(ix) => ix in sys.srv.mgr.roles
       case Sweep => true
  }

  ghost function Do(scn: Scenario, sys: System, a: Act): System
    requires Enabled(sys, a)
  {
    var s := sys.srv;
    match a
    case Join(side) =>
      System(s.(mgr := Spawn(s.mgr, ServingUnknown)), sys.procs[s.mgr.nextIx := Proc(FRESH, [Intro(side)])])
    case ToServer(ix) =>
      var p := sys.procs[ix];
      var (s1, handled) := HandleMessage(scn, s, p.outbox[0], ix);
      System(s1, if handled then sys.procs[ix := p.(outbox := p.outbox[1..])] else sys.procs)
    case ToClient(ix) =>
      System(s.(mgr := s.mgr.(mail := s.mgr.mail[ix := s.mgr.mail[ix][1..]])),
             sys.procs[ix := RecvP(sys.procs[ix], s.mgr.mail[ix][0])])
    case Drop(ix, hasWork) => sys.(srv := GrandExit(s, ix, hasWork).0)
    case Timer(ix) => sys.(srv := HandleTimeout(s, ix))
    case Sweep => sys.(srv := s.(mgr := Clear(s.mgr)))
  }

  ghost function RunSystem(scn: Scenario, sys: System, acts: seq<Act>): System
    decreases |acts|
  {
    if acts == [] then sys
    else RunSystem(scn, if Enabled(sys, acts[0]) then Do(scn, sys, acts[0]) else sys, acts[1..])
  }

  function Begin(scn: Scenario): System
    requires scn != []
  {
    System(StartServer(scn), map[])
  }

  // ---------------------------------------------------------------- the invariant

  /** No message in any mailbox is WRONG, and the clients can read each of them. */
  ghost predicate CleanMail(mail: map<int, seq<Job>>) {
    forall ix :: ix in mail ==> CleanBox(mail[ix])
  }

  ghost predicate CleanBox(box: seq<Job>) {
    forall i :: 0 <= i < |box| ==> ValidToClient(box[i]) && !box[i].Wrong?
  }

  /** Connections without a seat: not yet introduced, or turned away. */
  ghost predicate Strangers(roles: map<int, Role>, mail: map<int, seq<Job>>, procs: map<int, Proc>) {
    forall ix :: ix in roles && roles[ix] != ServingProxy ==>
      && ix in procs
      && (roles[ix] == ServingUnknown ==> ix in mail && mail[ix] == [] && Introducing(procs[ix]))
      && (roles[ix] == CleanupUnknown ==> procs[ix].outbox == [] && ix in mail && TurnedAway(mail[ix]))
  }

  ghost predicate Introducing(p: Proc) {
    p.client == FRESH && |p.outbox| == 1 && p.outbox[0].Intro?
  }

  ghost predicate TurnedAway(box: seq<Job>) {
    forall i :: 0 <= i < |box| ==> box[i].Busy?
  }

  ghost predicate SeatView(scn: Scenario, g: Game, s: Side, p: Proc, box: seq<Job>)
    requires g.roundNumber < |scn|
  {
    if g.lastDeal == map[] then box == [] && p == Proc(FRESH, []) else InStep(scn, g, s, Settled(p, box))
  }

  ghost predicate Seats(scn: Scenario, g: Game, seats: Seating, mail: map<int, seq<Job>>, procs: map<int, Proc>)
    requires g.roundNumber < |scn|
  {
    forall s: Side :: seats[s] != -1 ==>
      seats[s] in mail && seats[s] in procs && SeatView(scn, g, s, procs[seats[s]], mail[seats[s]])
  }

  /** With four players the one to move has been asked, and its answer is on its way. */
  ghost predicate Asked(g: Game, seats: Seating, mail: map<int, seq<Job>>, procs: map<int, Proc>) {
    var ix := seats[g.nextMove];
    g.lastDeal != map[] && ix in mail && ix in procs && Answered(g, g.nextMove, Settled(procs[ix], mail[ix]))
  }

  ghost predicate GameReady(scn: Scenario, g: Game) {
    && Inv(scn, g)
    && (if g.lastDeal == map[] then g == Start(scn) else g.lastDeal == scn[g.roundNumber].deal)
  }

  ghost predicate Together(scn: Scenario, sys: System) {
    var s, m := sys.srv, sys.srv.mgr;
    && GameReady(scn, s.game)
    && Strangers(m.roles, m.mail, sys.procs)
    && Seats(scn, s.game, s.activeSides, m.mail, sys.procs)
    && (s.playersConnected == 4 ==> Asked(s.game, s.activeSides, m.mail, sys.procs))
  }

  /** The game is over, and each seated client that reads its messages sees it to its end. */
  ghost predicate Over(scn: Scenario, sys: System) {
    && Finished(scn, sys.srv.game)
    && SeenThrough(sys.srv.activeSides, sys.srv.mgr.mail, sys.procs)
  }

  ghost predicate SeenThrough(seats: Seating, mail: map<int, seq<Job>>, procs: map<int, Proc>) {
    forall s: Side :: seats[s] != -1 ==>
      seats[s] in mail && seats[s] in procs && Through(Settled(procs[seats[s]], mail[seats[s]]))
  }

  ghost predicate SystemInv(scn: Scenario, sys: System) {
    && SeatSound(sys.srv)
    && CleanMail(sys.srv.mgr.mail)
    && (if sys.srv.game.exiting then Over(scn, sys) else Together(scn, sys))
  }
}
