/** Nothing ever blocks the system: the game goes on, and it can always be brought to its end. */
module SystemRuns {
  import opened Cards
  import opened Rules
  import opened Jobs
  import opened Game
  import opened GameInvariant
  import opened GameRuns
  import opened ServerState
  import opened Session
  import opened SessionRuns
  import opened Client
  import opened System
  import opened SystemProof

  // ---------------------------------------------------------------- the game never stalls

  lemma NothingToSettle(p: Proc)
    ensures Settled(p, []) == p
  {
  }

  lemma DeliveryIs(scn: Scenario, sys: System, ix: int)
    requires !sys.srv.game.exiting && |sys.srv.game.table| <= 3
    requires ix in sys.srv.mgr.mail && ix in sys.procs && sys.srv.mgr.mail[ix] != []
    ensures Enabled(sys, ToClient(ix))
    ensures var m := sys.srv.mgr;
            Do(scn, sys, ToClient(ix)) == System(sys.srv.(mgr := m.(mail := m.mail[ix := m.mail[ix][1..]])),
                                                 sys.procs[ix := RecvP(sys.procs[ix], m.mail[ix][0])])
  {
    hide RecvP, PlayerIntro, PlayerTricked, GrandExit, HandleTimeout, Clear, Spawn;
  }

  lemma {:induction false} DeliverAll(scn: Scenario, sys: System, ix: int, n: nat, more: seq<Act>)
    requires !sys.srv.game.exiting && |sys.srv.game.table| <= 3
    requires ix in sys.srv.mgr.mail && ix in sys.procs && |sys.srv.mgr.mail[ix]| == n
    ensures var m := sys.srv.mgr;
            var sys1 := System(sys.srv.(mgr := m.(mail := m.mail[ix := []])),
                               sys.procs[ix := Settled(sys.procs[ix], m.mail[ix])]);
            RunSystem(scn, sys, seq(n, _ => ToClient(ix)) + more) == RunSystem(scn, sys1, more)
    decreases n
  {
    hide RecvP, Do, Enabled, Settled;
    var m := sys.srv.mgr;
    var acts := seq(n, _ => ToClient(ix)) + more;
    if n == 0 {
      assert acts == more;
      assert m.mail[ix := []] == m.mail;
      assert sys.procs[ix := sys.procs[ix]] == sys.procs;
      NothingToSettle(sys.procs[ix]);
    } else {
      var box := m.mail[ix];
      DeliveryIs(scn, sys, ix);
      var next := Do(scn, sys, ToClient(ix));
      SettledDeliver(sys.procs[ix], box);
      assert acts[0] == ToClient(ix) && acts[1..] == seq(n - 1, _ => ToClient(ix)) + more;
      DeliverAll(scn, next, ix, n - 1, more);
      assert next.srv.mgr.mail[ix := []] == m.mail[ix := []];
      assert next.procs[ix := Settled(next.procs[ix], next.srv.mgr.mail[ix])]
          == sys.procs[ix := Settled(sys.procs[ix], box)];
    }
  }

  lemma RunOne(scn: Scenario, sys: System, a: Act)
    requires Enabled(sys, a)
    ensures RunSystem(scn, sys, [a]) == Do(scn, sys, a)
  {
    hide Do, Enabled;
    assert [a][1..] == [];
  }

  /** Reading the answer of the player to move is one accepted move. */
  lemma AnswerIsAccepted(scn: Scenario, sys: System, ix: int)
    requires SystemInv(scn, sys) && sys.srv.playersConnected == 4
    requires Enabled(sys, ToServer(ix)) && sys.srv.mgr.roles[ix] == ServingActive
    ensures Progress(Do(scn, sys, ToServer(ix)).srv.game) == Progress(sys.srv.game) + 1
  {
    hide SeatSound, Together, CleanMail, Finished, Pick, Accept, AcceptOuts, Post, MoveBy, Do, Progress, Enabled,
         LegalMove;
    EnabledFacts(sys, ix);
    var s, g := sys.srv, sys.srv.game;
    SeatedReads(scn, sys, ix);
    var card := Pick(g.hands[g.nextMove], g.table);
    ReadingTheAnswer(scn, sys, ix, card);
    AcceptedMove(scn, s, card);
    TogetherIsReady(scn, sys);
    ReadyIsInv(scn, g);
    AcceptKeeps(scn, g, card);
  }

  lemma ReadyIsInv(scn: Scenario, g: Game)
    requires GameReady(scn, g)
    ensures Inv(scn, g)
  {
  }

  lemma AnsweredConnection(scn: Scenario, sys: System)
    requires SystemInv(scn, sys) && !sys.srv.game.exiting && sys.srv.playersConnected == 4
    ensures var ix := sys.srv.activeSides[sys.srv.game.nextMove];
            && ix in sys.srv.mgr.mail && ix in sys.procs && ix in sys.srv.mgr.roles
            && sys.srv.mgr.roles[ix] == ServingActive
            && Settled(sys.procs[ix], sys.srv.mgr.mail[ix]).outbox != []
            && |sys.srv.game.table| <= 3
  {
    hide SeatSound, GameReady, Strangers, Seats, Settled, CleanMail, Finished;
    SeatFacts(sys.srv);
    SoundMeansSession(sys.srv);
  }

  lemma RunNothing(scn: Scenario, sys: System)
    ensures RunSystem(scn, sys, []) == sys
  {
  }

  /** With four players connected a few deliveries and one read make one step of progress. */
  lemma Advance(scn: Scenario, sys: System) returns (acts: seq<Act>)
    requires SystemInv(scn, sys) && !sys.srv.game.exiting && sys.srv.playersConnected == 4
    ensures var ix := sys.srv.activeSides[sys.srv.game.nextMove];
            ix in sys.srv.mgr.mail && acts == seq(|sys.srv.mgr.mail[ix]|, _ => ToClient(ix)) + [ToServer(ix)]
    ensures Progress(RunSystem(scn, sys, acts).srv.game) == Progress(sys.srv.game) + 1
  {
    hide SystemInv, RunSystem, Do, Progress, GrandExit, PlayerIntro, PlayerTricked;
    AnsweredConnection(scn, sys);
    var ix := sys.srv.activeSides[sys.srv.game.nextMove];
    var m := sys.srv.mgr;
    var n := |m.mail[ix]|;
    acts := seq(n, _ => ToClient(ix)) + [ToServer(ix)];
    DeliverAll(scn, sys, ix, n, [ToServer(ix)]);
    var sys1 := System(sys.srv.(mgr := m.(mail := m.mail[ix := []])),
      sys.procs[ix := Settled(sys.procs[ix], m.mail[ix])]);
    DeliverAll(scn, sys, ix, n, []);
    RunHolds(scn, sys, seq(n, _ => ToClient(ix)) + []);
    RunNothing(scn, sys1);
    RunOne(scn, sys1, ToServer(ix));
    AnswerIsAccepted(scn, sys1, ix);
  }

  /**
   * While four players are connected the game never stalls: once the player to move has read its messages,
   * the next thing its worker reads is a move the server accepts.
   */
  lemma NeverStalls(scn: Scenario, before: seq<Act>)
    requires WellFormed(scn)
    ensures var sys := RunSystem(scn, Begin(scn), before);
            !sys.srv.game.exiting && sys.srv.playersConnected == 4 ==>
              var ix := sys.srv.activeSides[sys.srv.game.nextMove];
              && ix in sys.srv.mgr.mail
              && var acts := seq(|sys.srv.mgr.mail[ix]|, _ => ToClient(ix)) + [ToServer(ix)];
                 Progress(RunSystem(scn, sys, acts).srv.game) == Progress(sys.srv.game) + 1
  {
    hide SystemInv, RunSystem, Progress;
    BeginHolds(scn);
    RunHolds(scn, Begin(scn), before);
    var sys := RunSystem(scn, Begin(scn), before);
    if !sys.srv.game.exiting && sys.srv.playersConnected == 4 {
      var acts := Advance(scn, sys);
    }
  }

  // ---------------------------------------------------------------- the game can always be finished

  lemma {:induction false} RunSystemAppend(scn: Scenario, sys: System, a: seq<Act>, b: seq<Act>)
    ensures RunSystem(scn, sys, a + b) == RunSystem(scn, RunSystem(scn, sys, a), b)
    decreases |a|
  {
    hide Do, Enabled;
    if a == [] {
      assert a + b == b;
    } else {
      assert (a + b)[0] == a[0] && (a + b)[1..] == a[1..] + b;
      RunSystemAppend(scn, if Enabled(sys, a[0]) then Do(scn, sys, a[0]) else sys, a[1..], b);
    }
  }

  lemma FreeSeat(s: Srv) returns (side: Side)
    requires SeatSound(s) && s.playersConnected < 4
    ensures s.activeSides[side] == -1
  {
    hide Matched, RolesFit, Alive;
    if s.activeSides[N] == -1 { side := N; }
    else if s.activeSides[E] == -1 { side := E; }
    else if s.activeSides[S] == -1 { side := S; }
    else { side := W; }
  }

  /** The server after a client has connected and its introduction has been read. */
  lemma JoinAndSit(scn: Scenario, sys: System, side: Side)
    requires SystemInv(scn, sys) && !sys.srv.game.exiting && sys.srv.activeSides[side] == -1
    ensures var sys1 := RunSystem(scn, sys, [Join(side), ToServer(sys.srv.mgr.nextIx)]);
            && sys1.srv.playersConnected == sys.srv.playersConnected + 1
            && sys1.srv.game == sys.srv.game.(lastDeal := sys1.srv.game.lastDeal)
  {
    hide SystemInv, Do, Enabled, RunSystem, TakeSeat, Spawn;
    var ix := sys.srv.mgr.nextIx;
    NotExiting(scn, sys);
    JoinIs(scn, sys, side);
    var sys1 := Do(scn, sys, Join(side));
    RunTwo(scn, sys, Join(side), ToServer(ix));
    SitFrame(scn, sys1, ix, side);
    SpawnKeepsSeats(sys.srv);
    SeatChanges(sys1.srv, side, ix);
  }

  lemma RunTwo(scn: Scenario, sys: System, a: Act, b: Act)
    requires Enabled(sys, a) && Enabled(Do(scn, sys, a), b)
    ensures RunSystem(scn, sys, [a, b]) == Do(scn, Do(scn, sys, a), b)
  {
    hide Do, Enabled, RunSystem;
    assert [a, b] == [a] + [b];
    RunSystemAppend(scn, sys, [a], [b]);
    RunOne(scn, sys, a);
    RunOne(scn, Do(scn, sys, a), b);
  }

  lemma SpawnKeepsSeats(s: Srv)
    ensures s.(mgr := Spawn(s.mgr, ServingUnknown)).game == s.game
    ensures s.(mgr := Spawn(s.mgr, ServingUnknown)).activeSides == s.activeSides
  {
  }

  lemma NotExiting(scn: Scenario, sys: System)
    requires SystemInv(scn, sys) && !sys.srv.game.exiting
    ensures |sys.srv.game.table| <= 3 && Inv(scn, sys.srv.game) && SeatSound(sys.srv)
  {
    hide SeatSound, RoundState, Strangers, Seats, Asked, CleanMail;
  }

  lemma JoinIs(scn: Scenario, sys: System, side: Side)
    requires !sys.srv.game.exiting && |sys.srv.game.table| <= 3
    ensures Enabled(sys, Join(side))
    ensures var ix, sys1 := sys.srv.mgr.nextIx, Do(scn, sys, Join(side));
            && sys1.srv == sys.srv.(mgr := Spawn(sys.srv.mgr, ServingUnknown))
            && ix in sys1.srv.mgr.roles && sys1.srv.mgr.roles[ix] == ServingUnknown
            && ix in sys1.procs && sys1.procs[ix] == Proc(FRESH, [Intro(side)])
            && Enabled(sys1, ToServer(ix))
  {
    hide PlayerIntro, PlayerTricked, GrandExit, HandleTimeout, Clear;
  }

  lemma SeatChanges(s: Srv, side: Side, ix: int)
    ensures var s1 := TakeSeat(s, side, ix);
            s1.playersConnected == s.playersConnected + 1 && s1.game == s.game.(lastDeal := s1.game.lastDeal)
  {
    hide SeatMail;
  }

  /** One more client, or one more card: every state is one step away from a state that is nearer to the end. */
  lemma Nearer(scn: Scenario, sys: System) returns (acts: seq<Act>)
    requires SystemInv(scn, sys) && !sys.srv.game.exiting
    ensures var sys1 := RunSystem(scn, sys, acts);
            || Progress(sys1.srv.game) == Progress(sys.srv.game) + 1
            || (Progress(sys1.srv.game) == Progress(sys.srv.game)
                && sys1.srv.playersConnected == sys.srv.playersConnected + 1 <= 4)
  {
    hide SystemInv, RunSystem, SeatSound;
    NotExiting(scn, sys);
    SeatFacts(sys.srv);
    if sys.srv.playersConnected == 4 {
      acts := Advance(scn, sys);
    } else {
      var side := FreeSeat(sys.srv);
      JoinAndSit(scn, sys, side);
      acts := [Join(side), ToServer(sys.srv.mgr.nextIx)];
    }
  }

  lemma ProgressLeft(scn: Scenario, sys: System)
    requires SystemInv(scn, sys)
    ensures Progress(sys.srv.game) <= 52 * |scn| && sys.srv.playersConnected <= 4
    ensures !sys.srv.game.exiting ==> Progress(sys.srv.game) < 52 * |scn|
  {
    hide SystemInv, SeatSound, RoundState;
    SoundInSystem(scn, sys);
    SeatFacts(sys.srv);
    if !sys.srv.game.exiting {
      NotExiting(scn, sys);
      ProgressIsBounded(scn, sys.srv.game);
    }
  }

  lemma SoundInSystem(scn: Scenario, sys: System)
    requires SystemInv(scn, sys)
    ensures SeatSound(sys.srv) && (sys.srv.game.exiting ==> sys.srv.game.roundNumber == |scn|)
  {
    hide SeatSound, Together, CleanMail, SeenThrough, GrandTotals;
  }

  lemma {:induction false} FinishFrom(scn: Scenario, sys: System) returns (acts: seq<Act>)
    requires SystemInv(scn, sys)
    ensures RunSystem(scn, sys, acts).srv.game.exiting
    decreases 52 * |scn| - Progress(sys.srv.game), 4 - sys.srv.playersConnected, if sys.srv.game.exiting then 0 else 1
  {
    hide SystemInv, RunSystem, Progress;
    if sys.srv.game.exiting {
      acts := [];
      RunNothing(scn, sys);
    } else {
      var first := Nearer(scn, sys);
      RunHolds(scn, sys, first);
      ProgressLeft(scn, sys);
      ProgressLeft(scn, RunSystem(scn, sys, first));
      var more := FinishFrom(scn, RunSystem(scn, sys, first));
      RunSystemAppend(scn, sys, first, more);
      acts := first + more;
    }
  }

  /** From every reachable state some connections, deliveries and reads lead to the end of the game. */
  lemma SystemCanFinish(scn: Scenario, before: seq<Act>) returns (acts: seq<Act>)
    requires WellFormed(scn)
    ensures Over(scn, RunSystem(scn, Begin(scn), before + acts))
  {
    hide SystemInv, RunSystem, Over, Together;
    BeginHolds(scn);
    RunHolds(scn, Begin(scn), before);
    acts := FinishFrom(scn, RunSystem(scn, Begin(scn), before));
    RunSystemAppend(scn, Begin(scn), before, acts);
    ClientsAgree(scn, before + acts);
  }
}
