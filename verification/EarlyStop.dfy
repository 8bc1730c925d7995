/** Server::furtherMovesNeeded: are there still penalties to be handed out in the round? */
module EarlyStop {
  import opened Cards
  import opened Rules
  import opened Deck
  import opened Game
  import opened GameInvariant
  import opened GameRuns

  /** What the function looks for: any card at all in three modes, a card that costs something in the others. */
  ghost predicate FurtherMoves(mode: Mode, hands: Hands) {
    if mode == TrickPenalty || mode == SeventhLastTrickPenalty || mode == Everything
    then exists s: Side :: hands[s] != []
    else exists s: Side, c :: c in hands[s] && CardPenalty(mode, c) > 0
  }

  method FurtherMovesNeeded(mode: Mode, hands: Hands) returns (needed: bool)
    ensures needed <==> FurtherMoves(mode, hands)
  {
    if mode == TrickPenalty || mode == SeventhLastTrickPenalty || mode == Everything {
      var emptied := true;
      for i := 0 to |SIDES|
        invariant emptied && forall j :: 0 <= j < i ==> hands[SIDES[j]] == []
      {
        if hands[SIDES[i]] != [] {
          emptied := false;
          break;
        }
      }
      if emptied {
        EverySide();
        forall s: Side ensures hands[s] == [] { assert s in SIDES; }
      }
      return !emptied;
    }
    var found := false;
    for i := 0 to |SIDES|
      invariant found ==> FurtherMoves(mode, hands)
      invariant !found ==> forall j, c :: 0 <= j < i && c in hands[SIDES[j]] ==> CardPenalty(mode, c) == 0
    {
      var hand := hands[SIDES[i]];
      for k := 0 to |hand|
        invariant found ==> FurtherMoves(mode, hands)
        invariant !found ==> forall j, c :: 0 <= j < i && c in hands[SIDES[j]] ==> CardPenalty(mode, c) == 0
        invariant !found ==> forall c :: c in hand[..k] ==> CardPenalty(mode, c) == 0
      {
        var c := hand[k];
        var counts := match mode
          case HeartPenalty => c.color == Hearts
          case QueenPenalty => c.rank == 12
          case KingJackPenalty => c.rank == 13 || c.rank == 11
          case HeartKingPenalty => c.rank == 13 && c.color == Hearts
          case _ => false;
        if counts {
          assert c in hands[SIDES[i]] && CardPenalty(mode, c) > 0;
          found := true;
          break;
        }
      }
      assert hand[..|hand|] == hand;
    }
    EverySide();
    if !found {
      forall s: Side, c | c in hands[s] ensures CardPenalty(mode, c) == 0 { assert s in SIDES; }
    }
    return found;
  }

  lemma EverySide()
    ensures forall s: Side :: s in SIDES
  {
    forall s: Side ensures s in SIDES {
      match s {
        case N => assert SIDES[0] == N;
        case S => assert SIDES[1] == S;
        case W => assert SIDES[2] == W;
        case E => assert SIDES[3] == E;
      }
    }
  }

  lemma {:induction false} PenaltyIsPositive(mode: Mode, h: Hand)
    ensures CardsPenalty(mode, h) > 0 <==> exists c :: c in h && CardPenalty(mode, c) > 0
  {
    if h != [] {
      var init, last := h[..|h| - 1], h[|h| - 1];
      assert h == init + [last];
      PenaltyIsPositive(mode, init);
      if c :| c in init && CardPenalty(mode, c) > 0 {
        assert c in h;
      } else if CardPenalty(mode, last) > 0 {
        assert last in h;
      }
    }
  }

  lemma SomeHandCosts(mode: Mode, hands: Hands)
    ensures HandsPenalty(mode, hands) > 0 <==> exists s: Side, c :: c in hands[s] && CardPenalty(mode, c) > 0
  {
    hide CardsPenalty, CardPenalty;
    PenaltyIsPositive(mode, hands[N]);
    PenaltyIsPositive(mode, hands[E]);
    PenaltyIsPositive(mode, hands[S]);
    PenaltyIsPositive(mode, hands[W]);
    if HandsPenalty(mode, hands) > 0 {
      var s :| s in [N, E, S, W] && CardsPenalty(mode, hands[s]) > 0;
      var c :| c in hands[s] && CardPenalty(mode, c) > 0;
    }
    if s: Side, c :| c in hands[s] && CardPenalty(mode, c) > 0 {
      match s { case N => case E => case S => case W => }
    }
  }

  /** At a trick boundary the answer is exact: points are outstanding, and every completion hands out just those. */
  lemma EarlyStopIsExact(scn: Scenario, g: Game)
    requires RoundState(scn, g) && g.table == []
    ensures FurtherMoves(g.roundMode, g.hands) <==> RoundTotal(g.roundMode) - Sum(g.penaltiesRound) > 0
  {
    hide RoundInv, HandsPenalty, CardPenalty, Sum, RoundTotal, BasesFrom;
    InvFacts(scn, g);
    SomeHandCosts(g.roundMode, g.hands);
    BasesFromClosed(g.roundMode, g.trickNo);
    HandsAtBoundary(scn, g);
    assert CardsPenalty(g.roundMode, g.table) == 0;
    assert RoundTotal(g.roundMode) - Sum(g.penaltiesRound) == HandsPenalty(g.roundMode, g.hands)
           + BasesFrom(g.roundMode, g.trickNo);
    if g.roundMode == TrickPenalty || g.roundMode == SeventhLastTrickPenalty || g.roundMode == Everything {
      assert g.hands[N] != [] <==> g.trickNo <= TRICKS_PER_ROUND;
      assert BasesFrom(g.roundMode, g.trickNo) > 0 <==> g.trickNo <= TRICKS_PER_ROUND;
      if g.trickNo > TRICKS_PER_ROUND {
        assert forall s: Side :: g.hands[s] == [];
      }
    } else {
      assert BasesFrom(g.roundMode, g.trickNo) == 0;
    }
  }

  /** In every run: between two tricks the test says exactly whether the round still has penalties to hand out. */
  lemma EarlyStopInRuns(scn: Scenario, moves: seq<Move>)
    requires WellFormed(scn) && AllReadableMoves(moves)
    ensures var g := RunFrom(scn, Start(scn), moves);
            !g.exiting && g.table == [] ==>
              (FurtherMoves(g.roundMode, g.hands) <==> RoundTotal(g.roundMode) - Sum(g.penaltiesRound) > 0)
  {
    hide RoundState, Start, RunFrom, AcceptedIn, WellFormed, FurtherMoves, Sum, RoundTotal;
    StartIsGood(scn);
    StartTable(scn);
    RunsAreGood(scn, moves);
    var g := RunFrom(scn, Start(scn), moves);
    if !g.exiting && g.table == [] {
      EarlyStopIsExact(scn, g);
    }
  }

  lemma HandsAtBoundary(scn: Scenario, g: Game)
    requires RoundInv(scn, g) && g.table == []
    ensures forall s: Side :: |g.hands[s]| == TRICKS_PER_ROUND + 1 - g.trickNo
  {
    hide RmAll, LogLegal, Replay, WellFormed, TrickLegal, At;
  }
}
