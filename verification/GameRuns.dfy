/** Whole runs of the game: progress, termination, conservation and the jobs that are sent. */
module GameRuns {
  import opened Cards
  import opened Rules
  import opened Deck
  import opened Jobs
  import opened Game
  import opened GameInvariant

  // ---------------------------------------------------------------- one accepted move

  lemma AcceptKeeps(scn: Scenario, g: Game, card: Card)
    requires Inv(scn, g) && LegalMove(g.hands[g.nextMove], card, g.table)
    ensures var g1 := Accept(scn, g, card);
            && (Inv(scn, g1) || Finished(scn, g1))
            && Progress(g1) == Progress(g) + 1
            && g1.lastDeal == if g1.roundNumber == g.roundNumber || g1.exiting then g.lastDeal
                              else scn[g1.roundNumber].deal
  {
    hide RoundState, Finished, LegalMove, Resolve, NextRound;
    PlaceKeeps(scn, g, card);
    var g1 := Place(g, card);
    InvFacts(scn, g);
    if |g1.table| == 4 {
      ResolveKeeps(scn, g1);
      ResolveFields(g1);
      var g2 := Resolve(g1);
      InvFacts(scn, g2);
      if g2.trickNo == TRICKS_PER_ROUND + 1 {
        NextRoundKeeps(scn, g2);
        NextRoundFields(scn, g2);
      }
    }
  }

  lemma InvFacts(scn: Scenario, g: Game)
    requires RoundState(scn, g)
    ensures WellFormed(scn) && g.roundNumber < |scn| && 1 <= g.trickNo <= TRICKS_PER_ROUND + 1
    ensures g.roundMode == scn[g.roundNumber].mode
    ensures ValidScores(g.penalties)
  {
  }

  lemma ResolveFields(g: Game)
    requires |g.table| == 4
    ensures var g1 := Resolve(g);
            && g1.table == [] && g1.trickNo == g.trickNo + 1 && g1.roundNumber == g.roundNumber
            && g1.lastDeal == g.lastDeal && g1.exiting == g.exiting
            && g1.takenInRound == g.takenInRound + [Taken(g.table, g1.nextMove, g.trickNo)]
  {
  }

  lemma NextRoundFields(scn: Scenario, g: Game)
    requires g.roundNumber < |scn| && g.table == [] && !g.exiting
    ensures var g1 := NextRound(scn, UpdatePenalties(g));
            && g1.roundNumber == g.roundNumber + 1
            && g1.table == []
            && g1.exiting == (g.roundNumber + 1 == |scn|)
            && (g1.exiting ==> g1.lastDeal == g.lastDeal)
            && (!g1.exiting ==> g1.trickNo == 1)
  {
    UpdateKeepsTheRest(g);
  }

  /** Somebody can always move: the side whose turn it is holds a card the rules accept. */
  lemma MoveAvailable(scn: Scenario, g: Game)
    requires Inv(scn, g)
    ensures exists card :: LegalMove(g.hands[g.nextMove], card, g.table)
  {
    var hand := g.hands[g.nextMove];
    MoverHasCards(scn, g);
    if c :| c in hand && g.table != [] && c.color == g.table[0].color {
      assert LegalMove(hand, c, g.table);
    } else {
      assert LegalMove(hand, hand[0], g.table);
    }
  }

  lemma MoverHasCards(scn: Scenario, g: Game)
    requires Inv(scn, g)
    ensures |g.hands[g.nextMove]| == TRICKS_PER_ROUND + 1 - g.trickNo > 0
  {
    hide LegalMove, RmAll, LogLegal, Replay, WellFormed, Partition, Conserved, GrandTotals;
    TurnsInvertsNth(Replay(scn[g.roundNumber], g.takenInRound).leader, g.nextMove, |g.table|);
  }

  // ---------------------------------------------------------------- the end of a round

  /** The SCORE that closes a round hands out the mode's total whatever was played, and TOTAL keeps the running sum. */
  lemma RoundScoresAddUp(scn: Scenario, g: Game, card: Card, s: Side)
    requires Inv(scn, g) && LegalMove(g.hands[g.nextMove], card, g.table)
    requires |g.table| == 3 && g.trickNo == TRICKS_PER_ROUND
    ensures exists score, total ::
              && Out(s, Score(score)) in AcceptOuts(scn, g, card)
              && Out(s, Total(total)) in AcceptOuts(scn, g, card)
              && Sum(score) == RoundTotal(scn[g.roundNumber].mode)
              && Sum(total) == TotalsOf(scn, g.roundNumber + 1)
              && ValidScores(score) && ValidScores(total)
  {
    hide RoundState, LegalMove, Resolve, NextRound, RoundTotal, TotalsOf, UpdatePenalties, Sum, AcceptOuts, ValidScores;
    LastTrick(scn, g, card);
    var g2 := UpdatePenalties(Resolve(Place(g, card)));
    ScoresAreSent(scn, g, card, s);
    assert Out(s, Score(g2.penaltiesRound)) in AcceptOuts(scn, g, card);
  }

  lemma LastTrick(scn: Scenario, g: Game, card: Card)
    requires Inv(scn, g) && LegalMove(g.hands[g.nextMove], card, g.table)
    requires |g.table| == 3 && g.trickNo == TRICKS_PER_ROUND
    ensures var g2 := UpdatePenalties(Resolve(Place(g, card)));
            && Sum(g2.penaltiesRound) == RoundTotal(scn[g.roundNumber].mode)
            && Sum(g2.penalties) == TotalsOf(scn, g.roundNumber + 1)
            && ValidScores(g2.penaltiesRound) && ValidScores(g2.penalties)
  {
    hide RoundState, LegalMove, Resolve, RoundTotal, TotalsOf, UpdatePenalties, Sum, ValidScores;
    PlaceKeeps(scn, g, card);
    var g1 := Place(g, card);
    ResolveKeeps(scn, g1);
    ResolveFields(g1);
    InvFacts(scn, g1);
    RoundEnds(scn, Resolve(g1));
    UpdateKeepsTheRest(Resolve(g1));
    SumAfterUpdate(Resolve(g1));
  }

  lemma SumAfterUpdate(g: Game)
    ensures Sum(UpdatePenalties(g).penaltiesRound) == Sum(g.penaltiesRound)
  {
  }

  lemma ScoresAreSent(scn: Scenario, g: Game, card: Card, s: Side)
    requires |g.table| == 3 && g.trickNo == TRICKS_PER_ROUND
    ensures var g2 := UpdatePenalties(Resolve(Place(g, card)));
            && Out(s, Score(g2.penaltiesRound)) in AcceptOuts(scn, g, card)
            && Out(s, Total(g2.penalties)) in AcceptOuts(scn, g, card)
  {
    hide UpdatePenalties, NextRound, Resolve, RoundEndOuts, Scores, ToAll;
    ResolveFields(Place(g, card));
    var g2 := Resolve(Place(g, card));
    ScoresInRoundEnd(scn, g2, s);
  }

  lemma ScoresInRoundEnd(scn: Scenario, g: Game, s: Side)
    ensures var g1 := UpdatePenalties(g);
            && Out(s, Score(g1.penaltiesRound)) in RoundEndOuts(scn, g)
            && Out(s, Total(g1.penalties)) in RoundEndOuts(scn, g)
  {
    hide UpdatePenalties, NextRound, Deals, AskNext;
    var g1 := UpdatePenalties(g);
    var outs := RoundEndOuts(scn, g);
    match s {
      case N => assert outs[0] == Scores(g1, N)[0] && outs[1] == Scores(g1, N)[1];
      case S => assert outs[2] == Scores(g1, S)[0] && outs[3] == Scores(g1, S)[1];
      case W => assert outs[4] == Scores(g1, W)[0] && outs[5] == Scores(g1, W)[1];
      case E => assert outs[6] == Scores(g1, E)[0] && outs[7] == Scores(g1, E)[1];
    }
  }

  // ---------------------------------------------------------------- whole runs

  /** A move as the server reads it: the grammar only lets trick numbers up to 13 through. */
  datatype Move = Move(trickNo: int, side: Side, card: Card)

  ghost predicate Readable(m: Move) {
    1 <= m.trickNo <= TRICKS_PER_ROUND
  }

  /** The game after a move has been accepted or answered with WRONG. */
  ghost function Step(scn: Scenario, g: Game, m: Move): Game
    requires |g.table| <= 3
  {
    if Accepted(g, m.trickNo, m.side, m.card) then Accept(scn, g, m.card) else g
  }

  ghost predicate Good(scn: Scenario, g: Game) {
    (Inv(scn, g) || Finished(scn, g)) && |g.table| <= 3
  }

  ghost function RunFrom(scn: Scenario, g: Game, moves: seq<Move>): Game
    requires |g.table| <= 3
  {
    if moves == [] then g
    else
      var g1 := RunFrom(scn, g, moves[..|moves| - 1]);
      if |g1.table| <= 3 then Step(scn, g1, moves[|moves| - 1]) else g1
  }

  ghost function AcceptedIn(scn: Scenario, g: Game, moves: seq<Move>): nat
    requires |g.table| <= 3
  {
    if moves == [] then 0
    else
      var g1 := RunFrom(scn, g, moves[..|moves| - 1]);
      var m := moves[|moves| - 1];
      AcceptedIn(scn, g, moves[..|moves| - 1]) + if Accepted(g1, m.trickNo, m.side, m.card) then 1 else 0
  }

  lemma StartIsGood(scn: Scenario)
    requires WellFormed(scn)
    ensures scn != [] && Inv(scn, Start(scn)) && Progress(Start(scn)) == 0
  {
    var g := Game(PerSide([], [], [], []), [], W, 0, 1, TrickPenalty, NO_PENALTIES, map[], [], map[], false);
    UpdateKeepsTheRest(g);
    forall s: Side ensures s in g.penalties && g.penalties[s] == 0 {
      match s { case N => case E => case S => case W => }
    }
    assert GrandTotals(scn, g);
    FreshRound(scn, g);
  }

  lemma StepKeeps(scn: Scenario, g: Game, m: Move)
    requires Good(scn, g) && Readable(m)
    ensures Good(scn, Step(scn, g, m))
    ensures Progress(Step(scn, g, m)) == Progress(g) + if Accepted(g, m.trickNo, m.side, m.card) then 1 else 0
  {
    hide RoundState, Accept, Progress, GrandTotals;
    if Accepted(g, m.trickNo, m.side, m.card) {
      AcceptKeeps(scn, g, m.card);
      FinishedTable(scn, g, m.card);
    }
  }

  lemma FinishedTable(scn: Scenario, g: Game, card: Card)
    requires |g.table| <= 3
    ensures |Accept(scn, g, card).table| <= 3
  {
    hide Taker, TrickPenaltyOf, UpdatePenalties;
    var g1 := Place(g, card);
    if |g1.table| == 4 {
      UpdateKeepsTheRest(Resolve(g1));
    }
  }

  /** Any sequence of moves keeps the invariant, and the server is done after exactly 52 accepted moves a round. */
  lemma {:induction false} RunsAreGood(scn: Scenario, moves: seq<Move>)
    requires WellFormed(scn) && forall i :: 0 <= i < |moves| ==> Readable(moves[i])
    ensures var g := RunFrom(scn, Start(scn), moves);
            && Good(scn, g)
            && AcceptedIn(scn, Start(scn), moves) == Progress(g)
            && (g.exiting <==> AcceptedIn(scn, Start(scn), moves) == 52 * |scn|)
  {
    hide RoundState, Step, Start, WellFormed, GrandTotals, Accepted;
    StartIsGood(scn);
    StartTable(scn);
    if moves != [] {
      var before := moves[..|moves| - 1];
      RunsAreGood(scn, before);
      StepKeeps(scn, RunFrom(scn, Start(scn), before), moves[|moves| - 1]);
    }
    var g := RunFrom(scn, Start(scn), moves);
    if Inv(scn, g) {
      InvFacts(scn, g);
    }
  }

  lemma {:induction false} RunFromCons(scn: Scenario, g: Game, m: Move, moves: seq<Move>)
    requires |g.table| <= 3 && |Step(scn, g, m).table| <= 3
    ensures RunFrom(scn, g, [m] + moves) == RunFrom(scn, Step(scn, g, m), moves)
  {
    hide Step;
    if moves == [] {
      assert [m] + moves == [m] && [m][..0] == [];
    } else {
      assert ([m] + moves)[..|[m] + moves| - 1] == [m] + moves[..|moves| - 1];
      RunFromCons(scn, g, m, moves[..|moves| - 1]);
    }
  }

  /** Every state of a run can be played to the end: the game is never stuck. */
  lemma {:induction false} CanFinish(scn: Scenario, g: Game) returns (moves: seq<Move>)
    requires Good(scn, g)
    ensures (forall i :: 0 <= i < |moves| ==> Readable(moves[i])) && RunFrom(scn, g, moves).exiting
    decreases 52 * |scn| - Progress(g)
  {
    hide RoundState, Step, GrandTotals, LegalMove, RunFrom;
    if g.exiting {
      moves := [];
      RunFromNothing(scn, g);
    } else {
      InvFacts(scn, g);
      MoveAvailable(scn, g);
      var card :| LegalMove(g.hands[g.nextMove], card, g.table);
      var m := Move(g.trickNo, g.nextMove, card);
      StepKeeps(scn, g, m);
      ProgressIsBounded(scn, g);
      var more := CanFinish(scn, Step(scn, g, m));
      RunFromCons(scn, g, m, more);
      moves := [m] + more;
    }
  }

  lemma RunFromNothing(scn: Scenario, g: Game)
    requires |g.table| <= 3
    ensures RunFrom(scn, g, []) == g
  {
  }

  lemma ProgressIsBounded(scn: Scenario, g: Game)
    requires Inv(scn, g)
    ensures Progress(g) < 52 * |scn|
  {
    hide RoundState;
    InvFacts(scn, g);
  }

  // ---------------------------------------------------------------- what holds in every run

  ghost predicate AllReadableMoves(moves: seq<Move>) {
    forall i :: 0 <= i < |moves| ==> Readable(moves[i])
  }

  /** The server is done after exactly 52 accepted moves a round, and accepts no more. */
  lemma OverAfter52(scn: Scenario, moves: seq<Move>)
    requires WellFormed(scn) && AllReadableMoves(moves)
    ensures var n := AcceptedIn(scn, Start(scn), moves);
            n <= 52 * |scn| && (RunFrom(scn, Start(scn), moves).exiting <==> n == 52 * |scn|)
  {
    hide RoundState, Start, RunFrom, AcceptedIn, GrandTotals, WellFormed;
    StartIsGood(scn);
    StartTable(scn);
    RunsAreGood(scn, moves);
    var g := RunFrom(scn, Start(scn), moves);
    if Inv(scn, g) {
      ProgressIsBounded(scn, g);
    }
  }

  /** Until the game is over the side to move holds a card the rules accept. */
  lemma SomebodyCanMove(scn: Scenario, moves: seq<Move>)
    requires WellFormed(scn) && AllReadableMoves(moves)
    ensures var g := RunFrom(scn, Start(scn), moves);
            !g.exiting ==> exists card :: LegalMove(g.hands[g.nextMove], card, g.table)
  {
    hide RoundState, Start, RunFrom, AcceptedIn, GrandTotals, WellFormed, LegalMove;
    StartIsGood(scn);
    StartTable(scn);
    RunsAreGood(scn, moves);
    var g := RunFrom(scn, Start(scn), moves);
    if !g.exiting {
      MoveAvailable(scn, g);
    }
  }

  /**
    * Points handed out in the round and points outstanding always add up to the mode's total; so do the grand totals.
    */
  lemma PointsAreConserved(scn: Scenario, moves: seq<Move>)
    requires WellFormed(scn) && AllReadableMoves(moves)
    ensures var g := RunFrom(scn, Start(scn), moves);
            && (!g.exiting ==> Sum(g.penaltiesRound) + Outstanding(g) == RoundTotal(g.roundMode))
            && g.roundNumber <= |scn| && Sum(g.penalties) == TotalsOf(scn, g.roundNumber)
  {
    hide RoundInv, Partition, Start, RunFrom, AcceptedIn, WellFormed, Outstanding, Sum;
    StartIsGood(scn);
    StartTable(scn);
    RunsAreGood(scn, moves);
    var g := RunFrom(scn, Start(scn), moves);
    if !g.exiting {
      InvFacts(scn, g);
    }
  }

  /** Whatever has been played, the last card of a round brings everybody the mode's total and the running sum. */
  lemma ScoresInRuns(scn: Scenario, moves: seq<Move>, card: Card, s: Side)
    requires WellFormed(scn) && AllReadableMoves(moves)
    ensures var g := RunFrom(scn, Start(scn), moves);
            !g.exiting && |g.table| == 3 && g.trickNo == TRICKS_PER_ROUND
              && LegalMove(g.hands[g.nextMove], card, g.table) ==>
              && g.roundNumber < |scn|
              && exists score, total ::
                   && Out(s, Score(score)) in AcceptOuts(scn, g, card)
                   && Out(s, Total(total)) in AcceptOuts(scn, g, card)
                   && Sum(score) == RoundTotal(scn[g.roundNumber].mode)
                   && Sum(total) == TotalsOf(scn, g.roundNumber + 1)
                   && ValidScores(score) && ValidScores(total)
  {
    hide RoundState, Start, RunFrom, AcceptedIn, GrandTotals, WellFormed, LegalMove, AcceptOuts, Sum, RoundTotal,
         TotalsOf, ValidScores;
    StartIsGood(scn);
    StartTable(scn);
    RunsAreGood(scn, moves);
    var g := RunFrom(scn, Start(scn), moves);
    if !g.exiting {
      InvFacts(scn, g);
      if |g.table| == 3 && g.trickNo == TRICKS_PER_ROUND && LegalMove(g.hands[g.nextMove], card, g.table) {
        RoundScoresAddUp(scn, g, card, s);
      }
    }
  }

  lemma StartTable(scn: Scenario)
    requires scn != []
    ensures Start(scn).table == []
  {
  }

  // ---------------------------------------------------------------- the jobs of an accepted move

  ghost predicate AllReadable(outs: seq<Out>) {
    forall i :: 0 <= i < |outs| ==> ValidToClient(outs[i].job) && !outs[i].job.Wrong?
  }

  /** Every message an accepted move sends is one the clients can read, and none is WRONG. */
  lemma AcceptOutsValid(scn: Scenario, g: Game, card: Card)
    requires Inv(scn, g) && LegalMove(g.hands[g.nextMove], card, g.table)
    ensures AllReadable(AcceptOuts(scn, g, card))
  {
    hide RoundState, LegalMove, Resolve, RoundEndOuts;
    PlaceKeeps(scn, g, card);
    var g1 := Place(g, card);
    InvFacts(scn, g);
    if |g1.table| == 4 {
      ResolveKeeps(scn, g1);
      ResolveFields(g1);
      var g2 := Resolve(g1);
      if g2.trickNo == TRICKS_PER_ROUND + 1 {
        RoundEndOutsValid(scn, g2);
      }
    }
  }

  lemma RoundEndOutsValid(scn: Scenario, g: Game)
    requires RoundState(scn, g) && g.table == [] && g.trickNo == TRICKS_PER_ROUND + 1 && !g.exiting
    ensures AllReadable(RoundEndOuts(scn, g))
  {
    hide UpdatePenalties, NextRound, Inv, Finished, RoundState, GrandTotals, ValidScores, WellFormed, Scores, Deals,
         AskNext, ValidToClient;
    RoundEnds(scn, g);
    InvFacts(scn, g);
    NextRoundFields(scn, g);
    NextRoundKeeps(scn, g);
    var g1 := UpdatePenalties(g);
    var g2 := NextRound(scn, g1);
    UpdateKeepsTheRest(g);
    NonNegative(scn, g1.(roundNumber := g.roundNumber + 1));
    ScoresReadable(g1);
    if !g2.exiting {
      DealsReadable(scn, g2);
    }
  }

  lemma ScoresReadable(g: Game)
    requires ValidScores(g.penaltiesRound) && ValidScores(g.penalties)
    ensures AllReadable(Scores(g, N) + Scores(g, S) + Scores(g, W) + Scores(g, E))
  {
    hide ValidScores;
  }

  lemma DealsReadable(scn: Scenario, g: Game)
    requires Inv(scn, g) && g.trickNo == 1 && g.table == []
    ensures AllReadable(Deals(g) + AskNext(g))
  {
    hide Inv;
    DealSize(scn, g, N);
    DealSize(scn, g, E);
    DealSize(scn, g, S);
    DealSize(scn, g, W);
  }

  lemma NonNegative(scn: Scenario, g: Game)
    requires g.roundNumber <= |scn| && GrandTotals(scn, g)
    ensures ValidScores(g.penalties)
  {
  }

  lemma DealSize(scn: Scenario, g: Game, s: Side)
    requires Inv(scn, g) && g.trickNo == 1 && g.table == []
    ensures |g.hands[s]| == TRICKS_PER_ROUND
  {
    hide LegalMove, RmAll, LogLegal, Replay, WellFormed, Partition, Conserved, GrandTotals;
  }
}
