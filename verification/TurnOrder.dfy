/** The order of play around the table (common/utils.cpp, server/server.cpp), said with the sides by name. */
module TurnOrder {
  import opened Cards
  import opened Rules
  import opened Deck
  import opened Jobs
  import opened Game
  import opened GameInvariant
  import opened GameRuns
  import opened ServerState
  import opened Session
  import opened Delivery
  import opened CallbackRuns

  /** North, east, south, west: the order in which the sides play. */
  const CLOCKWISE: seq<Side> := [N, E, S, W]

  /** The k-th turn from the i-th side is that of the side k places on in the list. */
  lemma {:induction false} TurnsGoRound(i: nat, k: nat)
    requires i < 4
    ensures Nth(CLOCKWISE[i], k) == CLOCKWISE[(i + k) % 4]
  {
    if k > 0 {
      TurnsGoRound(i, k - 1);
      assert (i + k) % 4 == ((i + (k - 1)) % 4 + 1) % 4;
    }
  }

  // ---------------------------------------------------------------- the cards of a trick

  /** Who led trick number k + 1 of the round: the starting side, then whoever has taken the trick before. */
  function LeaderOf(r: Round, log: seq<TakenJob>, k: nat): Side
    requires k <= |log|
  {
    if k == 0 then r.starting else log[k - 1].taker
  }

  lemma {:induction false} LeaderIsKnown(r: Round, log: seq<TakenJob>)
    requires LogLegal(r, log)
    ensures Replay(r, log).leader == LeaderOf(r, log, |log|)
  {
    hide TrickLegal, TrickPenaltyOf, At, RmAll;
  }

  lemma RoundFacts(scn: Scenario, g: Game)
    requires RoundInv(scn, g)
    ensures g.roundNumber < |scn| && ProperDeal(scn[g.roundNumber].deal) && |g.table| <= 4
    ensures LogLegal(scn[g.roundNumber], g.takenInRound)
    ensures Nth(Replay(scn[g.roundNumber], g.takenInRound).leader, |g.table|) == g.nextMove
    ensures TrickLegal(Replay(scn[g.roundNumber], g.takenInRound), g.table)
  {
    hide LogLegal, TrickLegal, Replay, Nth, RmAll, ProperDeal;
  }

  lemma NextInTheRound(scn: Scenario, g: Game, l: nat)
    requires RoundInv(scn, g) && l < 4 && g.roundNumber < |scn|
    requires CLOCKWISE[l] == LeaderOf(scn[g.roundNumber], g.takenInRound, |g.takenInRound|)
    ensures g.nextMove == CLOCKWISE[(l + |g.table|) % 4]
  {
    hide RoundInv, LogLegal, TrickLegal, Nth, Replay, ProperDeal, LeaderOf;
    RoundFacts(scn, g);
    LeaderIsKnown(scn[g.roundNumber], g.takenInRound);
    TurnsGoRound(l, |g.table|);
  }

  /** The i-th card on the table was dealt to the side i places after the leader, and to nobody else. */
  lemma TableGoesRound(r: Round, log: seq<TakenJob>, table: seq<Card>, l: nat, i: nat)
    requires ProperDeal(r.deal) && LogLegal(r, log) && TrickLegal(Replay(r, log), table)
    requires l < 4 && i < |table| && CLOCKWISE[l] == LeaderOf(r, log, |log|)
    ensures table[i] in r.deal[CLOCKWISE[(l + i) % 4]]
    ensures forall s: Side :: table[i] in r.deal[s] ==> s == CLOCKWISE[(l + i) % 4]
  {
    hide LogLegal, TrickLegal, Nth, Replay, ProperDeal, LeaderOf, RmTaken;
    var p := CLOCKWISE[(l + i) % 4];
    LeaderIsKnown(r, log);
    TurnsGoRound(l, i);
    HeldByTheMover(Replay(r, log), table, i);
    ReplayHands(r, log, p);
    RmTakenSubset(r.deal[p], log, table[i]);
    DealtOnce(r.deal, p);
  }

  lemma LastEntry(r: Round, log: seq<TakenJob>)
    requires LogLegal(r, log) && log != []
    ensures LogLegal(r, log[..|log| - 1]) && EntryLegal(Replay(r, log[..|log| - 1]), log[|log| - 1])
  {
  }

  /** Each trick of the log was legal, and its taker is the one that the rules name. */
  lemma {:induction false} LoggedTrick(r: Round, log: seq<TakenJob>, k: nat)
    requires LogLegal(r, log) && k < |log|
    ensures LogLegal(r, log[..k]) && TrickLegal(Replay(r, log[..k]), log[k].table)
    ensures log[k].taker == Taker(LeaderOf(r, log, k), log[k].table)
    decreases |log|
  {
    hide LogLegal, TrickLegal, Taker, Replay;
    var before := log[..|log| - 1];
    LastEntry(r, log);
    if k < |log| - 1 {
      LoggedTrick(r, before, k);
      assert before[..k] == log[..k];
    } else {
      LeaderIsKnown(r, before);
      assert before == log[..k];
    }
  }

  /** A trick goes to the side that was dealt the card that takes it. */
  lemma TrickGoesRound(r: Round, log: seq<TakenJob>, k: nat, l: nat, i: nat)
    requires ProperDeal(r.deal) && LogLegal(r, log) && k < |log| && l < 4 && i < 4
    requires CLOCKWISE[l] == LeaderOf(r, log, k)
    ensures log[k].table[i] in r.deal[CLOCKWISE[(l + i) % 4]]
    ensures Takes(log[k].table, i) <==> log[k].taker == CLOCKWISE[(l + i) % 4]
  {
    hide LogLegal, TrickLegal, Replay, LeaderOf, Nth, Takes, Taker, ProperDeal;
    var before, table := log[..k], log[k].table;
    LoggedTrick(r, log, k);
    SameLeader(r, log, k);
    TableGoesRound(r, before, table, l, i);
    forall a, b | 0 <= a < b < |table| ensures table[a] != table[b] {
      TableGoesRound(r, before, table, l, a);
      TableGoesRound(r, before, table, l, b);
      assert (l + a) % 4 != (l + b) % 4;
    }
    TurnsGoRound(l, i);
    TakerPlayedTheHighest(CLOCKWISE[l], table, i);
  }

  lemma SameLeader(r: Round, log: seq<TakenJob>, k: nat)
    requires k <= |log|
    ensures LeaderOf(r, log[..k], |log[..k]|) == LeaderOf(r, log, k)
  {
  }

  lemma HeldByTheMover(v: View, table: seq<Card>, i: nat)
    requires TrickLegal(v, table) && i < |table|
    ensures table[i] in v.hands[Nth(v.leader, i)]
  {
  }

  /**
   * If the l-th side of the list has led the open trick: the side to move is as many places on as there are cards on
   * the table, and the i-th card was dealt to the side i places on and to nobody else.
   */
  ghost predicate InTurn(scn: Scenario, g: Game, l: nat, i: nat)
    requires l < 4
  {
    && g.roundNumber < |scn|
    && var r := scn[g.roundNumber];
    CLOCKWISE[l] == LeaderOf(r, g.takenInRound, |g.takenInRound|) ==>
      && g.nextMove == CLOCKWISE[(l + |g.table|) % 4]
      && (i < |g.table| ==> forall s: Side :: g.table[i] in r.deal[s] <==> s == CLOCKWISE[(l + i) % 4])
  }

  /** In every run of the callbacks, until the server stops, the sides play in the order of the list. */
  lemma TurnsInRuns(scn: Scenario, cs: seq<Callback>, l: nat, i: nat)
    requires WellFormed(scn) && l < 4
    ensures var g := Run(scn, StartServer(scn), cs).game; !g.exiting ==> InTurn(scn, g, l, i)
  {
    hide Run, RoundState, StartServer, InTurn, ValidToClient;
    EveryJobIsLegible(scn, cs);
    var g := Run(scn, StartServer(scn), cs).game;
    if !g.exiting {
      TurnsNow(scn, g, l, i);
    }
  }

  lemma TurnsNow(scn: Scenario, g: Game, l: nat, i: nat)
    requires RoundState(scn, g) && l < 4
    ensures InTurn(scn, g, l, i)
  {
    hide RoundInv, Partition, Conserved, GrandTotals, LeaderOf, ProperDeal, LogLegal, TrickLegal, Replay, Nth;
    RoundFacts(scn, g);
    if CLOCKWISE[l] == LeaderOf(scn[g.roundNumber], g.takenInRound, |g.takenInRound|) {
      NextInTheRound(scn, g, l);
      if i < |g.table| {
        TableGoesRound(scn[g.roundNumber], g.takenInRound, g.table, l, i);
      }
    }
  }

  /**
   * If the l-th side of the list has led trick k of the round: its i-th card was dealt to the side i places on, and
   * that side has taken the trick if and only if this card takes it.
   */
  ghost predicate TakenInTurn(scn: Scenario, g: Game, k: nat, l: nat, i: nat)
    requires l < 4 && i < 4
  {
    && g.roundNumber < |scn|
    && var r, log := scn[g.roundNumber], g.takenInRound;
    k < |log| && CLOCKWISE[l] == LeaderOf(r, log, k) ==>
      && log[k].table[i] in r.deal[CLOCKWISE[(l + i) % 4]]
      && (Takes(log[k].table, i) <==> log[k].taker == CLOCKWISE[(l + i) % 4])
  }

  /** In every run of the callbacks, until the server stops, each trick was played in order and went to its winner. */
  lemma TricksInRuns(scn: Scenario, cs: seq<Callback>, k: nat, l: nat, i: nat)
    requires WellFormed(scn) && l < 4 && i < 4
    ensures var g := Run(scn, StartServer(scn), cs).game; !g.exiting ==> TakenInTurn(scn, g, k, l, i)
  {
    hide Run, RoundState, StartServer, TakenInTurn, ValidToClient;
    EveryJobIsLegible(scn, cs);
    var g := Run(scn, StartServer(scn), cs).game;
    if !g.exiting {
      TricksNow(scn, g, k, l, i);
    }
  }

  lemma TricksNow(scn: Scenario, g: Game, k: nat, l: nat, i: nat)
    requires RoundState(scn, g) && l < 4 && i < 4
    ensures TakenInTurn(scn, g, k, l, i)
  {
    hide RoundInv, Partition, Conserved, GrandTotals, LeaderOf, ProperDeal, LogLegal, TrickLegal, Replay, Nth, Takes;
    RoundFacts(scn, g);
    if k < |g.takenInRound| && CLOCKWISE[l] == LeaderOf(scn[g.roundNumber], g.takenInRound, k) {
      TrickGoesRound(scn[g.roundNumber], g.takenInRound, k, l, i);
    }
  }

  // ---------------------------------------------------------------- an accepted card

  /** After the first, second and third card the side one place on is to move, and it alone is asked. */
  lemma NextIsAsked(scn: Scenario, g: Game, i: nat, card: Card)
    requires i < 4 && g.nextMove == CLOCKWISE[i] && |g.table| <= 2
    ensures Accept(scn, g, card).nextMove == CLOCKWISE[(i + 1) % 4]
    ensures AcceptOuts(scn, g, card) == [Out(CLOCKWISE[(i + 1) % 4], Trick(g.table + [card], g.trickNo))]
    ensures Accept(scn, g, card) == g.(table := g.table + [card], nextMove := CLOCKWISE[(i + 1) % 4],
                                       hands := g.hands[CLOCKWISE[i] := Rm(g.hands[CLOCKWISE[i]], card)])
  {
    hide Rm;
    NextOf(i);
  }

  /** After the fourth card of a trick but the last everybody is told who has taken it, and that side is asked. */
  lemma TakerIsAsked(scn: Scenario, g: Game, l: nat, i: nat, card: Card)
    requires Inv(scn, g) && LegalMove(g.hands[g.nextMove], card, g.table) && |g.table| == 3
    requires g.trickNo < TRICKS_PER_ROUND && l < 4 && i < 4
    requires CLOCKWISE[l] == LeaderOf(scn[g.roundNumber], g.takenInRound, |g.takenInRound|)
    requires Takes(g.table + [card], i)
    ensures var taker := CLOCKWISE[(l + i) % 4];
            var taken := Taken(g.table + [card], taker, g.trickNo);
            && Accept(scn, g, card).nextMove == taker
            && AcceptOuts(scn, g, card) == [Out(N, taken), Out(S, taken), Out(W, taken), Out(E, taken),
                                            Out(taker, Trick([], g.trickNo + 1))]
            && forall s: Side :: At(Accept(scn, g, card).penaltiesRound, s) == At(g.penaltiesRound, s)
                 + if s == taker then TrickPenaltyOf(g.roundMode, g.table + [card], g.trickNo) else 0
  {
    hide Takes, Taker, RoundState, LeaderOf, LegalMove, Accept, AcceptOuts, Next, At, TrickPenaltyOf;
    InvFacts(scn, g);
    WinnerByName(scn, g, l, i, card);
    ResolvedOuts(scn, g, card);
  }

  lemma FourDistinct(scn: Scenario, g: Game, card: Card)
    requires RoundState(scn, g) && LegalMove(g.hands[g.nextMove], card, g.table) && |g.table| == 3
    ensures RoundInv(scn, g) && g.roundNumber < |scn| && NoDup(g.table + [card])
  {
    hide RoundInv, Partition, Conserved, GrandTotals, LegalMove, NoDup, Rm;
    RoundFacts(scn, g);
    PlaceKeepsRoundInv(scn, g, card);
    TableIsDistinct(scn, Place(g, card));
  }

  lemma ResolvedOuts(scn: Scenario, g: Game, card: Card)
    requires |g.table| == 3 && g.trickNo < TRICKS_PER_ROUND
    ensures var taker := Taker(Next(g.nextMove), g.table + [card]);
            var taken := Taken(g.table + [card], taker, g.trickNo);
            && Accept(scn, g, card).nextMove == taker
            && AcceptOuts(scn, g, card) == [Out(N, taken), Out(S, taken), Out(W, taken), Out(E, taken),
                                            Out(taker, Trick([], g.trickNo + 1))]
            && forall s: Side :: At(Accept(scn, g, card).penaltiesRound, s) == At(g.penaltiesRound, s)
                 + if s == taker then TrickPenaltyOf(g.roundMode, g.table + [card], g.trickNo) else 0
  {
    hide Taker, TrickPenaltyOf, Rm, Next;
  }

  /** After the last card of a round each side's total has grown by what its tricks of the round have cost it. */
  lemma LastCardScores(scn: Scenario, g: Game, l: nat, i: nat, card: Card, s: Side)
    requires Inv(scn, g) && LegalMove(g.hands[g.nextMove], card, g.table) && |g.table| == 3
    requires g.trickNo == TRICKS_PER_ROUND && l < 4 && i < 4
    requires CLOCKWISE[l] == LeaderOf(scn[g.roundNumber], g.takenInRound, |g.takenInRound|)
    requires Takes(g.table + [card], i)
    ensures var taker := CLOCKWISE[(l + i) % 4];
            var score := At(g.penaltiesRound, s)
                         + if s == taker then TrickPenaltyOf(g.roundMode, g.table + [card], g.trickNo) else 0;
            var g1 := Accept(scn, g, card);
            && At(g1.penalties, s) == At(g.penalties, s) + score && At(g1.penaltiesRound, s) == 0
            && g1.roundNumber == g.roundNumber + 1
            && Score(RoundScores(g, g.table + [card], taker)) in JobsFor(AcceptOuts(scn, g, card), s)
            && Total(g1.penalties) in JobsFor(AcceptOuts(scn, g, card), s)
            && RoundScores(g, g.table + [card], taker)[s] == score
  {
    hide Takes, Taker, RoundState, LeaderOf, LegalMove, Accept, AcceptOuts, Next, JobsFor, TrickPenaltyOf, At;
    InvFacts(scn, g);
    WinnerByName(scn, g, l, i, card);
    ClosedRound(scn, g, card, s);
    ScoreOf(g, g.table + [card], CLOCKWISE[(l + i) % 4], s);
  }

  lemma ScoreOf(g: Game, table: seq<Card>, taker: Side, s: Side)
    ensures RoundScores(g, table, taker)[s]
         == At(g.penaltiesRound, s) + if s == taker then TrickPenaltyOf(g.roundMode, table, g.trickNo) else 0
  {
    match s { case N => case E => case S => case W => }
  }

  /** The side that takes a full trick: as many places after the leader as its card is in the trick. */
  lemma WinnerByName(scn: Scenario, g: Game, l: nat, i: nat, card: Card)
    requires RoundState(scn, g) && LegalMove(g.hands[g.nextMove], card, g.table) && |g.table| == 3
    requires g.roundNumber < |scn| && l < 4 && i < 4 && Takes(g.table + [card], i)
    requires CLOCKWISE[l] == LeaderOf(scn[g.roundNumber], g.takenInRound, |g.takenInRound|)
    ensures Taker(Next(g.nextMove), g.table + [card]) == CLOCKWISE[(l + i) % 4]
  {
    hide Takes, Taker, Nth, RoundState, RoundInv, LeaderOf, LegalMove, NoDup, Next;
    FourDistinct(scn, g, card);
    NextInTheRound(scn, g, l);
    NextOf((l + 3) % 4);
    TurnsGoRound(l, i);
    TakerPlayedTheHighest(CLOCKWISE[l], g.table + [card], i);
  }

  /** The scores of the round once the side has taken the last trick. */
  function RoundScores(g: Game, table: seq<Card>, taker: Side): (m: map<Side, int>)
    ensures forall x: Side :: x in m
  {
    var cost := TrickPenaltyOf(g.roundMode, table, g.trickNo);
    PerSide(At(g.penaltiesRound, N) + (if taker == N then cost else 0),
            At(g.penaltiesRound, E) + (if taker == E then cost else 0),
            At(g.penaltiesRound, S) + (if taker == S then cost else 0),
            At(g.penaltiesRound, W) + (if taker == W then cost else 0))
  }

  lemma ClosedRound(scn: Scenario, g: Game, card: Card, s: Side)
    requires |g.table| == 3 && g.trickNo == TRICKS_PER_ROUND
    ensures var taker := Taker(Next(g.nextMove), g.table + [card]);
            var scores := RoundScores(g, g.table + [card], taker);
            var g1 := Accept(scn, g, card);
            && At(g1.penalties, s) == At(g.penalties, s) + scores[s] && At(g1.penaltiesRound, s) == 0
            && g1.roundNumber == g.roundNumber + 1
            && Score(scores) in JobsFor(AcceptOuts(scn, g, card), s)
            && Total(g1.penalties) in JobsFor(AcceptOuts(scn, g, card), s)
  {
    hide Taker, TrickPenaltyOf, Next, JobsFor, AcceptOuts, Accept, Resolve, UpdatePenalties, NextRound, RoundScores, At;
    JobsForMove(scn, g, card, s);
    LastAccept(scn, g, card);
    ScoresAre(g, card, s);
    NextKeepsScores(scn, UpdatePenalties(Resolve(Place(g, card))), s);
  }

  lemma LastAccept(scn: Scenario, g: Game, card: Card)
    requires |g.table| == 3 && g.trickNo == TRICKS_PER_ROUND
    ensures var g1 := Place(g, card);
            && |g1.table| == 4 && g1.table == g.table + [card] && Resolve(g1).trickNo == TRICKS_PER_ROUND + 1
            && Accept(scn, g, card) == NextRound(scn, UpdatePenalties(Resolve(g1)))
  {
    hide Taker, TrickPenaltyOf, Rm, Next, At, UpdatePenalties, NextRound;
  }

  lemma ScoresAre(g: Game, card: Card, s: Side)
    requires |g.table| == 3
    ensures var u := UpdatePenalties(Resolve(Place(g, card)));
            var scores := RoundScores(g, g.table + [card], Taker(Next(g.nextMove), g.table + [card]));
            && u.penaltiesRound == scores && At(u.penalties, s) == At(g.penalties, s) + scores[s]
            && u.roundNumber == g.roundNumber
  {
    hide Taker, TrickPenaltyOf, Rm, Next;
    var taker := Taker(Next(g.nextMove), g.table + [card]);
    var u := UpdatePenalties(Resolve(Place(g, card)));
    forall x: Side ensures x in u.penaltiesRound && u.penaltiesRound[x] == RoundScores(g, g.table + [card], taker)[x] {
      match x { case N => case E => case S => case W => }
    }
    match s { case N => case E => case S => case W => }
  }

  lemma NextKeepsScores(scn: Scenario, u: Game, s: Side)
    ensures var g := NextRound(scn, u);
            g.penalties == u.penalties && At(g.penaltiesRound, s) == 0 && g.roundNumber == u.roundNumber + 1
  {
    match s { case N => case E => case S => case W => }
  }

  lemma NextOf(i: nat)
    requires i < 4
    ensures Next(CLOCKWISE[i]) == CLOCKWISE[(i + 1) % 4]
  {
    TurnsGoRound(i, 1);
    assert Nth(CLOCKWISE[i], 1) == Next(Nth(CLOCKWISE[i], 0));
  }

  /** The cards of a table were dealt to different sides. */
  lemma TableIsDistinct(scn: Scenario, g: Game)
    requires RoundInv(scn, g)
    ensures NoDup(g.table)
  {
    hide RoundInv, LogLegal, Replay, Nth, ProperDeal;
    RoundFacts(scn, g);
    var v := Replay(scn[g.roundNumber], g.takenInRound);
    forall i, j | 0 <= i < j < |g.table| ensures g.table[i] != g.table[j] {
      TableOwners(scn, g, i, Nth(v.leader, j));
      TableOwners(scn, g, j, Nth(v.leader, j));
      TurnsInvertsNth(v.leader, v.leader, i);
      TurnsInvertsNth(v.leader, v.leader, j);
    }
  }
}
