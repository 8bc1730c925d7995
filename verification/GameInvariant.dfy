/** What holds of the game in every reachable state. */
module GameInvariant {
  import opened Cards
  import opened Rules
  import opened Deck
  import opened Jobs
  import opened Game

  ghost predicate WellFormed(scn: Scenario) {
    scn != [] && forall k :: 0 <= k < |scn| ==> ProperDeal(scn[k].deal)
  }

  // ---------------------------------------------------------------- replaying the log of a round

  /** What the rules alone make of the tricks played so far. */
  datatype View = View(hands: Hands, leader: Side, trickNo: int, penalties: map<Side, int>)

  function AfterTrick(mode: Mode, v: View, table: seq<Card>): View
    requires |table| == 4
  {
    var taker := Taker(v.leader, table);
    View(PerSide(RmAll(v.hands[N], table), RmAll(v.hands[E], table), RmAll(v.hands[S], table),
      RmAll(v.hands[W], table)),
         taker,
         v.trickNo + 1,
         v.penalties[taker := At(v.penalties, taker) + TrickPenaltyOf(mode, table, v.trickNo)])
  }

  /** Folds the rules over the logged tables, starting from the deal; the other fields of the log are not used. */
  function Replay(r: Round, log: seq<TakenJob>): View {
    if log == [] then View(r.deal, r.starting, 1, NO_PENALTIES)
    else AfterTrick(r.mode, Replay(r, log[..|log| - 1]), log[|log| - 1].table)
  }

  /** Each card was held by the player whose turn it was and followed suit. */
  ghost predicate TrickLegal(v: View, table: seq<Card>) {
    forall i :: 0 <= i < |table| ==> LegalMove(v.hands[Nth(v.leader, i)], table[i], table[..i])
  }

  ghost predicate EntryLegal(v: View, j: TakenJob) {
    && TrickLegal(v, j.table)
    && j.taker == Taker(v.leader, j.table)
    && j.trickNo == v.trickNo
  }

  /** The log is a legal game: each entry is a legal trick led by the previous taker, under its right number. */
  ghost predicate LogLegal(r: Round, log: seq<TakenJob>) {
    log == [] ||
    (var before := log[..|log| - 1];
     && LogLegal(r, before)
     && EntryLegal(Replay(r, before), log[|log| - 1]))
  }

  function LogCards(log: seq<TakenJob>): multiset<Card> {
    if log == [] then multiset{} else LogCards(log[..|log| - 1]) + multiset(log[|log| - 1].table)
  }

  lemma {:induction false} ReplayHands(r: Round, log: seq<TakenJob>, s: Side)
    ensures Replay(r, log).hands[s] == RmTaken(r.deal[s], log)
  {
    if log != [] {
      ReplayHands(r, log[..|log| - 1], s);
    }
  }

  // ---------------------------------------------------------------- the invariant

  ghost predicate Played(v: View, table: seq<Card>, s: Side) {
    Turns(v.leader, s) < |table|
  }

  /** The state is what the log and the table say it is; four cards on the table and trick 14 are transient. */
  ghost predicate RoundInv(scn: Scenario, g: Game) {
    && WellFormed(scn)
    && g.roundNumber < |scn|
    && var r := scn[g.roundNumber];
    && g.roundMode == r.mode
    && |g.table| <= 4
    && 1 <= g.trickNo <= TRICKS_PER_ROUND + 1
    && |g.takenInRound| == g.trickNo - 1
    && LogLegal(r, g.takenInRound)
    && var v := Replay(r, g.takenInRound);
    && v.trickNo == g.trickNo
    && Nth(v.leader, |g.table|) == g.nextMove
    && TrickLegal(v, g.table)
    && (forall s: Side :: g.hands[s] == RmAll(v.hands[s], g.table))
    && (forall s: Side :: |g.hands[s]| == TRICKS_PER_ROUND + 1 - g.trickNo - if Played(v, g.table, s) then 1 else 0)
    && (forall s: Side :: At(g.penaltiesRound, s) == At(v.penalties, s) >= 0)
  }

  ghost predicate Partition(scn: Scenario, g: Game)
    requires g.roundNumber < |scn|
  {
    multiset(AllCards(g.hands)) + multiset(g.table) + LogCards(g.takenInRound)
    == multiset(AllCards(scn[g.roundNumber].deal))
  }

  /** Penalties still to be handed out in the round. */
  function Outstanding(g: Game): int {
    HandsPenalty(g.roundMode, g.hands) + CardsPenalty(g.roundMode, g.table) + BasesFrom(g.roundMode, g.trickNo)
  }

  ghost predicate Conserved(g: Game) {
    Sum(g.penaltiesRound) + Outstanding(g) == RoundTotal(g.roundMode)
  }

  function TotalsOf(scn: Scenario, n: nat): int
    requires n <= |scn|
  {
    if n == 0 then 0 else TotalsOf(scn, n - 1) + RoundTotal(scn[n - 1].mode)
  }

  ghost predicate GrandTotals(scn: Scenario, g: Game)
    requires g.roundNumber <= |scn|
  {
    && ValidScores(g.penalties)
    && Sum(g.penalties) == TotalsOf(scn, g.roundNumber)
  }

  ghost predicate RoundState(scn: Scenario, g: Game) {
    RoundInv(scn, g) && Partition(scn, g) && Conserved(g) && GrandTotals(scn, g)
  }

  /** Between two calls, before the server is finished. */
  ghost predicate Inv(scn: Scenario, g: Game) {
    && RoundState(scn, g)
    && |g.table| <= 3
    && g.trickNo <= TRICKS_PER_ROUND
    && !g.exiting
  }

  /** Every round has been played. */
  ghost predicate Finished(scn: Scenario, g: Game) {
    && WellFormed(scn)
    && g.exiting
    && g.roundNumber == |scn|
    && g.trickNo == TRICKS_PER_ROUND + 1
    && (forall s: Side :: g.hands[s] == [])
    && GrandTotals(scn, g)
  }

  /** Cards played so far in the whole scenario. */
  function Progress(g: Game): int {
    52 * g.roundNumber + if g.exiting then 0 else 4 * (g.trickNo - 1) + |g.table|
  }

  // ---------------------------------------------------------------- the players of a trick

  /** A card on the table was dealt to the side that played it, so nobody else ever held it. */
  lemma TableOwners(scn: Scenario, g: Game, i: nat, s: Side)
    requires RoundInv(scn, g) && i < |g.table|
    ensures var v := Replay(scn[g.roundNumber], g.takenInRound);
            && g.table[i] in v.hands[Nth(v.leader, i)]
            && (s != Nth(v.leader, i) ==> g.table[i] !in v.hands[s])
  {
    var r := scn[g.roundNumber];
    var v := Replay(r, g.takenInRound);
    var p := Nth(v.leader, i);
    assert LegalMove(v.hands[p], g.table[i], g.table[..i]);
    ReplayHands(r, g.takenInRound, p);
    RmTakenSubset(r.deal[p], g.takenInRound, g.table[i]);
    ReplayHands(r, g.takenInRound, s);
    DealtOnce(r.deal, p);
    if s != p && g.table[i] in v.hands[s] {
      RmTakenSubset(r.deal[s], g.takenInRound, g.table[i]);
      assert false;
    }
  }

  /** A side that has not played in this trick still has the hand the log leaves it. */
  lemma NotPlayedYet(scn: Scenario, g: Game, s: Side)
    requires RoundInv(scn, g)
    requires !Played(Replay(scn[g.roundNumber], g.takenInRound), g.table, s)
    ensures g.hands[s] == Replay(scn[g.roundNumber], g.takenInRound).hands[s]
  {
    var v := Replay(scn[g.roundNumber], g.takenInRound);
    forall i | 0 <= i < |g.table| ensures g.table[i] !in v.hands[s] {
      TableOwners(scn, g, i, s);
      TurnsInvertsNth(v.leader, s, i);
    }
    RmAllDisjoint(v.hands[s], g.table);
  }

  /** No two hands share a card, and no hand holds a card twice. */
  lemma HandsDisjoint(scn: Scenario, g: Game, s: Side)
    requires RoundInv(scn, g)
    ensures NoDup(g.hands[s])
    ensures forall t: Side, c :: t != s && c in g.hands[s] ==> c !in g.hands[t]
  {
    var r := scn[g.roundNumber];
    ReplayHands(r, g.takenInRound, s);
    DealtOnce(r.deal, s);
    RmTakenNoDup(r.deal[s], g.takenInRound);
    RmAllNoDup(RmTaken(r.deal[s], g.takenInRound), g.table);
    forall t: Side, c | t != s && c in g.hands[s] ensures c !in g.hands[t] {
      DealtTo(scn, g, s, c);
      if c in g.hands[t] {
        DealtTo(scn, g, t, c);
        assert false;
      }
    }
  }

  lemma DealtTo(scn: Scenario, g: Game, s: Side, c: Card)
    requires RoundInv(scn, g) && c in g.hands[s]
    ensures c in scn[g.roundNumber].deal[s]
  {
    var r := scn[g.roundNumber];
    ReplayHands(r, g.takenInRound, s);
    RmAllSubset(RmTaken(r.deal[s], g.takenInRound), g.table, c);
    RmTakenSubset(r.deal[s], g.takenInRound, c);
  }

  // ---------------------------------------------------------------- each stage keeps the invariant

  /** The player at turn n is the only one whose turn comes between n and n + 1. */
  lemma TurnStep(leader: Side, n: nat, s: Side)
    requires n < 4
    ensures Turns(leader, s) < n + 1 <==> Turns(leader, s) < n || s == Nth(leader, n)
  {
    TurnsInvertsNth(leader, s, n);
  }

  lemma TrickLegalSnoc(v: View, table: seq<Card>, card: Card)
    requires TrickLegal(v, table) && LegalMove(v.hands[Nth(v.leader, |table|)], card, table)
    ensures TrickLegal(v, table + [card])
  {
    var t1 := table + [card];
    forall i | 0 <= i < |t1| ensures LegalMove(v.hands[Nth(v.leader, i)], t1[i], t1[..i]) {
      if i < |table| {
        assert t1[..i] == table[..i];
      } else {
        assert t1[..i] == table;
      }
    }
  }

  /** Only the player loses a card, which is the same as erasing the card from every hand. */
  lemma PlaceInHands(hands: Hands, p: Side, card: Card, s: Side)
    requires forall t: Side :: t != p ==> card !in hands[t]
    requires card in hands[p]
    ensures hands[p := Rm(hands[p], card)][s] == Rm(hands[s], card)
    ensures |Rm(hands[s], card)| == |hands[s]| - if s == p then 1 else 0
  {
    RmCounts(hands[s], card);
  }

  /** The player of a legal move still has the hand the log leaves it, and nobody else holds its card. */
  lemma Mover(scn: Scenario, g: Game, card: Card)
    requires RoundInv(scn, g) && |g.table| <= 3 && LegalMove(g.hands[g.nextMove], card, g.table)
    ensures var v := Replay(scn[g.roundNumber], g.takenInRound);
            && v.hands[g.nextMove] == g.hands[g.nextMove]
            && !Played(v, g.table, g.nextMove)
            && Nth(v.leader, |g.table| + 1) == Next(g.nextMove)
            && TrickLegal(v, g.table + [card])
    ensures card in g.hands[g.nextMove]
    ensures forall t: Side :: t != g.nextMove ==> card !in g.hands[t]
  {
    var v := Replay(scn[g.roundNumber], g.takenInRound);
    TurnsInvertsNth(v.leader, g.nextMove, |g.table|);
    NotPlayedYet(scn, g, g.nextMove);
    HandsDisjoint(scn, g, g.nextMove);
    TrickLegalSnoc(v, g.table, card);
  }

  lemma PlaceKeepsRoundInv(scn: Scenario, g: Game, card: Card)
    requires RoundInv(scn, g) && |g.table| <= 3 && LegalMove(g.hands[g.nextMove], card, g.table)
    ensures RoundInv(scn, Place(g, card))
  {
    hide Replay, RmAll, Rm, LegalMove, TrickLegal, LogLegal, ProperDeal, Nth, Next, Turns, At, WellFormed;
    Mover(scn, g, card);
    var g1 := Place(g, card);
    var v := Replay(scn[g.roundNumber], g.takenInRound);
    forall s: Side
      ensures g1.hands[s] == RmAll(v.hands[s], g1.table)
      ensures |g1.hands[s]| == TRICKS_PER_ROUND + 1 - g.trickNo - if Played(v, g1.table, s) then 1 else 0
    {
      RmAllSnoc(v.hands[s], g.table, card);
      PlaceInHands(g.hands, g.nextMove, card, s);
      TurnStep(v.leader, |g.table|, s);
    }
  }

  lemma LogLegalSnoc(r: Round, log: seq<TakenJob>, j: TakenJob)
    requires LogLegal(r, log) && EntryLegal(Replay(r, log), j)
    ensures LogLegal(r, log + [j])
    ensures Replay(r, log + [j]) == AfterTrick(r.mode, Replay(r, log), j.table)
  {
    assert (log + [j])[..|log|] == log;
  }

  /** With four cards on the table everyone has played. */
  lemma AllPlayed(scn: Scenario, g: Game, s: Side)
    requires RoundInv(scn, g) && |g.table| == 4
    ensures |g.hands[s]| == TRICKS_PER_ROUND - g.trickNo
    ensures Nth(Replay(scn[g.roundNumber], g.takenInRound).leader, 0) == g.nextMove
  {
    hide RmAll, LegalMove, TrickLegal, LogLegal, ProperDeal, WellFormed, Replay;
    TurnsInvertsNth(Replay(scn[g.roundNumber], g.takenInRound).leader, s, 0);
  }

  /** The server and the rules resolve a trick alike. */
  lemma ResolveSide(g: Game, v: View, s: Side)
    requires |g.table| == 4 && v.leader == g.nextMove && v.trickNo == g.trickNo
    requires g.hands[s] == RmAll(v.hands[s], g.table)
    requires forall t: Side :: At(g.penaltiesRound, t) == At(v.penalties, t) >= 0
    ensures var v1 := AfterTrick(g.roundMode, v, g.table);
            && g.hands[s] == RmAll(v1.hands[s], [])
            && At(Resolve(g).penaltiesRound, s) == At(v1.penalties, s) >= 0
  {
    hide Taker, TrickPenaltyOf, At, RmAll;
    var taker := Taker(g.nextMove, g.table);
    var cost := TrickPenaltyOf(g.roundMode, g.table, g.trickNo);
    AtUpdate(g.penaltiesRound, taker, At(g.penaltiesRound, taker) + cost, s);
    AtUpdate(v.penalties, taker, At(v.penalties, taker) + cost, s);
    RmAllDisjoint(g.hands[s], []);
    match s { case N => case E => case S => case W => }
  }

  lemma ResolveKeepsRoundInv(scn: Scenario, g: Game)
    requires RoundInv(scn, g) && |g.table| == 4
    ensures RoundInv(scn, Resolve(g))
  {
    hide TrickLegal, LogLegal, Replay, AfterTrick, Turns, WellFormed, At, Taker, TrickPenaltyOf, RmAll;
    var r := scn[g.roundNumber];
    var v := Replay(r, g.takenInRound);
    var g1 := Resolve(g);
    AllPlayed(scn, g, N);
    LogLegalSnoc(r, g.takenInRound, Taken(g.table, g1.nextMove, g.trickNo));
    NothingPlayed(Replay(r, g1.takenInRound));
    AfterTrickFields(r.mode, v, g.table);
    forall s: Side
      ensures |g.hands[s]| == TRICKS_PER_ROUND - g.trickNo
      ensures g.hands[s] == RmAll(Replay(r, g1.takenInRound).hands[s], [])
      ensures At(g1.penaltiesRound, s) == At(Replay(r, g1.takenInRound).penalties, s) >= 0
    {
      AllPlayed(scn, g, s);
      ResolveSide(g, v, s);
    }
  }

  lemma AfterTrickFields(mode: Mode, v: View, table: seq<Card>)
    requires |table| == 4
    ensures AfterTrick(mode, v, table).trickNo == v.trickNo + 1
    ensures AfterTrick(mode, v, table).leader == Taker(v.leader, table)
  {
  }

  lemma AtUpdate(m: map<Side, int>, k: Side, x: int, s: Side)
    ensures At(m[k := x], s) == if s == k then x else At(m, s)
  {
  }

  lemma NothingPlayed(v: View)
    ensures TrickLegal(v, []) && forall s: Side :: !Played(v, [], s)
  {
  }

  lemma HandChange(g: Game, card: Card)
    requires card in g.hands[g.nextMove]
    ensures var h := Place(g, card).hands;
            && multiset(AllCards(g.hands)) == multiset(AllCards(h)) + multiset{card}
            && HandsPenalty(g.roundMode, g.hands) == HandsPenalty(g.roundMode, h) + CardPenalty(g.roundMode, card)
  {
    hide CardsPenalty, Rm, CardPenalty, AllCards;
    RmCounts(g.hands[g.nextMove], card);
    CardsPenaltyRm(g.roundMode, g.hands[g.nextMove], card);
    AllCardsBySide(g.hands);
    AllCardsBySide(Place(g, card).hands);
    match g.nextMove { case N => case E => case S => case W => }
  }

  lemma AllCardsBySide(x: Hands)
    ensures multiset(AllCards(x)) == multiset(x[N]) + multiset(x[E]) + multiset(x[S]) + multiset(x[W])
  {
  }

  lemma PlaceKeeps(scn: Scenario, g: Game, card: Card)
    requires RoundState(scn, g) && |g.table| <= 3 && LegalMove(g.hands[g.nextMove], card, g.table)
    ensures RoundState(scn, Place(g, card))
  {
    hide CardsPenalty, BasesFrom, AllCards, CardPenalty, HandsPenalty, Rm, WellFormed;
    PlaceKeepsRoundInv(scn, g, card);
    PlaceCounts(scn, g, card);
  }

  lemma PlaceCounts(scn: Scenario, g: Game, card: Card)
    requires g.roundNumber < |scn| && Partition(scn, g) && Conserved(g) && card in g.hands[g.nextMove]
    ensures Partition(scn, Place(g, card)) && Conserved(Place(g, card))
  {
    hide CardsPenalty, BasesFrom, AllCards, CardPenalty, HandsPenalty, Rm, Sum, RoundTotal, LogCards;
    HandChange(g, card);
    CardsPenaltySnoc(g.roundMode, g.table, card);
  }

  lemma CardsPenaltySnoc(mode: Mode, cs: seq<Card>, c: Card)
    ensures CardsPenalty(mode, cs + [c]) == CardsPenalty(mode, cs) + CardPenalty(mode, c)
  {
    assert (cs + [c])[..|cs|] == cs;
  }

  lemma ResolveCounts(scn: Scenario, g: Game)
    requires g.roundNumber < |scn| && Partition(scn, g) && Conserved(g) && |g.table| == 4
             && g.trickNo <= TRICKS_PER_ROUND
    ensures Partition(scn, Resolve(g)) && Conserved(Resolve(g))
  {
    hide BasePenalty, HandsPenalty, Taker, AllCards, RoundTotal;
    var g1 := Resolve(g);
    assert g1.takenInRound[..|g.takenInRound|] == g.takenInRound;
    match g1.nextMove { case N => case E => case S => case W => }
  }

  lemma ResolveKeeps(scn: Scenario, g: Game)
    requires RoundState(scn, g) && |g.table| == 4
    ensures RoundState(scn, Resolve(g))
  {
    hide Partition, Conserved, Replay, RmAll, TrickLegal, LogLegal, WellFormed;
    AllPlayed(scn, g, N);
    ResolveKeepsRoundInv(scn, g);
    ResolveCounts(scn, g);
  }

  lemma FreshRoundInv(scn: Scenario, g: Game)
    requires WellFormed(scn) && g.roundNumber < |scn|
    requires g.table == [] && forall s: Side :: At(g.penaltiesRound, s) == 0
    ensures RoundInv(scn, PrepareRound(scn, g))
  {
    hide HandsPenalty, BasesFrom, CardsPenalty, AllCards;
    var r := scn[g.roundNumber];
    NothingPlayed(Replay(r, []));
    forall s: Side ensures |r.deal[s]| == TRICKS_PER_ROUND && At(NO_PENALTIES, s) == 0 {
      match s { case N => case E => case S => case W => }
    }
  }

  lemma FreshRound(scn: Scenario, g: Game)
    requires WellFormed(scn) && g.roundNumber < |scn| && GrandTotals(scn, g)
    requires g.table == [] && forall s: Side :: At(g.penaltiesRound, s) == 0
    ensures RoundState(scn, PrepareRound(scn, g))
  {
    hide RoundInv, HandsPenalty, BasesFrom, AllCards, ProperDeal, TotalsOf;
    FreshRoundInv(scn, g);
    var r := scn[g.roundNumber];
    assert ProperDeal(r.deal);
    DealIsWorthTheTotal(r.mode, r.deal);
  }

  lemma EmptyHanded(scn: Scenario, g: Game, s: Side)
    requires RoundInv(scn, g) && g.table == [] && g.trickNo == TRICKS_PER_ROUND + 1
    ensures g.hands[s] == []
    ensures At(g.penaltiesRound, s) >= 0
    ensures g.roundMode == scn[g.roundNumber].mode
  {
    hide Replay, RmAll, TrickLegal, LogLegal, WellFormed, At;
  }

  /** When a round ends all its penalty points have been handed out. */
  lemma RoundEnds(scn: Scenario, g: Game)
    requires RoundState(scn, g) && g.table == [] && g.trickNo == TRICKS_PER_ROUND + 1
    ensures Sum(g.penaltiesRound) == RoundTotal(g.roundMode)
    ensures g.roundMode == scn[g.roundNumber].mode
    ensures ValidScores(UpdatePenalties(g).penaltiesRound)
    ensures GrandTotals(scn, UpdatePenalties(g).(roundNumber := g.roundNumber + 1))
  {
    hide RoundInv, BasePenalty, Partition;
    EmptyHanded(scn, g, N);
    EmptyHanded(scn, g, E);
    EmptyHanded(scn, g, S);
    EmptyHanded(scn, g, W);
    assert Outstanding(g) == 0;
    var g1 := UpdatePenalties(g);
    forall s: Side
      ensures g1.penaltiesRound[s] >= 0 && g1.penalties[s] >= 0
    {
      match s { case N => case E => case S => case W => }
    }
  }

  lemma NextRoundKeeps(scn: Scenario, g: Game)
    requires RoundState(scn, g) && g.table == [] && g.trickNo == TRICKS_PER_ROUND + 1 && !g.exiting
    ensures var g2 := NextRound(scn, UpdatePenalties(g));
            if g.roundNumber + 1 == |scn| then Finished(scn, g2)
            else Inv(scn, g2) && g2.lastDeal == scn[g.roundNumber + 1].deal
  {
    hide RoundInv, Partition, Conserved, GrandTotals, WellFormed, UpdatePenalties;
    InRange(scn, g);
    RoundEnds(scn, g);
    var g1 := UpdatePenalties(g);
    UpdateKeepsTheRest(g);
    var g2 := g1.(penaltiesRound := NO_PENALTIES, roundNumber := g1.roundNumber + 1);
    TotalsOfTheRest(scn, g1.(roundNumber := g1.roundNumber + 1), g2);
    if g.roundNumber + 1 == |scn| {
      forall s: Side ensures g.hands[s] == [] {
        EmptyHanded(scn, g, s);
      }
    } else {
      FreshRound(scn, g2);
      NewDealIsNoMatter(scn, PrepareRound(scn, g2));
    }
  }

  lemma InRange(scn: Scenario, g: Game)
    requires RoundInv(scn, g)
    ensures WellFormed(scn) && g.roundNumber < |scn|
  {
  }

  lemma UpdateKeepsTheRest(g: Game)
    ensures UpdatePenalties(g).(penaltiesRound := g.penaltiesRound, penalties := g.penalties) == g
    ensures forall s: Side :: At(NO_PENALTIES, s) == 0
  {
    forall s: Side ensures At(NO_PENALTIES, s) == 0 {
      match s { case N => case E => case S => case W => }
    }
  }

  lemma TotalsOfTheRest(scn: Scenario, g: Game, g1: Game)
    requires g.roundNumber == g1.roundNumber <= |scn| && g.penalties == g1.penalties && GrandTotals(scn, g)
    ensures GrandTotals(scn, g1) && GrandTotals(scn, g1.(exiting := true))
  {
  }

  /** The stored deal plays no part in the round's own invariant. */
  lemma NewDealIsNoMatter(scn: Scenario, g: Game)
    requires RoundState(scn, g)
    ensures RoundState(scn, g.(lastDeal := g.hands))
  {
    hide Replay, RmAll, TrickLegal, LogLegal, ProperDeal, Played, HandsPenalty, CardsPenalty, BasesFrom, AllCards,
         TotalsOf, RoundTotal;
  }
}
