/** Which jobs of an accepted move reach which side, and what they do to the client there. */
module Delivery {
  import opened Cards
  import opened Rules
  import opened Jobs
  import opened Game
  import opened GameInvariant
  import opened GameRuns
  import opened Client
  import opened Views

  function JobsFor(outs: seq<Out>, s: Side): seq<Job> {
    if outs == [] then []
    else
      var o := outs[|outs| - 1];
      JobsFor(outs[..|outs| - 1], s) + if o.to == s then [o.job] else []
  }

  lemma {:induction false} JobsForAppend(a: seq<Out>, b: seq<Out>, s: Side)
    ensures JobsFor(a + b, s) == JobsFor(a, s) + JobsFor(b, s)
  {
    if b == [] {
      assert a + b == a;
    } else {
      assert (a + b)[..|a + b| - 1] == a + b[..|b| - 1];
      JobsForAppend(a, b[..|b| - 1], s);
    }
  }

  lemma JobsForOne(o: Out, s: Side)
    ensures JobsFor([o], s) == if o.to == s then [o.job] else []
  {
    assert [o][..0] == [];
  }

  lemma JobsForTwo(o: Out, p: Out, s: Side)
    ensures JobsFor([o, p], s) == (if o.to == s then [o.job] else []) + (if p.to == s then [p.job] else [])
  {
    assert [o, p] == [o] + [p];
    JobsForAppend([o], [p], s);
    JobsForOne(o, s);
    JobsForOne(p, s);
  }

  /** One job for each side in the loop's order reaches each side once. */
  lemma JobsForEach(n: Out, s: Out, w: Out, e: Out, x: Side)
    requires n.to == N && s.to == S && w.to == W && e.to == E
    ensures JobsFor([n, s, w, e], x) == [(match x case N => n case S => s case W => w case E => e).job]
  {
    assert [n, s, w, e] == [n, s] + [w, e];
    JobsForAppend([n, s], [w, e], x);
    JobsForTwo(n, s, x);
    JobsForTwo(w, e, x);
  }

  function Ask(g: Game, s: Side): seq<Job> {
    if s == g.nextMove then [Trick(g.table, g.trickNo)] else []
  }

  lemma JobsForAsk(g: Game, s: Side)
    ensures JobsFor(AskNext(g), s) == Ask(g, s)
  {
    JobsForOne(AskNext(g)[0], s);
  }

  lemma JobsForDeals(g: Game, s: Side)
    ensures JobsFor(Deals(g), s) == [Deal(g.roundMode, g.nextMove, g.hands[s])]
  {
    JobsForEach(DealTo(g, N), DealTo(g, S), DealTo(g, W), DealTo(g, E), s);
  }

  lemma JobsForScores(g: Game, s: Side)
    ensures JobsFor(Scores(g, N) + Scores(g, S) + Scores(g, W) + Scores(g, E), s)
         == [Score(g.penaltiesRound), Total(g.penalties)]
  {
    hide JobsFor;
    var n, so, w, e := Scores(g, N), Scores(g, S), Scores(g, W), Scores(g, E);
    JobsForAppend(n + so + w, e, s);
    JobsForAppend(n + so, w, s);
    JobsForAppend(n, so, s);
    JobsForTwo(n[0], n[1], s);
    JobsForTwo(so[0], so[1], s);
    JobsForTwo(w[0], w[1], s);
    JobsForTwo(e[0], e[1], s);
    match s { case N => case E => case S => case W => }
  }

  lemma JobsForRoundEnd(scn: Scenario, g: Game, s: Side)
    ensures var g1 := UpdatePenalties(g);
            var g2 := NextRound(scn, g1);
            JobsFor(RoundEndOuts(scn, g), s)
            == [Score(g1.penaltiesRound), Total(g1.penalties)]
             + if g1.roundNumber + 1 >= |scn| then [] else [Deal(g2.roundMode, g2.nextMove, g2.hands[s])] + Ask(g2, s)
  {
    hide JobsFor, Scores, Deals, AskNext, Ask, UpdatePenalties, NextRound;
    var g1 := UpdatePenalties(g);
    var g2 := NextRound(scn, g1);
    var scores := Scores(g1, N) + Scores(g1, S) + Scores(g1, W) + Scores(g1, E);
    JobsForScores(g1, s);
    if g1.roundNumber + 1 >= |scn| {
      assert RoundEndOuts(scn, g) == scores;
    } else {
      JobsForAppend(scores, Deals(g2) + AskNext(g2), s);
      JobsForAppend(Deals(g2), AskNext(g2), s);
      JobsForDeals(g2, s);
      JobsForAsk(g2, s);
    }
  }

  /** The jobs of an accepted move for one side, in order. */
  lemma JobsForAccept(scn: Scenario, g: Game, card: Card, s: Side)
    requires |g.table| <= 3
    ensures var g1 := Place(g, card);
            JobsFor(AcceptOuts(scn, g, card), s) ==
              if |g1.table| < 4 then Ask(g1, s)
              else
                var g2 := Resolve(g1);
                [Taken(g1.table, g2.nextMove, g1.trickNo)]
                + if g2.trickNo != TRICKS_PER_ROUND + 1 then Ask(g2, s) else JobsFor(RoundEndOuts(scn, g2), s)
  {
    hide JobsFor, RoundEndOuts, Ask, Resolve, AskNext;
    var g1 := Place(g, card);
    if |g1.table| < 4 {
      JobsForAsk(g1, s);
    } else {
      var g2 := Resolve(g1);
      ResolveFields(g1);
      var t := Taken(g1.table, g2.nextMove, g1.trickNo);
      JobsForEach(Out(N, t), Out(S, t), Out(W, t), Out(E, t), s);
      JobsForAsk(g2, s);
      JobsForAppend(ToAll(t), if g2.trickNo != TRICKS_PER_ROUND + 1 then AskNext(g2) else RoundEndOuts(scn, g2), s);
    }
  }

  /** The same with the end of a round spelled out: the scores, and in all rounds but the last the next deal. */
  lemma JobsForMove(scn: Scenario, g: Game, card: Card, s: Side)
    requires |g.table| <= 3
    ensures var g1 := Place(g, card);
            JobsFor(AcceptOuts(scn, g, card), s) ==
              if |g1.table| < 4 then Ask(g1, s)
              else
                var g2 := Resolve(g1);
                var g3 := UpdatePenalties(g2);
                var g4 := NextRound(scn, g3);
                [Taken(g1.table, g2.nextMove, g1.trickNo)]
                + if g2.trickNo != TRICKS_PER_ROUND + 1 then Ask(g2, s)
                  else [Score(g3.penaltiesRound), Total(g3.penalties)]
                       + if g2.roundNumber + 1 >= |scn| then []
                         else [Deal(g4.roundMode, g4.nextMove, g4.hands[s])] + Ask(g4, s)
  {
    hide JobsFor, RoundEndOuts, AcceptOuts, Ask, Resolve, UpdatePenalties, NextRound;
    JobsForAccept(scn, g, card, s);
    if |Place(g, card).table| == 4 {
      JobsForRoundEnd(scn, Resolve(Place(g, card)), s);
      UpdateKeepsTheRest(Resolve(Place(g, card)));
    }
  }

  // ---------------------------------------------------------------- what they do to the client

  /** The game has started and the stored deal is the round's. */
  ghost predicate Playing(scn: Scenario, g: Game) {
    Inv(scn, g) && g.lastDeal == scn[g.roundNumber].deal
  }

  lemma AskIfNext(scn: Scenario, g: Game, s: Side, p: Proc)
    requires Inv(scn, g) && InStep(scn, g, s, p)
    ensures var q := Settled(p, Ask(g, s));
            InStep(scn, g, s, q) && (s == g.nextMove ==> Answered(g, s, q))
  {
    hide Inv, InStep, Answered;
    if s == g.nextMove {
      AskMessage(scn, g, p);
      SettledOne(p, Trick(g.table, g.trickNo));
    }
  }

  lemma WaitingIsInStep(scn: Scenario, g: Game, s: Side, p: Proc)
    requires RoundInv(scn, g) && g.table == [] && Waiting(g, s, p)
    ensures InStep(scn, g, s, p)
  {
    InRange(scn, g);
    hide RoundInv, Waiting, Replay;
  }

  lemma NewRoundView(scn: Scenario, g: Game, s: Side, p: Proc)
    requires RoundState(scn, g) && g.table == [] && g.trickNo == TRICKS_PER_ROUND + 1 && !g.exiting
    requires Waiting(g, s, p)
    ensures var g2 := NextRound(scn, UpdatePenalties(g));
            var q := Settled(p, JobsFor(RoundEndOuts(scn, g), s));
            !g2.exiting ==> Inv(scn, g2) && InStep(scn, g2, s, q) && (s == g2.nextMove ==> Answered(g2, s, q))
  {
    hide RoundInv, Partition, Conserved, GrandTotals, Finished, Waiting, RoundEndOuts, UpdatePenalties, JobsFor, Ask,
         InStep, Answered;
    InRange(scn, g);
    NextRoundKeeps(scn, g);
    NextRoundFields(scn, g);
    JobsForRoundEnd(scn, g, s);
    var g1 := UpdatePenalties(g);
    var g2 := NextRound(scn, g1);
    if !g2.exiting {
      var score, total := Score(g1.penaltiesRound), Total(g1.penalties);
      var deal := Deal(g2.roundMode, g2.nextMove, g2.hands[s]);
      var q := RecvP(RecvP(RecvP(p, score), total), deal);
      RoundMessages(g, g2, s, p, score, total, deal);
      WaitingIsInStep(scn, g2, s, q);
      AskIfNext(scn, g2, s, q);
      ThreeThenMore(p, score, total, deal, Ask(g2, s));
    }
  }

  lemma ThreeThenMore(p: Proc, a: Job, b: Job, c: Job, more: seq<Job>)
    ensures Settled(p, [a, b] + ([c] + more)) == Settled(RecvP(RecvP(RecvP(p, a), b), c), more)
  {
    hide RecvP;
    SettledAppend(p, [a, b], [c] + more);
    SettledAppend(Settled(p, [a, b]), [c], more);
    assert [a, b] == [a] + [b];
    SettledAppend(p, [a], [b]);
    SettledOne(p, a);
    SettledOne(RecvP(p, a), b);
    SettledOne(RecvP(RecvP(p, a), b), c);
  }

  lemma TrickEndView(scn: Scenario, g: Game, s: Side, p: Proc)
    requires RoundState(scn, g) && |g.table| == 4 && !g.exiting && g.lastDeal == scn[g.roundNumber].deal
    requires InStep(scn, g, s, p)
    ensures var g2 := Resolve(g);
            var q := RecvP(p, Taken(g.table, g2.nextMove, g.trickNo));
            RoundState(scn, g2) && Waiting(g2, s, q)
  {
    hide RoundInv, Partition, Conserved, GrandTotals, Waiting, InStep, Resolve;
    ResolveKeeps(scn, g);
    TakenMessage(scn, g, s, p);
  }

  /**
   * The view of one side across an accepted move: p is the side's settled client, for the mover
   * without the answer that has just been read. Afterwards the client is in step again,
   * and the side whose turn it is has answered.
   */
  lemma AcceptView(scn: Scenario, g: Game, card: Card, s: Side, p: Proc)
    requires Playing(scn, g) && LegalMove(g.hands[g.nextMove], card, g.table)
    requires InStep(scn, Place(g, card), s, p)
    ensures var g1 := Accept(scn, g, card);
            var q := Settled(p, JobsFor(AcceptOuts(scn, g, card), s));
            !g1.exiting ==> Inv(scn, g1) && InStep(scn, g1, s, q) && (s == g1.nextMove ==> Answered(g1, s, q))
  {
    hide RoundInv, Partition, Conserved, GrandTotals, Waiting, InStep, Answered, Resolve, JobsFor, AcceptOuts,
         LegalMove, NextRound, UpdatePenalties, RoundEndOuts, Ask, Finished;
    var g1 := Place(g, card);
    PlaceKeeps(scn, g, card);
    InvFacts(scn, g1);
    JobsForAccept(scn, g, card, s);
    if |g1.table| < 4 {
      AskIfNext(scn, g1, s, p);
    } else {
      var g2 := Resolve(g1);
      ResolveFields(g1);
      TrickEndView(scn, g1, s, p);
      InvFacts(scn, g2);
      var t := Taken(g1.table, g2.nextMove, g1.trickNo);
      var q := RecvP(p, t);
      SettledOne(p, t);
      if g2.trickNo != TRICKS_PER_ROUND + 1 {
        WaitingIsInStep(scn, g2, s, q);
        AskIfNext(scn, g2, s, q);
        SettledAppend(p, [t], Ask(g2, s));
      } else {
        NewRoundView(scn, g2, s, q);
        SettledAppend(p, [t], JobsFor(RoundEndOuts(scn, g2), s));
      }
    }
  }

  lemma FinalMessages(g: Game, s: Side, p: Proc, score: Job, total: Job)
    requires Waiting(g, s, p) && score.Score? && total.Total? && g.hands[s] == []
    ensures Through(Settled(p, [score, total]))
  {
    SettledAppend(p, [score], [total]);
    SettledOne(p, score);
    SettledOne(RecvP(p, score), total);
    assert [score, total] == [score] + [total];
  }

  /** The last card of the last round: a client that has read what follows has seen the game to its end. */
  lemma LastView(scn: Scenario, g: Game, card: Card, s: Side, p: Proc)
    requires Playing(scn, g) && LegalMove(g.hands[g.nextMove], card, g.table)
    requires InStep(scn, Place(g, card), s, p)
    ensures Accept(scn, g, card).exiting ==> Through(Settled(p, JobsFor(AcceptOuts(scn, g, card), s)))
  {
    hide RoundInv, Partition, Conserved, GrandTotals, Waiting, InStep, Resolve, JobsFor, AcceptOuts, LegalMove,
         NextRound, UpdatePenalties, RoundEndOuts, Ask, Finished, Through, Settled;
    var g1 := Place(g, card);
    PlaceKeeps(scn, g, card);
    InvFacts(scn, g1);
    JobsForAccept(scn, g, card, s);
    if Accept(scn, g, card).exiting && |g1.table| == 4 {
      var g2 := Resolve(g1);
      ResolveFields(g1);
      TrickEndView(scn, g1, s, p);
      InvFacts(scn, g2);
      NextRoundFields(scn, g2);
      JobsForRoundEnd(scn, g2, s);
      var u := UpdatePenalties(g2);
      UpdateKeepsTheRest(g2);
      assert g2.trickNo == TRICKS_PER_ROUND + 1;
      EmptyHanded(scn, g2, s);
      var t := Taken(g1.table, g2.nextMove, g1.trickNo);
      var last := [Score(u.penaltiesRound), Total(u.penalties)];
      assert last + [] == last;
      assert JobsFor(AcceptOuts(scn, g, card), s) == [t] + last;
      SettledOne(p, t);
      SettledAppend(p, [t], last);
      FinalMessages(g2, s, RecvP(p, t), Score(u.penaltiesRound), Total(u.penalties));
    }
  }
}
