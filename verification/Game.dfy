/** The game part of the server's state and the moves on it (server/server.cpp). */
module Game {
  import opened Cards
  import opened Rules
  import opened Jobs

  datatype Round = Round(mode: Mode, deal: Hands, starting: Side)

  type Scenario = seq<Round>

  datatype Game = Game(
    hands: Hands,
    table: seq<Card>,
    nextMove: Side,
    roundNumber: nat,
    trickNo: int,
    roundMode: Mode,
    penalties: map<Side, int>,
    penaltiesRound: map<Side, int>,
    takenInRound: seq<TakenJob>,
    lastDeal: map<Side, Hand>,
    exiting: bool)

  /** A job for whoever sits at a side. */
  datatype Out = Out(to: Side, job: Job)

  /** Reading an entry of an unordered_map creates it with 0 when it is missing. */
  function At(m: map<Side, int>, s: Side): int {
    if s in m then m[s] else 0
  }

  function Sum(m: map<Side, int>): int {
    At(m, N) + At(m, E) + At(m, S) + At(m, W)
  }

  const NO_PENALTIES: map<Side, int> := PerSide(0, 0, 0, 0)

  /** Server::prepareRound. */
  function PrepareRound(scn: Scenario, g: Game): Game
    requires g.roundNumber < |scn|
  {
    var r := scn[g.roundNumber];
    g.(roundMode := r.mode, hands := r.deal, nextMove := r.starting, trickNo := 1, takenInRound := [])
  }

  /** The state once the constructor and the first prepareRound are done. */
  function Start(scn: Scenario): Game
    requires scn != []
  {
    PrepareRound(scn, Game(PerSide([], [], [], []), [], W, 0, 1, TrickPenalty, NO_PENALTIES, map[], [], map[], false))
  }

  // ---------------------------------------------------------------- an accepted move, stage by stage

  /** The card moves from the hand to the table and the turn passes. */
  function Place(g: Game, card: Card): Game {
    g.(table := g.table + [card],
       hands := g.hands[g.nextMove := Rm(g.hands[g.nextMove], card)],
       nextMove := Next(g.nextMove))
  }

  /** A full table is taken. */
  function Resolve(g: Game): Game
    requires |g.table| == 4
  {
    var taker := Taker(g.nextMove, g.table);
    g.(table := [],
       nextMove := taker,
       trickNo := g.trickNo + 1,
       penaltiesRound := g.penaltiesRound[taker := At(g.penaltiesRound, taker)
                         + TrickPenaltyOf(g.roundMode, g.table, g.trickNo)],
       takenInRound := g.takenInRound + [Taken(g.table, taker, g.trickNo)])
  }

  /** Server::updatePenalties creates the missing entries of penaltiesRound. */
  function UpdatePenalties(g: Game): Game {
    var filled := PerSide(At(g.penaltiesRound, N), At(g.penaltiesRound, E), At(g.penaltiesRound, S),
      At(g.penaltiesRound, W));
    g.(penaltiesRound := filled,
       penalties := PerSide(At(g.penalties, N) + filled[N], At(g.penalties, E) + filled[E],
                            At(g.penalties, S) + filled[S], At(g.penalties, W) + filled[W]))
  }

  /** The round is closed; the next one is dealt, or the server finishes. */
  function NextRound(scn: Scenario, g: Game): Game {
    var g1 := g.(penaltiesRound := NO_PENALTIES, roundNumber := g.roundNumber + 1);
    if g1.roundNumber >= |scn| then g1.(exiting := true)
    else var g2 := PrepareRound(scn, g1); g2.(lastDeal := g2.hands)
  }

  function Accept(scn: Scenario, g: Game, card: Card): Game
    requires |g.table| <= 3
  {
    var g1 := Place(g, card);
    if |g1.table| < 4 then g1
    else
      var g2 := Resolve(g1);
      if g2.trickNo != TRICKS_PER_ROUND + 1 then g2 else NextRound(scn, UpdatePenalties(g2))
  }

  // ---------------------------------------------------------------- the jobs an accepted move sends

  function ToAll(job: Job): seq<Out> {
    [Out(N, job), Out(S, job), Out(W, job), Out(E, job)]
  }

  function Scores(g: Game, s: Side): seq<Out> {
    [Out(s, Score(g.penaltiesRound)), Out(s, Total(g.penalties))]
  }

  function DealTo(g: Game, s: Side): Out {
    Out(s, Deal(g.roundMode, g.nextMove, g.hands[s]))
  }

  function Deals(g: Game): seq<Out> {
    [DealTo(g, N), DealTo(g, S), DealTo(g, W), DealTo(g, E)]
  }

  function AskNext(g: Game): seq<Out> {
    [Out(g.nextMove, Trick(g.table, g.trickNo))]
  }

  function RoundEndOuts(scn: Scenario, g: Game): seq<Out> {
    var g1 := UpdatePenalties(g);
    var g2 := NextRound(scn, g1);
    Scores(g1, N) + Scores(g1, S) + Scores(g1, W) + Scores(g1, E)
    + if g1.roundNumber + 1 >= |scn| then [] else Deals(g2) + AskNext(g2)
  }

  function AcceptOuts(scn: Scenario, g: Game, card: Card): seq<Out>
    requires |g.table| <= 3
  {
    var g1 := Place(g, card);
    if |g1.table| < 4 then AskNext(g1)
    else
      var g2 := Resolve(g1);
      ToAll(g2.takenInRound[|g2.takenInRound| - 1])
      + if g2.trickNo != TRICKS_PER_ROUND + 1 then AskNext(g2) else RoundEndOuts(scn, g2)
  }

  // ---------------------------------------------------------------- a move as it arrives

  ghost predicate Accepted(g: Game, trickNo: int, side: Side, card: Card) {
    trickNo == g.trickNo && side == g.nextMove && LegalMove(g.hands[side], card, g.table)
  }
}
