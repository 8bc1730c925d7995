/** The messages of the game (common/send_job.h). */
module Jobs {
  import opened Cards
  import opened Rules

  datatype Job =
    | Intro(side: Side)
    | Busy(sides: set<Side>)
    | Deal(mode: Mode, starting: Side, cards: seq<Card>)
    | Trick(table: seq<Card>, trickNo: int)
    | Taken(table: seq<Card>, taker: Side, trickNo: int)
    | Wrong(trickNo: int)
    | Score(scores: map<Side, int>)
    | Total(scores: map<Side, int>)

  /** A logged trick is always a full one. */
  type TakenJob = j: Job | j.Taken? && |j.table| == 4
    witness Taken(seq(4, _ => Card(2, Clubs)), N, 1)

  predicate ValidScores(m: map<Side, int>) {
    forall s: Side :: s in m && m[s] >= 0
  }

  /** What a client can read: the ranges of the grammar in common/network_msg_parser.cpp. */
  predicate ValidToClient(j: Job) {
    match j
    case Intro(_) => false
    case Busy(sides) => sides != {}
    case Deal(_, _, cards) => |cards| == TRICKS_PER_ROUND
    case Trick(table, no) => |table| <= 3 && 1 <= no <= TRICKS_PER_ROUND
    case Taken(table, _, no) => |table| == 4 && 1 <= no <= TRICKS_PER_ROUND
    case Wrong(no) => 1 <= no <= TRICKS_PER_ROUND
    case Score(m) => ValidScores(m)
    case Total(m) => ValidScores(m)
  }

  predicate ValidToServer(j: Job) {
    match j
    case Intro(_) => true
    case Trick(table, no) => |table| == 1 && 1 <= no <= TRICKS_PER_ROUND
    case _ => false
  }

  /** The hand after the cards of each logged trick have been removed, as a client does with replayed messages. */
  function RmTaken(h: Hand, log: seq<TakenJob>): Hand {
    if log == [] then h else RmAll(RmTaken(h, log[..|log| - 1]), log[|log| - 1].table)
  }

  lemma {:induction false} RmTakenSubset(h: Hand, log: seq<TakenJob>, x: Card)
    requires x in RmTaken(h, log)
    ensures x in h
  {
    if log != [] {
      RmAllSubset(RmTaken(h, log[..|log| - 1]), log[|log| - 1].table, x);
      RmTakenSubset(h, log[..|log| - 1], x);
    }
  }

  lemma {:induction false} RmTakenNoDup(h: Hand, log: seq<TakenJob>)
    requires NoDup(h)
    ensures NoDup(RmTaken(h, log))
  {
    if log != [] {
      RmTakenNoDup(h, log[..|log| - 1]);
      RmAllNoDup(RmTaken(h, log[..|log| - 1]), log[|log| - 1].table);
    }
  }
}
