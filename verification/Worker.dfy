/**
  * The outgoing side of a worker's thread and the queue it shares with the server (server/io_worker.cpp,
  * server/job_queue.cpp).
  */
module Worker {
  import opened Jobs
  import opened Reading

  // ---------------------------------------------------------------- the queue

  class JobQueue {
    var jobsPending: seq<Job>
    var killFlag: bool

    ghost var pushed: seq<Job>
    ghost var popped: seq<Job>

    /** Jobs leave the queue in the order in which they were pushed. */
    ghost predicate Valid()
      reads this
    {
      pushed == popped + jobsPending
    }

    constructor ()
      ensures Valid() && pushed == [] && popped == [] && !killFlag
    {
      jobsPending, killFlag, pushed, popped := [], false, [], [];
    }

    method PushNextJob(job: Job)
      requires Valid()
      modifies this
      ensures Valid() && pushed == old(pushed) + [job] && popped == old(popped) && killFlag == old(killFlag)
      ensures jobsPending == old(jobsPending) + [job]
    {
      jobsPending := jobsPending + [job];
      pushed := pushed + [job];
    }

    /** None stands for the exception on an empty queue. */
    method PopNextJob() returns (job: Option<Job>)
      requires Valid()
      modifies this
      ensures Valid() && pushed == old(pushed) && killFlag == old(killFlag)
      ensures old(jobsPending) == [] ==> job == None && popped == old(popped) == pushed && jobsPending == []
      ensures old(jobsPending) != [] ==>
                && |old(popped)| < |pushed| && job == Some(pushed[|old(popped)|]) && popped == old(popped) + [job.value]
                && old(jobsPending) == [job.value] + jobsPending
    {
      if jobsPending == [] {
        return None;
      }
      job := Some(jobsPending[0]);
      popped := popped + [jobsPending[0]];
      jobsPending := jobsPending[1..];
    }

    method HasNextJob() returns (b: bool)
      ensures b <==> jobsPending != []
    {
      return jobsPending != [];
    }

    method HasKillOrder() returns (b: bool)
      ensures b == killFlag
    {
      return killFlag;
    }

    method SetKillOrder()
      modifies this
      ensures killFlag && pushed == old(pushed) && popped == old(popped) && jobsPending == old(jobsPending)
    {
      killFlag := true;
    }
  }

  // ---------------------------------------------------------------- the thread, step by step

  /** Where the thread is in its loop. */
  datatype Pc = Poll | Drain | Flush | Check | DrainAgain | FlushAgain | Close | Exit | Ended

  /**
   * The worker with its queue, and what the server's lock protects: whether the game is over and whether all
   * four players are connected. The last five fields are its history: the jobs pushed, how many of them had been
   * pushed when the kill order was given (-1 before that), whether the order has closed the open connection,
   * and whether a send has failed.
   */
  datatype Worker = Worker(
    queue: seq<Job>,
    killFlag: bool,
    pendingOutgoing: seq<Job>,
    closedFd: bool,
    wantToQuit: bool,
    pc: Pc,
    exiting: bool,
    allConnected: bool,
    sent: seq<Job>,
    pushed: seq<Job>,
    ordered: int,
    closedByOrder: bool,
    failed: bool)

  const STARTED := Worker([], false, [], false, false, Poll, false, false, [], [], -1, false, false)

  datatype Act =
    | Push(job: Job)               // a callback gives the worker a job
    | Kill                         // a callback orders it to quit
    | GameOver                     // finalize sets exiting
    | Seats(all: bool)             // players come and go
    | BadMessage                   // the socket brings a message the server does not understand
    | Step(hangUp: bool, corrupted: bool, ok: bool, letGo: bool)   // the thread's next step

  /** Server::execMutexed. */
  predicate MaySend(w: Worker) {
    w.allConnected || w.exiting
  }

  /** One job is popped from the queue, or the queue is found empty: the loops before the two flushes. */
  function DrainStep(w: Worker, again: Pc, next: Pc, skip: Pc): Worker {
    if w.queue != [] then w.(queue := w.queue[1..], pendingOutgoing := w.pendingOutgoing + [w.queue[0]], pc := again)
    else w.(pc := if w.closedFd then skip else next)
  }

  /** One job is sent under the server's lock, or the flush ends. */
  function FlushStep(w: Worker, ok: bool, again: Pc, next: Pc): Worker {
    if w.pendingOutgoing == [] || !MaySend(w) then w.(pc := next)
    else
      var w1 := w.(pendingOutgoing := w.pendingOutgoing[1..], pc := again);
      if ok && !w.closedFd then w1.(sent := w.sent + [w.pendingOutgoing[0]])
      else w1.(failed := true, closedFd := true, wantToQuit := true)
  }

  function ThreadStep(w: Worker, hangUp: bool, corrupted: bool, ok: bool, letGo: bool): Worker {
    match w.pc
    case Poll =>
      if (hangUp || corrupted) && !w.wantToQuit then
        w.(closedFd := true, wantToQuit := true, pc := if corrupted && letGo then Ended else Drain)
      else w.(pc := Drain)
    case Drain => DrainStep(w, Drain, Flush, Check)
    case Flush =>
      var w1 := FlushStep(w, ok, Flush, Check);
      if w1.pc == Check && w1.failed then w1.(pc := Ended) else w1
    case Check => w.(pc := if w.killFlag then DrainAgain else Exit)
    case DrainAgain => DrainStep(w, DrainAgain, FlushAgain, Close)
    case FlushAgain => FlushStep(w, ok, FlushAgain, Close)
    case Close =>
      w.(closedByOrder := w.closedByOrder || !w.closedFd, closedFd := true, wantToQuit := true, pc := Exit)
    case Exit => w.(pc := if (w.wantToQuit && letGo) || w.failed then Ended else Poll)
    case Ended => w
  }

  function Do(w: Worker, a: Act): Worker {
    match a
    case Push(job) => w.(queue := w.queue + [job], pushed := w.pushed + [job])
    case Kill => w.(killFlag := true, ordered := if w.killFlag then w.ordered else |w.pushed|)
    case GameOver => w.(exiting := true)
    case Seats(all) => w.(allConnected := all)
    case BadMessage => if w.pc == Poll then w.(wantToQuit := true) else w
    case Step(hangUp, corrupted, ok, letGo) => ThreadStep(w, hangUp, corrupted, ok, letGo)
  }

  function Run(w: Worker, acts: seq<Act>): Worker {
    if acts == [] then w else Do(Run(w, acts[..|acts| - 1]), acts[|acts| - 1])
  }

  // ---------------------------------------------------------------- what every run keeps

  /**
    * Jobs are sent in the order in which they were pushed, and after the second drain none from before the order is
    * queued.
    */
  ghost predicate Sound(w: Worker) {
    && (!w.failed ==> w.pushed == w.sent + w.pendingOutgoing + w.queue)
    && (w.killFlag ==> 0 <= w.ordered <= |w.pushed|)
    && (w.pc == DrainAgain || w.pc == FlushAgain || w.pc == Close ==> w.killFlag)
    && (w.pc == FlushAgain || w.pc == Close ==> |w.pushed| - |w.queue| >= w.ordered)
    && (w.closedByOrder ==> w.closedFd)
  }

  lemma Regroup(a: seq<Job>, b: seq<Job>, c: seq<Job>, d: seq<Job>)
    ensures a + b + (c + d) == a + (b + c) + d
    ensures a + (b + c) + d == (a + b) + c + d
  {
  }

  lemma DrainSound(w: Worker, again: Pc, next: Pc, skip: Pc)
    requires Sound(w) && w.pc == again
    requires (again == Drain && next == Flush && skip == Check)
             || (again == DrainAgain && next == FlushAgain && skip == Close)
    ensures Sound(DrainStep(w, again, next, skip))
  {
    if w.queue != [] {
      assert w.queue == [w.queue[0]] + w.queue[1..];
      Regroup(w.sent, w.pendingOutgoing, [w.queue[0]], w.queue[1..]);
    }
  }

  lemma FlushSound(w: Worker, ok: bool, again: Pc, next: Pc)
    requires Sound(w) && w.pc == again
    requires (again == Flush && next == Check) || (again == FlushAgain && next == Close)
    ensures Sound(FlushStep(w, ok, again, next))
  {
    if w.pendingOutgoing != [] {
      assert w.pendingOutgoing == [w.pendingOutgoing[0]] + w.pendingOutgoing[1..];
      Regroup(w.sent, [w.pendingOutgoing[0]], w.pendingOutgoing[1..], w.queue);
    }
  }

  lemma ThreadSound(w: Worker, hangUp: bool, corrupted: bool, ok: bool, letGo: bool)
    requires Sound(w)
    ensures Sound(ThreadStep(w, hangUp, corrupted, ok, letGo))
  {
    hide DrainStep, FlushStep;
    match w.pc {
      case Drain => DrainSound(w, Drain, Flush, Check);
      case Flush => FlushSound(w, ok, Flush, Check);
      case DrainAgain => DrainSound(w, DrainAgain, FlushAgain, Close);
      case FlushAgain => FlushSound(w, ok, FlushAgain, Close);
      case _ =>
    }
  }

  lemma StepSound(w: Worker, a: Act)
    requires Sound(w)
    ensures Sound(Do(w, a))
  {
    hide ThreadStep;
    match a {
      case Push(job) =>
        assert w.sent + w.pendingOutgoing + (w.queue + [job]) == w.sent + w.pendingOutgoing + w.queue + [job];
      case Step(hangUp, corrupted, ok, letGo) => ThreadSound(w, hangUp, corrupted, ok, letGo);
      case _ =>
    }
  }

  lemma {:induction false} RunSound(acts: seq<Act>)
    ensures Sound(Run(STARTED, acts))
  {
    hide Sound, Do;
    if acts == [] {
      StartedSound();
    } else {
      RunSound(acts[..|acts| - 1]);
      StepSound(Run(STARTED, acts[..|acts| - 1]), acts[|acts| - 1]);
    }
  }

  lemma StartedSound()
    ensures Sound(STARTED)
  {
  }

  // ---------------------------------------------------------------- flush before close

  /** Every job that had been pushed when the order was given has been sent, in push order. */
  ghost predicate Flushed(w: Worker) {
    0 <= w.ordered <= |w.pushed| && w.pushed[..w.ordered] <= w.sent <= w.pushed
  }

  /** With orders only after exiting: the second flush ends with nothing left to send. */
  ghost predicate Kept(w: Worker) {
    && (w.killFlag ==> w.exiting)
    && (w.pc == Close && !w.closedFd ==> w.pendingOutgoing == [])
    && (w.closedByOrder ==> w.killFlag && (!w.failed ==> w.ordered <= |w.sent|))
  }

  ghost predicate Inv(w: Worker) {
    Sound(w) && Kept(w)
  }

  /** Orders to quit are given only once the game is over. */
  ghost predicate Orderly(w: Worker, acts: seq<Act>)
    decreases |acts|
  {
    acts == [] ||
    (Orderly(w, acts[..|acts| - 1]) && (acts[|acts| - 1] == Kill ==> Run(w, acts[..|acts| - 1]).exiting))
  }

  lemma DrainKeeps(w: Worker, again: Pc, next: Pc, skip: Pc)
    requires Kept(w) && next != Close && (skip == Close ==> again == DrainAgain)
    requires w.pc == again && again != Close
    ensures Kept(DrainStep(w, again, next, skip))
  {
  }

  lemma FlushKeeps(w: Worker, ok: bool, again: Pc, next: Pc)
    requires Kept(w) && w.pc == again && again != Close && (next == Close ==> w.killFlag)
    ensures Kept(FlushStep(w, ok, again, next))
  {
  }

  lemma ThreadKeeps(w: Worker, hangUp: bool, corrupted: bool, ok: bool, letGo: bool)
    requires Inv(w)
    ensures Kept(ThreadStep(w, hangUp, corrupted, ok, letGo))
  {
    hide DrainStep, FlushStep, Sound;
    OrderedWhenClosing(w);
    match w.pc {
      case Drain => DrainKeeps(w, Drain, Flush, Check);
      case Flush => FlushKeeps(w, ok, Flush, Check);
      case DrainAgain => DrainKeeps(w, DrainAgain, FlushAgain, Close);
      case FlushAgain => FlushKeeps(w, ok, FlushAgain, Close);
      case _ =>
    }
  }

  lemma StepKeeps(w: Worker, a: Act)
    requires Inv(w) && (a == Kill ==> w.exiting)
    ensures Inv(Do(w, a))
  {
    hide Sound, ThreadStep;
    StepSound(w, a);
    match a {
      case Step(hangUp, corrupted, ok, letGo) => ThreadKeeps(w, hangUp, corrupted, ok, letGo);
      case _ =>
    }
  }

  lemma OrderedWhenClosing(w: Worker)
    requires Sound(w)
    ensures w.pc == FlushAgain || w.pc == Close ==> w.killFlag
    ensures w.pc == Close && !w.failed && w.pendingOutgoing == [] ==> w.ordered <= |w.sent|
  {
  }

  lemma {:induction false} RunKeeps(w: Worker, acts: seq<Act>)
    requires Inv(w) && Orderly(w, acts)
    ensures Inv(Run(w, acts))
  {
    if acts != [] {
      RunKeeps(w, acts[..|acts| - 1]);
      StepKeeps(Run(w, acts[..|acts| - 1]), acts[|acts| - 1]);
    }
  }

  /**
   * When orders to quit are given only after exiting has been set, as finalize does: whatever the interleaving,
   * an order closes the open connection only after everything pushed before it has been sent, in order.
   */
  lemma FlushBeforeClose(acts: seq<Act>)
    requires Orderly(STARTED, acts)
    ensures var w := Run(STARTED, acts);
            && (w.closedByOrder && !w.failed ==> Flushed(w))
            && (w.pc == Close && !w.closedFd && !w.failed ==> Flushed(w))
  {
    RunKeeps(STARTED, acts);
    var w := Run(STARTED, acts);
    if (w.closedByOrder || (w.pc == Close && !w.closedFd)) && !w.failed {
      InvFlushes(w);
    }
  }

  lemma InvFlushes(w: Worker)
    requires Sound(w) && !w.failed && w.killFlag && w.ordered <= |w.sent|
    ensures Flushed(w)
  {
    assert w.pushed[..|w.sent|] == w.sent;
    assert w.pushed[..w.ordered] == w.sent[..w.ordered];
  }

  // ---------------------------------------------------------------- the guarantee is exact

  lemma {:induction false} RunAppend(w: Worker, a: seq<Act>, b: seq<Act>)
    ensures Run(w, a + b) == Run(Run(w, a), b)
  {
    hide Do;
    if b == [] {
      assert a + b == a;
    } else {
      assert (a + b)[..|a + b| - 1] == a + b[..|b| - 1];
      RunAppend(w, a, b[..|b| - 1]);
    }
  }

  lemma RunOne(w: Worker, a: Act)
    ensures Run(w, [a]) == Do(w, a)
  {
    assert [a][..0] == [];
  }

  lemma {:induction false} ExitingStays(w: Worker, acts: seq<Act>)
    requires w.exiting
    ensures Run(w, acts).exiting && Orderly(w, acts)
  {
    hide DrainStep, FlushStep;
    if acts != [] {
      ExitingStays(w, acts[..|acts| - 1]);
      DoKeepsExiting(Run(w, acts[..|acts| - 1]), acts[|acts| - 1]);
    }
  }

  lemma DoKeepsExiting(w: Worker, a: Act)
    requires w.exiting
    ensures Do(w, a).exiting
  {
    hide ThreadStep;
    match a {
      case Step(hangUp, corrupted, ok, letGo) => ThreadKeepsExiting(w, hangUp, corrupted, ok, letGo);
      case _ =>
    }
  }

  lemma ThreadKeepsExiting(w: Worker, hangUp: bool, corrupted: bool, ok: bool, letGo: bool)
    ensures ThreadStep(w, hangUp, corrupted, ok, letGo).exiting == w.exiting
  {
    hide DrainStep, FlushStep;
    match w.pc {
      case Drain => DrainKeepsExiting(w, Drain, Flush, Check);
      case Flush => FlushKeepsExiting(w, ok, Flush, Check);
      case DrainAgain => DrainKeepsExiting(w, DrainAgain, FlushAgain, Close);
      case FlushAgain => FlushKeepsExiting(w, ok, FlushAgain, Close);
      case _ =>
    }
  }

  lemma DrainKeepsExiting(w: Worker, again: Pc, next: Pc, skip: Pc)
    ensures DrainStep(w, again, next, skip).exiting == w.exiting
  {
  }

  lemma FlushKeepsExiting(w: Worker, ok: bool, again: Pc, next: Pc)
    ensures FlushStep(w, ok, again, next).exiting == w.exiting
  {
  }

  const ONWARD := Step(false, false, true, true)

  lemma StepThen(w: Worker, a: Act, more: seq<Act>)
    ensures Run(w, [a] + more) == Run(Do(w, a), more)
  {
    hide Do;
    RunAppend(w, [a], more);
    RunOne(w, a);
  }

  /** Left alone, a drain empties the queue. */
  lemma {:induction false} DrainsAlone(w: Worker, n: nat)
    requires (w.pc == Drain || w.pc == DrainAgain) && |w.queue| == n && !w.closedFd
    ensures Run(w, seq(n + 1, _ => ONWARD))
         == w.(queue := [], pendingOutgoing := w.pendingOutgoing + w.queue,
                pc := if w.pc == Drain then Flush else FlushAgain)
    decreases n
  {
    hide Run, FlushStep;
    assert seq(n + 1, _ => ONWARD) == [ONWARD] + seq(n, _ => ONWARD);
    StepThen(w, ONWARD, seq(n, _ => ONWARD));
    if n > 0 {
      DrainsAlone(Do(w, ONWARD), n - 1);
      assert w.pendingOutgoing + [w.queue[0]] + w.queue[1..] == w.pendingOutgoing + w.queue;
    } else {
      assert seq(0, _ => ONWARD) == [];
      RunNothing(Do(w, ONWARD));
      assert w.queue == [] && w.pendingOutgoing + w.queue == w.pendingOutgoing;
    }
  }

  lemma RunNothing(w: Worker)
    ensures Run(w, []) == w
  {
  }

  function Ahead(pc: Pc): nat {
    match pc
    case Exit => 8 case Poll => 7 case Drain => 6 case Flush => 5 case Check => 4
    case DrainAgain => 3 case FlushAgain => 2 case Close => 1 case Ended => 0
  }

  /** Nothing is sent any more, and the next order that is seen closes the connection. */
  ghost predicate Stuck(w: Worker) {
    w.killFlag && !w.exiting && !w.allConnected && !w.closedFd && !w.failed && w.pc != Ended
  }

  /** The worker some steps later, with its order, and with nothing more sent. */
  ghost predicate Later(w: Worker, v: Worker) {
    v.sent == w.sent && v.ordered == w.ordered && v.pushed == w.pushed && v.failed == w.failed
  }

  /** A stuck worker moves on, a step or a whole drain at a time, until its connection is closed. */
  lemma StuckStep(w: Worker) returns (acts: seq<Act>)
    requires Stuck(w) && w.pc != Close
    ensures var v := Run(w, acts); Stuck(v) && Ahead(v.pc) < Ahead(w.pc) && Later(w, v)
  {
    hide Run;
    if w.pc == Drain || w.pc == DrainAgain {
      acts := seq(|w.queue| + 1, _ => ONWARD);
      DrainsAlone(w, |w.queue|);
    } else {
      acts := [Step(false, false, true, false)];
      RunOne(w, acts[0]);
    }
  }

  lemma {:induction false} StuckCloses(w: Worker) returns (acts: seq<Act>)
    requires Stuck(w)
    ensures var v := Run(w, acts); v.closedByOrder && Later(w, v)
    decreases Ahead(w.pc)
  {
    hide Run, Stuck;
    if w.pc == Close {
      acts := [ONWARD];
      StuckFacts(w);
      RunOne(w, ONWARD);
    } else {
      var first := StuckStep(w);
      var more := StuckCloses(Run(w, first));
      RunAppend(w, first, more);
      acts := first + more;
    }
  }

  lemma StuckFacts(w: Worker)
    requires Stuck(w)
    ensures !w.closedFd && !w.failed
  {
  }

  // ---------------------------------------------------------------- exactly when the promise is kept

  /** Whatever happens next, an order that closes the connection has had everything before it sent. */
  ghost predicate AlwaysFlushed(w: Worker) {
    forall acts :: Run(w, acts).closedByOrder && !Run(w, acts).failed ==> Flushed(Run(w, acts))
  }

  lemma KeptWhenExiting(w: Worker)
    requires Sound(w) && w.exiting && w.pc != Close && !w.closedFd && !w.failed
    ensures AlwaysFlushed(w)
  {
    hide Run;
    forall acts ensures Run(w, acts).closedByOrder && !Run(w, acts).failed ==> Flushed(Run(w, acts)) {
      ExitingStays(w, acts);
      RunKeeps(w, acts);
      if Run(w, acts).closedByOrder && !Run(w, acts).failed {
        InvFlushes(Run(w, acts));
      }
    }
  }

  lemma BrokenByAShutGate(w: Worker) returns (acts: seq<Act>)
    requires w.killFlag && !w.exiting && !w.closedFd && !w.failed && w.pc != Ended && |w.sent| < w.ordered
    ensures var v := Run(w, acts); v.closedByOrder && !v.failed && !Flushed(v)
  {
    hide Run;
    var shut := Do(w, Seats(false));
    var more := StuckCloses(shut);
    StepThen(w, Seats(false), more);
    acts := [Seats(false)] + more;
  }

  /**
   * A shut gate loses jobs without any error: the job that was given before the order is taken off the queue, cannot be
   * sent, and is left behind when the order has closed the connection and the thread ends.
   */
  lemma LostBehindAShutGate(job: Job) returns (acts: seq<Act>)
    ensures var w := Run(STARTED, acts);
            w.pc == Ended && !w.failed && w.closedByOrder && w.sent == [] && w.queue == [] && w.pendingOutgoing == [job]
  {
    hide Run;
    var w := Do(Do(STARTED, Push(job)), Kill);
    RunOne(STARTED, Push(job));
    StepThen(STARTED, Push(job), [Kill]);
    RunOne(Do(STARTED, Push(job)), Kill);
    acts := [Push(job)] + [Kill];
    for i := 0 to 9
      invariant Run(STARTED, acts) == Steps(w, i)
    {
      RunAppend(STARTED, acts, [ONWARD]);
      RunOne(Run(STARTED, acts), ONWARD);
      acts := acts + [ONWARD];
    }
    NineSteps(job);
  }

  lemma NineSteps(job: Job)
    ensures var w := Do(Do(STARTED, Push(job)), Kill);
            Steps(w, 9) == w.(pc := Ended, queue := [], pendingOutgoing := [job], closedByOrder := true,
                              closedFd := true, wantToQuit := true)
  {
    hide Do;
    var w := Do(Do(STARTED, Push(job)), Kill);
    assert w == STARTED.(queue := [job], pushed := [job], killFlag := true, ordered := 1) by {
      PushThenKill(job);
    }
    FirstSteps(w, job);
    LastSteps(Steps(w, 4));
    FiveMore(w, 4);
  }

  lemma PushThenKill(job: Job)
    ensures Do(Do(STARTED, Push(job)), Kill)
         == STARTED.(queue := [job], pushed := [job], killFlag := true, ordered := 1)
  {
    assert [] + [job] == [job];
  }

  /** The job is taken off the queue, and the first flush finds the gate shut. */
  lemma FirstSteps(w: Worker, job: Job)
    requires w.pc == Poll && w.queue == [job] && w.pendingOutgoing == [] && !w.closedFd && !MaySend(w)
    requires !w.failed
    ensures Steps(w, 4) == w.(queue := [], pendingOutgoing := [job], pc := Check)
  {
    assert Steps(w, 0) == w;
    assert Steps(w, 1) == w.(pc := Drain);
    assert Steps(w, 2) == w.(queue := [], pendingOutgoing := [job], pc := Drain) by {
      assert [] + [job] == [job] && w.queue[1..] == [];
    }
    assert Steps(w, 3) == w.(queue := [], pendingOutgoing := [job], pc := Flush);
  }

  /** The second flush finds it shut as well, and the connection is closed. */
  lemma LastSteps(w: Worker)
    requires w.pc == Check && w.queue == [] && w.pendingOutgoing != [] && w.killFlag && !w.closedFd && !MaySend(w)
    requires !w.failed
    ensures Do(Do(Do(Do(Do(w, ONWARD), ONWARD), ONWARD), ONWARD), ONWARD)
         == w.(pc := Ended, closedByOrder := true, closedFd := true, wantToQuit := true)
  {
    var v := Do(Do(w, ONWARD), ONWARD);
    assert v == w.(pc := FlushAgain);
    assert Do(Do(v, ONWARD), ONWARD) == w.(pc := Exit, closedByOrder := true, closedFd := true, wantToQuit := true);
  }

  /** A message that is not understood ends the thread in the same turn, once the server lets it go. */
  lemma EndsOnBadMessage(w: Worker)
    requires w.pc == Poll && w.queue == [] && w.pendingOutgoing == [] && !w.closedFd && !w.killFlag && !w.failed
    ensures Steps(Do(w, BadMessage), 5) == w.(wantToQuit := true, pc := Ended)
  {
    var v := Do(w, BadMessage);
    assert Steps(v, 0) == v == w.(wantToQuit := true);
    assert Steps(v, 1) == v.(pc := Drain);
    assert Steps(v, 2) == v.(pc := Flush);
    assert Steps(v, 3) == v.(pc := Check);
    assert Steps(v, 4) == v.(pc := Exit);
  }

  lemma FiveMore(w: Worker, n: nat)
    ensures Steps(w, n + 5) == Do(Do(Do(Do(Do(Steps(w, n), ONWARD), ONWARD), ONWARD), ONWARD), ONWARD)
  {
    hide Do;
    assert Steps(w, n + 2) == Do(Do(Steps(w, n), ONWARD), ONWARD);
    assert Steps(w, n + 4) == Do(Do(Steps(w, n + 2), ONWARD), ONWARD);
  }

  /** The thread left to itself. */
  function Steps(w: Worker, n: nat): Worker {
    if n == 0 then w else Do(Steps(w, n - 1), ONWARD)
  }

  /**
   * The flush is owed to exiting alone: whenever a worker's order has been given and jobs from before it are unsent on
   * an open connection, the promise holds in every continuation if and only if the game is over and the flush is not
   * already behind the thread.
   */
  lemma FlushedIffExiting(before: seq<Act>)
    requires var w := Run(STARTED, before);
             w.killFlag && !w.closedFd && !w.failed && w.pc != Ended && |w.sent| < w.ordered
    ensures var w := Run(STARTED, before); AlwaysFlushed(w) <==> w.exiting && w.pc != Close
  {
    hide Run;
    var w := Run(STARTED, before);
    RunSound(before);
    if w.exiting && w.pc != Close {
      KeptWhenExiting(w);
    } else if w.exiting {
      RunOne(w, ONWARD);
      assert Run(w, [ONWARD]).closedByOrder && !Flushed(Run(w, [ONWARD]));
    } else {
      var acts := BrokenByAShutGate(w);
      assert Run(w, acts).closedByOrder && !Flushed(Run(w, acts));
    }
  }
}
