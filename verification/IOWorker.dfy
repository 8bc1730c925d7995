/** The worker's thread as an object (server/io_worker.cpp): one turn of its loop with nobody else moving. */
module IOWorker {
  import opened Jobs
  import opened W = Worker

  class IOWorker {
    const jobQueue: JobQueue
    var pendingOutgoing: seq<Job>
    var closedFd: bool
    var wantToQuit: bool
    var terminate: bool
    var sent: seq<Job>

    // what the server's lock protects
    var exiting: bool
    var allConnected: bool

    // where the thread is, and its history
    ghost var pc: Pc
    ghost var ordered: int
    ghost var closedByOrder: bool
    ghost var failed: bool

    ghost predicate Valid()
      reads this, jobQueue
    {
      && jobQueue.Valid() && (failed ==> terminate) && (terminate && !failed ==> pc == Ended)
      && (!failed ==> jobQueue.pushed == sent + pendingOutgoing + jobQueue.jobsPending)
    }

    ghost function State(): Worker
      reads this, jobQueue
    {
      W.Worker(jobQueue.jobsPending, jobQueue.killFlag, pendingOutgoing, closedFd, wantToQuit, pc, exiting,
               allConnected, sent, jobQueue.pushed, ordered, closedByOrder, failed)
    }

    constructor ()
      ensures Valid() && fresh(jobQueue) && State() == STARTED && !terminate
    {
      jobQueue := new JobQueue();
      pendingOutgoing, closedFd, wantToQuit, terminate, sent := [], false, false, false, [];
      exiting, allConnected := false, false;
      pc, ordered, closedByOrder, failed := Poll, -1, false, false;
    }

    method CloseConn()
      modifies this`closedFd, this`wantToQuit
      ensures closedFd && wantToQuit
    {
      closedFd := true;
      wantToQuit := true;
    }

    /** A callback of the server gives the worker a job. */
    method NewJob(job: Job)
      requires Valid()
      modifies jobQueue
      ensures Valid() && State() == Do(old(State()), Push(job))
    {
      ghost var queue := jobQueue.jobsPending;
      jobQueue.PushNextJob(job);
      assert sent + pendingOutgoing + (queue + [job]) == sent + pendingOutgoing + queue + [job];
    }

    /** A callback of the server orders the worker to quit. */
    method ScheduleDeath()
      requires Valid()
      modifies this`ordered, jobQueue
      ensures Valid() && State() == Do(old(State()), Kill)
    {
      if !jobQueue.killFlag {
        ordered := |jobQueue.pushed|;
      }
      jobQueue.SetKillOrder();
    }

    /**
     * What the worker would leave behind: a message that has not been handled, or a job that has been taken off the
     * queue and can still be sent.
     */
    method HasWork(pendingIncoming: bool) returns (b: bool)
      requires Valid()
      ensures closedFd ==> (b <==> pendingIncoming)
      ensures !closedFd && !failed ==> (b <==> pendingIncoming || |sent| + |jobQueue.jobsPending| < |jobQueue.pushed|)
    {
      if pendingIncoming { return true; }
      if pendingOutgoing != [] && !closedFd { return true; }
      return false;
    }

    /** The jobs that have not been sent, in order. */
    function Unsent(): seq<Job>
      reads this, jobQueue
    {
      pendingOutgoing + jobQueue.jobsPending
    }

    lemma NotFailed()
      requires Valid() && !terminate
      ensures !failed
    {
    }

    lemma NothingQueued()
      ensures jobQueue.jobsPending == [] ==> Unsent() == pendingOutgoing
    {
    }

    /** One job moves from the queue to the outgoing jobs. */
    method PopOne(again: Pc, ghost step: Act)
      requires Valid() && step.Step? && pc == again && (again == Drain || again == DrainAgain)
      requires jobQueue.jobsPending != []
      modifies this`pendingOutgoing, jobQueue
      ensures Valid() && State() == Do(old(State()), step)
      ensures Unsent() == old(Unsent())
      ensures |jobQueue.jobsPending| < |old(jobQueue.jobsPending)| && jobQueue.killFlag == old(jobQueue.killFlag)
    {
      hide Do;
      PopIs(State(), step);
      ghost var before := pendingOutgoing;
      var job := jobQueue.PopNextJob();
      pendingOutgoing := pendingOutgoing + [job.value];
      Regroup(sent, before, [job.value], jobQueue.jobsPending);
    }

    /** Jobs are popped until the queue is found empty; acts are the steps of the thread so far. */
    method PopAll(again: Pc, ghost step: Act, ghost start: Worker, ghost acts: seq<Act>) returns (ghost more: seq<Act>)
      requires Valid() && step.Step? && pc == again && (again == Drain || again == DrainAgain)
      requires State() == Run(start, acts) && Only(step, acts)
      modifies this`pendingOutgoing, jobQueue
      ensures Valid() && State() == Run(start, more) && Only(step, more)
      ensures pendingOutgoing == old(Unsent()) && jobQueue.jobsPending == []
      ensures jobQueue.killFlag == old(jobQueue.killFlag)
    {
      hide Run, Do, Only, Unsent, Valid, State;
      more := acts;
      var has := jobQueue.HasNextJob();
      while has
        invariant Valid() && State() == Run(start, more) && Only(step, more)
        invariant has <==> jobQueue.jobsPending != []
        invariant Unsent() == old(Unsent())
        invariant jobQueue.killFlag == old(jobQueue.killFlag)
        decreases |jobQueue.jobsPending|
      {
        RunSnoc(start, more, step);
        more := more + [step];
        PopOne(again, step);
        has := jobQueue.HasNextJob();
      }
      NothingQueued();
    }

    /** Moves the queue to the outgoing jobs. */
    method DrainQueue(again: Pc, next: Pc, skip: Pc, ghost step: Act, ghost start: Worker, ghost acts: seq<Act>)
        returns (ghost more: seq<Act>)
      requires Valid() && step.Step? && pc == again && State() == Run(start, acts) && Only(step, acts)
      requires (again == Drain && next == Flush && skip == Check)
               || (again == DrainAgain && next == FlushAgain && skip == Close)
      modifies this`pendingOutgoing, this`pc, jobQueue
      ensures Valid() && State() == Run(start, more) && Only(step, more) && pc == (if closedFd then skip else next)
      ensures pendingOutgoing == old(Unsent()) && jobQueue.jobsPending == []
      ensures jobQueue.killFlag == old(jobQueue.killFlag)
    {
      hide Run, Do, Only;
      more := PopAll(again, step, start, acts);
      DrainEnds(State(), step, again, next, skip);
      RunSnoc(start, more, step);
      more := more + [step];
      pc := if closedFd then skip else next;
    }

    /** One send under the server's lock. */
    method SendOne(ok: bool, again: Pc, ghost step: Act)
      requires Valid() && step.Step? && step.ok == ok && pc == again && (again == Flush || again == FlushAgain)
      requires pendingOutgoing != [] && (allConnected || exiting) && (ok ==> !closedFd)
      modifies this`pendingOutgoing, this`sent, this`closedFd, this`wantToQuit, this`terminate, this`failed
      ensures Valid() && State() == Do(old(State()), step)
      ensures pendingOutgoing == old(pendingOutgoing)[1..]
      ensures if ok then sent == old(sent) + [old(pendingOutgoing)[0]] && closedFd == old(closedFd)
              && wantToQuit == old(wantToQuit)
                         && terminate == old(terminate) && failed == old(failed)
              else sent == old(sent) && closedFd && wantToQuit && terminate && failed
    {
      hide Do;
      SendIs(State(), step);
      var job := pendingOutgoing[0];
      pendingOutgoing := pendingOutgoing[1..];
      assert old(pendingOutgoing) == [job] + pendingOutgoing;
      Regroup(sent, [job], pendingOutgoing, jobQueue.jobsPending);
      if ok {
        sent := sent + [job];
      } else {
        CloseConn();
        terminate := true;
        failed := true;
      }
    }

    /** Jobs are sent while there are any and the server allows it; after a failed send no other gets through. */
    method SendAll(ok: bool, again: Pc, ghost step: Act, ghost start: Worker, ghost acts: seq<Act>)
        returns (ghost more: seq<Act>)
      requires Valid() && step.Step? && step.ok == ok && pc == again && !closedFd && !terminate
      requires (again == Flush || again == FlushAgain) && State() == Run(start, acts) && Only(step, acts)
      modifies this`pendingOutgoing, this`sent, this`closedFd, this`wantToQuit, this`terminate, this`failed
      ensures Valid() && State() == Run(start, more) && Only(step, more)
      ensures if allConnected || exiting
              then pendingOutgoing == [] && sent == (if ok then old(sent + pendingOutgoing) else old(sent))
                   && terminate == (!ok && old(pendingOutgoing) != [])
              else pendingOutgoing == old(pendingOutgoing) && sent == old(sent) && !terminate
      ensures closedFd == terminate == failed && (wantToQuit <==> old(wantToQuit) || terminate)
    {
      hide Run, Do, Only, Valid, State;
      NotFailed();
      more := acts;
      while pendingOutgoing != [] && (allConnected || exiting)
        invariant Valid() && State() == Run(start, more) && Only(step, more)
        invariant closedFd == terminate == failed && (wantToQuit <==> old(wantToQuit) || terminate)
        invariant pendingOutgoing == old(pendingOutgoing) ==> sent == old(sent) && !terminate
        invariant pendingOutgoing != old(pendingOutgoing) ==> (allConnected || exiting) && terminate == !ok
        invariant if ok then sent + pendingOutgoing == old(sent + pendingOutgoing) else sent == old(sent)
        invariant |pendingOutgoing| <= |old(pendingOutgoing)|
        decreases |pendingOutgoing|
      {
        RunSnoc(start, more, step);
        more := more + [step];
        SendOne(ok, again, step);
      }
      assert pendingOutgoing == [] ==> sent + pendingOutgoing == sent;
    }

    method HandleQueue(ok: bool, again: Pc, next: Pc, ghost step: Act, ghost start: Worker, ghost acts: seq<Act>)
        returns (ghost more: seq<Act>)
      requires Valid() && step.Step? && step.ok == ok && pc == again && !closedFd && !terminate
      requires (again == Flush && next == Check) || (again == FlushAgain && next == Close)
      requires State() == Run(start, acts) && Only(step, acts)
      modifies this`pendingOutgoing, this`sent, this`closedFd, this`wantToQuit, this`terminate, this`failed, this`pc
      ensures Valid() && State() == Run(start, more) && Only(step, more)
              && pc == if terminate && again == Flush then Ended else next
      ensures ok || old(pendingOutgoing) == [] || !(allConnected || exiting) ==> !terminate
      ensures terminate == failed && jobQueue.jobsPending == old(jobQueue.jobsPending)
      ensures !failed ==>
                && !closedFd
                && if allConnected || exiting then pendingOutgoing == [] && sent == old(sent + pendingOutgoing)
                   else pendingOutgoing == old(pendingOutgoing) && sent == old(sent)
    {
      hide Run, Do, Only;
      more := SendAll(ok, again, step, start, acts);
      FlushEnds(State(), step, again, next);
      RunSnoc(start, more, step);
      more := more + [step];
      pc := if terminate && again == Flush then Ended else next;
    }

    /** The connection is closed because of an order. */
    method CloseAsOrdered(ghost step: Act)
      requires Valid() && pc == Close && step.Step?
      modifies this`closedByOrder, this`closedFd, this`wantToQuit, this`pc
      ensures Valid() && State() == Do(old(State()), step) && pc == Exit && closedFd && wantToQuit
    {
      CloseIs(State(), step);
      closedByOrder := closedByOrder || !closedFd;
      CloseConn();
      pc := Exit;
    }

    /** The reaction to an order to quit: a second drain and flush, and the connection is closed. */
    method ObeyOrder(ok: bool, ghost step: Act, ghost start: Worker, ghost acts: seq<Act>)
        returns (ghost more: seq<Act>)
      requires Valid() && step.Step? && step.ok == ok && pc == DrainAgain && !terminate
      requires State() == Run(start, acts) && Only(step, acts)
      modifies this`pendingOutgoing, this`sent, this`closedFd, this`wantToQuit, this`terminate, this`failed, this`pc,
               this`closedByOrder, jobQueue
      ensures Valid() && State() == Run(start, more) && Only(step, more) && pc == Exit && closedFd && wantToQuit
      ensures terminate == failed && (!failed ==> Flushed(old(sent), old(Unsent()), old(GateOpen() && !closedFd)))
    {
      hide Run, Do, Only;
      NotFailed();
      more := DrainQueue(DrainAgain, FlushAgain, Close, step, start, acts);
      if !closedFd {
        more := HandleQueue(ok, FlushAgain, Close, step, start, more);
      }
      RunSnoc(start, more, step);
      more := more + [step];
      CloseAsOrdered(step);
    }

    /** The server lets a worker send. */
    predicate GateOpen()
      reads this
    {
      allConnected || exiting
    }

    /** The queue has been emptied, and the jobs in hand have all been sent or all kept. */
    ghost predicate Flushed(before: seq<Job>, jobs: seq<Job>, through: bool)
      reads this, jobQueue
    {
      && jobQueue.jobsPending == []
      && if through then sent == before + jobs && pendingOutgoing == [] else sent == before && pendingOutgoing == jobs
    }

    /**
     * The beginning of a turn: the socket may turn out to be closed or broken, and then the turn goes on with the
     * connection closed. A peer that has exceeded the limit is reported at once, and the worker may be let go.
     */
    method Wake(hangUp: bool, corrupted: bool, letGo: bool, pendingIncoming: bool, ghost step: Act)
        returns (reported: bool)
      requires Valid() && pc == Poll && !terminate && step.Step? && step.letGo == letGo
      requires step.hangUp == hangUp && step.corrupted == corrupted
      modifies this`closedFd, this`wantToQuit, this`terminate, this`pc
      ensures Valid() && State() == Do(old(State()), step)
      ensures (pc == Drain || pc == Ended) && terminate == (pc == Ended)
      ensures var gone := (hangUp || corrupted) && !old(wantToQuit);
              && closedFd == (old(closedFd) || gone) && wantToQuit == (old(wantToQuit) || gone)
              && terminate == (gone && corrupted && letGo)
              && (gone && corrupted ==> ReportedRight(reported, pendingIncoming))
      ensures NothingLost(reported)
    {
      reported := true;
      if (hangUp || corrupted) && !wantToQuit {
        CloseConn();
        if corrupted {
          reported := HasWork(pendingIncoming);
          if letGo {
            terminate := true;
            pc := Ended;
            return;
          }
        }
      }
      pc := Drain;
    }

    /** The first part of a turn: the socket, the queue and the outgoing jobs. */
    method Work(hangUp: bool, corrupted: bool, ok: bool, letGo: bool, pendingIncoming: bool)
        returns (ghost acts: seq<Act>, reported: bool)
      requires Valid() && pc == Poll && !terminate
      modifies this`pendingOutgoing, this`sent, this`closedFd, this`wantToQuit, this`terminate, this`failed, this`pc,
               jobQueue
      ensures Valid() && (pc == Check || pc == Ended) && terminate == (pc == Ended)
      ensures State() == Run(old(State()), acts) && Only(Step(hangUp, corrupted, ok, letGo), acts)
      ensures var gone := (hangUp || corrupted) && !old(wantToQuit);
              && (terminate && !failed ==> gone && corrupted && letGo && NothingLost(reported)
                                           && ReportedRight(reported, pendingIncoming))
              && (!terminate ==> Flushed(old(sent), old(Unsent()), old(GateOpen() && !closedFd) && !gone)
                                 && closedFd == (old(closedFd) || gone))
    {
      hide Run, Do, Only;
      NotFailed();
      ghost var start, step := State(), Step(hangUp, corrupted, ok, letGo);
      acts := [];
      RunNothing(start);
      OnlyNothing(step);
      RunSnoc(start, acts, step);
      acts := acts + [step];
      reported := Wake(hangUp, corrupted, letGo, pendingIncoming, step);
      if terminate { return; }
      acts := DrainQueue(Drain, Flush, Check, step, start, acts);
      if !closedFd {
        acts := HandleQueue(ok, Flush, Check, step, start, acts);
      }
    }

    /** The reaction to an order to quit, if there is one. */
    method Obey(ok: bool, ghost step: Act, ghost start: Worker, ghost acts: seq<Act>) returns (ghost more: seq<Act>)
      requires Valid() && pc == Check && !terminate && step.Step? && step.ok == ok && jobQueue.jobsPending == []
      requires State() == Run(start, acts) && Only(step, acts)
      modifies this`pendingOutgoing, this`sent, this`closedFd, this`wantToQuit, this`terminate, this`failed, this`pc,
               this`closedByOrder, jobQueue
      ensures Valid() && State() == Run(start, more) && Only(step, more) && pc == Exit && terminate == failed
      ensures !failed ==> Flushed(old(sent), old(Unsent()), old(jobQueue.killFlag && GateOpen() && !closedFd))
    {
      hide Run, Do, Only;
      NotFailed();
      NothingQueued();
      CheckIs(State(), step);
      RunSnoc(start, acts, step);
      more := acts + [step];
      var order := jobQueue.HasKillOrder();
      if order {
        pc := DrainAgain;
        more := ObeyOrder(ok, step, start, more);
      } else {
        pc := Exit;
      }
    }

    /** A worker that wants to quit reports its exit, with what it would leave behind, and may be let go. */
    method ReportExit(pendingIncoming: bool, letGo: bool, ghost step: Act) returns (reported: bool)
      requires Valid() && pc == Exit && terminate == failed && step.Step? && step.letGo == letGo
      modifies this`terminate, this`pc
      ensures Valid() && State() == Do(old(State()), step) && (pc == Poll || pc == Ended) && terminate == (pc == Ended)
      ensures NothingLost(reported) && (wantToQuit ==> ReportedRight(reported, pendingIncoming))
      ensures terminate == (failed || (wantToQuit && letGo))
    {
      hide Do;
      ExitIs(State(), step);
      reported := false;
      if wantToQuit {
        reported := HasWork(pendingIncoming);
        if letGo {
          terminate := true;
        }
      }
      pc := if terminate then Ended else Poll;
    }

    /** Every job that has been taken off the queue has been sent. */
    ghost predicate AllSent()
      reads this, jobQueue
    {
      |jobQueue.pushed| == |sent| + |jobQueue.jobsPending|
    }

    /** What is reported: work is left if a message waits, or if a job is unsent on an open connection. */
    ghost predicate ReportedRight(reported: bool, pendingIncoming: bool)
      reads this, jobQueue
    {
      !failed ==> (reported <==> pendingIncoming || (!closedFd && !AllSent()))
    }

    /**
     * A thread that ends has sent every job it has taken if and only if nothing is outgoing, and on an open connection
     * a report of no work says just that. On a closed one it does not: what could not be sent is left behind.
     */
    ghost predicate NothingLost(reported: bool)
      reads this, jobQueue
    {
      pc == Ended && !failed ==>
        && (AllSent() <==> pendingOutgoing == [])
        && (!closedFd && !reported ==> AllSent())
    }

    /**
     * One turn of the loop, from poll to the next poll or the end, is a run of the thread's own steps; when poll has
     * timed out there is nothing to do. reported is what the exit callback has been told, if it has been called.
     * Unless a send fails or a corrupted peer is let go, the turn sends all the jobs there are or none of them: all of
     * them if and only if the gate is open and the connection is still open when the thread wakes.
     */
    method Turn(timedOut: bool, hangUp: bool, corrupted: bool, ok: bool, letGo: bool, pendingIncoming: bool)
        returns (ghost acts: seq<Act>, reported: bool)
      requires Valid() && pc == Poll && !terminate
      modifies this`pendingOutgoing, this`sent, this`closedFd, this`wantToQuit, this`terminate, this`failed, this`pc,
               this`closedByOrder, jobQueue
      ensures Valid() && (pc == Poll || pc == Ended) && terminate == (pc == Ended)
      ensures State() == Run(old(State()), acts) && Only(Step(hangUp, corrupted, ok, letGo), acts)
      ensures NothingLost(reported)
      ensures !timedOut && wantToQuit ==> ReportedRight(reported, pendingIncoming)
      ensures var gone := (hangUp || corrupted) && !old(wantToQuit);
              !timedOut && !failed && !(gone && corrupted && letGo) ==>
                Flushed(old(sent), old(Unsent()), old(GateOpen() && !closedFd) && !gone)
    {
      hide Run, Do, Only;
      NotFailed();
      ghost var step := Step(hangUp, corrupted, ok, letGo);
      acts, reported := [], true;
      RunNothing(State());
      OnlyNothing(step);
      if timedOut { return; }
      acts, reported := Work(hangUp, corrupted, ok, letGo, pendingIncoming);
      if !terminate {
        NothingQueued();
        acts := Obey(ok, step, old(State()), acts);
        RunSnoc(old(State()), acts, step);
        acts := acts + [step];
        reported := ReportExit(pendingIncoming, letGo, step);
      }
    }
  }

  lemma PopIs(w: Worker, step: Act)
    requires step.Step? && (w.pc == Drain || w.pc == DrainAgain) && w.queue != []
    ensures Do(w, step) == w.(queue := w.queue[1..], pendingOutgoing := w.pendingOutgoing + [w.queue[0]])
  {
  }

  lemma DrainEnds(w: Worker, step: Act, again: Pc, next: Pc, skip: Pc)
    requires w.queue == [] && step.Step? && w.pc == again
    requires (again == Drain && next == Flush && skip == Check)
             || (again == DrainAgain && next == FlushAgain && skip == Close)
    ensures Do(w, step) == w.(pc := if w.closedFd then skip else next)
  {
  }

  lemma SendIs(w: Worker, step: Act)
    requires step.Step? && (w.pc == Flush || w.pc == FlushAgain) && w.pendingOutgoing != [] && MaySend(w)
    ensures var w1 := w.(pendingOutgoing := w.pendingOutgoing[1..]);
            Do(w, step) == if step.ok && !w.closedFd then w1.(sent := w.sent + [w.pendingOutgoing[0]])
                           else w1.(failed := true, closedFd := true, wantToQuit := true)
  {
  }

  lemma FlushEnds(w: Worker, step: Act, again: Pc, next: Pc)
    requires (w.pendingOutgoing == [] || !MaySend(w)) && step.Step? && w.pc == again
    requires (again == Flush && next == Check) || (again == FlushAgain && next == Close)
    ensures Do(w, step) == w.(pc := if again == Flush && w.failed then Ended else next)
  {
  }

  lemma CheckIs(w: Worker, step: Act)
    requires w.pc == Check && step.Step?
    ensures Do(w, step) == w.(pc := if w.killFlag then DrainAgain else Exit)
  {
  }

  lemma CloseIs(w: Worker, step: Act)
    requires w.pc == Close && step.Step?
    ensures Do(w, step) == w.(closedByOrder := w.closedByOrder || !w.closedFd, closedFd := true, wantToQuit := true,
            pc := Exit)
  {
  }

  lemma ExitIs(w: Worker, step: Act)
    requires w.pc == Exit && step.Step?
    ensures Do(w, step) == w.(pc := if (w.wantToQuit && step.letGo) || w.failed then Ended else Poll)
  {
  }

  /** Nobody but the thread itself has moved. */
  ghost predicate Only(step: Act, acts: seq<Act>) {
    forall a :: a in acts ==> a == step
  }

  lemma OnlyNothing(step: Act)
    ensures Only(step, [])
  {
  }

  lemma RunSnoc(w: Worker, acts: seq<Act>, a: Act)
    ensures Run(w, acts + [a]) == Do(Run(w, acts), a)
    ensures Only(a, acts) ==> Only(a, acts + [a])
  {
    assert (acts + [a])[..|acts|] == acts;
  }
}
