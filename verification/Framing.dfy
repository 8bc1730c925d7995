/** Cutting a connection's bytes into messages and handing them on one at a time (server/io_worker_handler.cpp). */
module Framing {
  import opened Cards
  import opened Jobs
  import opened Wire
  import opened Grammar
  import opened Parser
  import opened Printer
  import opened Reading
  import opened Stream

  const MAX_PARSE_LEN := 1000

  // ---------------------------------------------------------------- separators

  /** The separator occurs nowhere in the text. */
  predicate NoBreak(s: string) {
    forall i :: 0 <= i < |s| - 1 ==> !(s[i] == '\r' && s[i + 1] == '\n')
  }

  /** A message that contains no separator of its own. */
  predicate Clean(m: string) {
    NoBreak(m + "\r")
  }

  /** A message that the handler takes: with its separator it fits into the limit. */
  predicate Fits(m: string) {
    |m| <= MAX_PARSE_LEN - 2
  }

  ghost predicate AllClean(ms: seq<string>) {
    forall m :: m in ms ==> Clean(m)
  }

  ghost predicate AllFit(ms: seq<string>) {
    forall m :: m in ms ==> Fits(m)
  }

  lemma CleanBreaksAtItsEnd(m: string, more: string)
    requires Clean(m)
    ensures var s := m + SEPARATOR + more;
            && s[|m|] == '\r' && s[|m| + 1] == '\n'
            && forall i :: 0 <= i < |m| ==> !(s[i] == '\r' && s[i + 1] == '\n')
  {
    var s := m + SEPARATOR + more;
    forall i | 0 <= i < |m| ensures !(s[i] == '\r' && s[i + 1] == '\n') {
      assert s[i] == (m + "\r")[i] && s[i + 1] == (m + "\r")[i + 1];
    }
  }

  /** Two messages that begin the same stream are the same message. */
  lemma SameMessage(m: string, x: string, n: string, y: string)
    requires Clean(m) && Clean(n) && m + SEPARATOR + x == n + SEPARATOR + y
    ensures m == n && x == y
  {
    CleanBreaksAtItsEnd(m, x);
    CleanBreaksAtItsEnd(n, y);
    var s := m + SEPARATOR + x;
    assert |m| == |n|;
    assert m == s[..|m|] == n;
    assert x == s[|m| + 2..] == y;
  }

  lemma JoinFirst(ms: seq<string>, rest: string)
    requires ms != []
    ensures Join(ms) + rest == ms[0] + SEPARATOR + (Join(ms[1..]) + rest)
  {
    Regroup(ms[0], SEPARATOR, Join(ms[1..]), rest);
  }

  /** The first message cut off a stream is the first message of the stream. */
  lemma CutOff(m: string, more: string, ms: seq<string>, rest: string)
    requires Clean(m) && AllClean(ms) && NoBreak(rest)
    requires m + SEPARATOR + more == Join(ms) + rest
    ensures ms != [] && ms[0] == m && more == Join(ms[1..]) + rest
  {
    CleanBreaksAtItsEnd(m, more);
    assert ms == [] ==> Join(ms) + rest == rest;
    if ms != [] {
      JoinFirst(ms, rest);
      SameMessage(m, more, ms[0], Join(ms[1..]) + rest);
    }
  }

  /** Bytes without a separator do not reach the end of the first message, so they are few. */
  lemma NotYetCut(next: string, more: string, ms: seq<string>, rest: string)
    requires NoBreak(next) && AllClean(ms)
    requires next + more == Join(ms) + rest
    ensures ms != [] ==> more != "" && |next| <= |ms[0]| + 1
    ensures ms == [] ==> next + more == rest
  {
    if ms != [] {
      JoinFirst(ms, rest);
      CleanBreaksAtItsEnd(ms[0], Join(ms[1..]) + rest);
      var s := next + more;
      assert s[|ms[0]|] == '\r' && s[|ms[0]| + 1] == '\n';
      assert next == s[..|next|];
      assert |next| <= |ms[0]| + 1;
    } else {
      assert next + more == rest;
    }
  }

  // ---------------------------------------------------------------- the handler

  /** What recv reports once the bytes that have arrived are used up. */
  datatype Ending = Open | Closed | Failed

  /** The callback that a message leads to. */
  datatype Call = Invalid | Handle(job: Job)

  ghost predicate CallsFor(m: string, call: Call) {
    match call
    case Invalid => forall w :: !Reads(w, m, true)
    case Handle(job) => exists w :: Reads(w, m, true) && Meaning(w) == job
  }

  class IOWorkerHandler {
    // the bytes that have arrived and have not been read, and what comes after them
    var socket: string
    var ending: Ending

    var nextIncoming: string
    var pendingIncoming: seq<string>
    var closedFd: bool
    var wantToQuit: bool
    var peerCorrupted: bool
    var terminate: bool

    ghost var received: string
    ghost var finished: seq<string>

    /** The bytes read so far: the finished messages, at most one waiting message, the beginning of the next. */
    ghost predicate Valid()
      reads this
    {
      && received == Join(finished) + Join(pendingIncoming) + nextIncoming
      && |pendingIncoming| <= 1 && (pendingIncoming != [] ==> nextIncoming == "" && !peerCorrupted)
      && AllClean(finished) && AllFit(finished) && AllClean(pendingIncoming) && AllFit(pendingIncoming)
      && (closedFd ==> wantToQuit)
      && NextFits(nextIncoming, peerCorrupted)
      && (peerCorrupted ==> closedFd)
    }

    constructor ()
      ensures Valid() && socket == "" && ending == Open && received == "" && finished == []
      ensures nextIncoming == "" && pendingIncoming == [] && !closedFd && !wantToQuit && !peerCorrupted && !terminate
    {
      socket, ending, nextIncoming, pendingIncoming := "", Open, "", [];
      closedFd, wantToQuit, peerCorrupted, terminate := false, false, false, false;
      received, finished := "", [];
    }

    /** The bytes that are still to be handled, as far as they have arrived. */
    function Unhandled(): string
      reads this
    {
      Join(pendingIncoming) + nextIncoming + socket
    }

    method CloseConn()
      modifies this`closedFd, this`wantToQuit
      ensures closedFd && wantToQuit
    {
      closedFd := true;
      wantToQuit := true;
    }

    /** One byte: 1 with a byte, 0 at the end of the stream, -1 when there is nothing yet, -2 on an error. */
    method Recv() returns (readRes: int, c: char)
      modifies this`socket, this`received
      ensures old(socket) != "" ==> readRes == 1 && old(socket) == [c] + socket && received == old(received) + [c]
      ensures old(socket) == "" ==> readRes == (match ending case Open => -1 case Closed => 0 case Failed => -2)
      ensures old(socket) == "" ==> socket == "" && received == old(received)
    {
      c := ' ';
      if socket != "" {
        readRes, c, socket := 1, socket[0], socket[1..];
        received := received + [c];
      } else {
        readRes := match ending case Open => -1 case Closed => 0 case Failed => -2;
      }
    }

    /** A byte is added to the unfinished message, which it may complete. */
    method TakeByte(c: char) returns (over: bool)
      requires received == Join(finished) + Join(pendingIncoming) + nextIncoming + [c] && pendingIncoming == []
      requires AllClean(finished) && AllFit(finished) && !peerCorrupted && !closedFd && NextFits(nextIncoming, false)
      modifies this`nextIncoming, this`pendingIncoming, this`closedFd, this`wantToQuit, this`peerCorrupted
      ensures Valid() && over == peerCorrupted
      ensures Join(pendingIncoming) + nextIncoming == old(nextIncoming) + [c]
      ensures if over then closedFd && wantToQuit && pendingIncoming == []
              else closedFd == old(closedFd) && wantToQuit == old(wantToQuit)
    {
      hide Join, Clean, NoBreak;
      OneMore(nextIncoming, c);
      JoinNothing();
      nextIncoming := nextIncoming + [c];
      if |nextIncoming| > MAX_PARSE_LEN {
        peerCorrupted := true;
        CloseConn();
        return true;
      }
      if c == '\n' && |nextIncoming| > 1 && nextIncoming[|nextIncoming| - 2] == '\r' {
        var m := nextIncoming[..|nextIncoming| - 2];
        JoinOne(m);
        assert m == old(nextIncoming)[..|old(nextIncoming)| - 1];
        assert nextIncoming == m + SEPARATOR;
        pendingIncoming := pendingIncoming + [m];
        nextIncoming := "";
        assert pendingIncoming == [m];
        assert received == Join(finished) + (m + SEPARATOR);
      }
      return false;
    }

    /** Reads until a message is complete, the limit is exceeded or nothing is left. */
    method ReadBytes()
      requires Valid() && !wantToQuit
      modifies this`socket, this`received, this`nextIncoming, this`pendingIncoming, this`closedFd, this`wantToQuit,
               this`peerCorrupted
      ensures Valid() && Unhandled() == old(Unhandled()) && received + socket == old(received + socket)
      ensures old(pendingIncoming) != [] ==> pendingIncoming == old(pendingIncoming) && !wantToQuit
      ensures pendingIncoming == [] && !peerCorrupted ==> socket == ""
      ensures wantToQuit ==> closedFd && (peerCorrupted || ending != Open)
      ensures peerCorrupted ==> pendingIncoming == []
      // the end of the stream is noticed when nothing waits
      ensures pendingIncoming == [] && ending != Open ==> wantToQuit
    {
      hide Join, AllClean, AllFit, NextFits;
      var readRes := 1;
      NotCorrupted();
      while readRes == 1 && pendingIncoming == []
        invariant Valid() && Unhandled() == old(Unhandled()) && received + socket == old(received + socket)
        invariant !wantToQuit && !peerCorrupted
        invariant readRes != 1 ==> socket == ""
        invariant old(pendingIncoming) != [] ==> pendingIncoming == old(pendingIncoming) && readRes == 1
        invariant readRes == 0 || readRes == -2 ==> ending != Open
        invariant -2 <= readRes <= 1 && (readRes == -1 ==> ending == Open)
        decreases |socket|, readRes
      {
        var c;
        JoinNothing();
        readRes, c := Recv();
        if readRes == 1 {
          var over := TakeByte(c);
          if over { break; }
        }
      }
      if readRes == -2 || readRes == 0 {
        CloseConn();
      }
    }

    /** The waiting message is done with. */
    method Pop()
      requires Valid() && pendingIncoming != []
      modifies this`pendingIncoming, this`finished
      ensures Valid() && pendingIncoming == [] && finished == old(finished) + old(pendingIncoming)
    {
      hide Join, Clean, Fits;
      JoinSnoc(finished, pendingIncoming[0]);
      JoinOne(pendingIncoming[0]);
      JoinNothing();
      assert pendingIncoming == [pendingIncoming[0]];
      finished := finished + [pendingIncoming[0]];
      pendingIncoming := pendingIncoming[1..];
    }

    /** Parses the waiting message and calls the server; accept is the server's answer. */
    method Dispatch(accept: bool) returns (calls: seq<Call>)
      requires Valid()
      modifies this`pendingIncoming, this`finished, this`wantToQuit
      ensures Valid() && |calls| == |old(pendingIncoming)|
      ensures calls != [] ==> CallsFor(old(pendingIncoming)[0], calls[0])
      ensures if accept then pendingIncoming == [] && finished == old(finished) + old(pendingIncoming)
              else pendingIncoming == old(pendingIncoming) && finished == old(finished)
      ensures wantToQuit == (old(wantToQuit) || (accept && calls != [] && calls[0].Invalid?))
    {
      hide Join, AllClean, AllFit, NextFits, CallsFor;
      calls := [];
      while pendingIncoming != []
        invariant Valid() && wantToQuit == old(wantToQuit)
        invariant calls == [] ==> pendingIncoming == old(pendingIncoming) && finished == old(finished)
        invariant calls != [] ==> && accept && |calls| == |old(pendingIncoming)| && pendingIncoming == []
                                  && finished == old(finished) + old(pendingIncoming)
                                  && CallsFor(old(pendingIncoming)[0], calls[0]) && !calls[0].Invalid?
        decreases |pendingIncoming|
      {
        var call := CallOf(pendingIncoming[0]);
        calls := calls + [call];
        if call.Invalid? {
          if accept {
            wantToQuit := true;
            Pop();
          }
          break;
        }
        if accept {
          Pop();
        } else {
          break;
        }
      }
    }

    /** The socket or the queue has something for the handler. */
    method SocketAction(accept: bool, granted: bool) returns (calls: seq<Call>)
      requires Valid()
      modifies this
      ensures Valid() && received + socket == old(received + socket) && ending == old(ending)
      // a handler that wants to quit does nothing any more
      ensures old(wantToQuit) ==>
                && wantToQuit && calls == [] && Unhandled() == old(Unhandled())
                && finished == old(finished) && peerCorrupted == old(peerCorrupted)
      // at most one message is finished, the first one
      ensures |calls| <= 1
      ensures if accept && calls != []
              then |finished| == |old(finished)| + 1 && finished[..|old(finished)|] == old(finished)
                   && CallsFor(finished[|old(finished)|], calls[0])
                   && old(Unhandled()) == finished[|old(finished)|] + SEPARATOR + Unhandled()
              else finished == old(finished) && Unhandled() == old(Unhandled())
      // nothing is left lying
      ensures !old(wantToQuit) && calls == [] && !peerCorrupted ==> Unhandled() == nextIncoming
      ensures calls != [] ==> !peerCorrupted
      // the reasons to quit
      ensures wantToQuit ==> old(wantToQuit) || peerCorrupted || ending != Open || (accept && calls == [Invalid])
      ensures accept && calls == [Invalid] ==> wantToQuit
      ensures calls == [] && ending != Open ==> wantToQuit
      // who hangs up, and who is let go
      ensures peerCorrupted || (!old(wantToQuit) && calls == [] && ending != Open) ==> closedFd
      ensures closedFd ==> old(closedFd) || peerCorrupted || ending != Open
      ensures terminate <==> old(terminate) || (!old(wantToQuit) && peerCorrupted && granted)
    {
      hide Join, AllClean, AllFit, NextFits, CallsFor;
      calls := [];
      if wantToQuit { return; }
      NotCorrupted();
      JoinNothing();
      if !closedFd {
        ReadBytes();
      }
      if pendingIncoming != [] {
        JoinOne(pendingIncoming[0]);
        assert pendingIncoming == [pendingIncoming[0]];
        assert finished + pendingIncoming == finished + [pendingIncoming[0]];
      }
      calls := Dispatch(accept);
      if peerCorrupted {
        if granted {
          terminate := true;
        }
      }
    }

    /** More bytes arrive and the handler is called; done are the calls that have been accepted. */
    method Step(bytes: string, accept: bool, ghost later: string, ghost ms: seq<string>, ghost tail: string)
        returns (done: seq<Call>)
      requires Valid() && ending == Open && Ahead(finished, Unhandled() + bytes + later, ms, tail)
      requires Standing(finished, wantToQuit, ms, tail)
      modifies this
      ensures Valid() && ending == Open && Ahead(finished, Unhandled() + later, ms, tail)
      ensures Standing(finished, wantToQuit, ms, tail)
      ensures old(finished) <= finished && Answers(finished, |old(finished)|, done)
      ensures |finished| <= |ms| && (old(wantToQuit) ==> wantToQuit)
      ensures accept && later == "" && !old(wantToQuit) ==>
                || wantToQuit || |finished| == |old(finished)| + 1
                || (|finished| == |ms| && |tail| <= MAX_PARSE_LEN)
    {
      hide Join, AllClean, AllFit, CallsFor, NoBreak, Ahead, Standing, NextFits;
      socket := socket + bytes;
      ghost var before, was, quit := Unhandled(), finished, wantToQuit;
      assert before == old(Unhandled()) + bytes;
      NotCorruptedYet();
      var calls := SocketAction(accept, false);
      done := if accept then calls else [];
      InHand();
      Stepped(was, quit, finished, wantToQuit, done, peerCorrupted, before, Unhandled(), nextIncoming, socket, later,
              ms, tail);
      if calls == [] && !wantToQuit && later == "" {
        LastStep(finished, nextIncoming, ms, tail);
      }
    }

    lemma InHand()
      requires Valid()
      ensures AllClean(finished) && AllFit(finished) && NextFits(nextIncoming, peerCorrupted)
      ensures peerCorrupted ==> wantToQuit && Unhandled() == nextIncoming + socket
    {
      JoinNothing();
    }

    /**
     * However the stream is cut into pieces and whatever callbacks are refused: the handler finishes the messages of
     * the stream in their order, each after the callback that it asks for has been accepted. Once it is let, it gets as
     * far as the first message that does not fit, or past the first that is not understood; so it finishes them all if
     * and only if each fits and all but the last are understood.
     */
    method Serve(arrivals: seq<(string, bool)>, extra: nat, ghost ms: seq<string>, ghost tail: string)
        returns (handled: seq<Call>)
      requires Valid() && ending == Open && !wantToQuit && finished == [] && Unhandled() == ""
      requires AllClean(ms) && NoBreak(tail) && Bytes(arrivals) == Join(ms) + tail
      modifies this
      ensures Valid() && finished <= ms && |finished| <= Reach(ms)
      ensures |handled| == |finished| && forall i :: 0 <= i < |finished| ==> CallsFor(finished[i], handled[i])
      ensures Fine(ms, tail) ==> !peerCorrupted && !wantToQuit
      ensures extra >= |ms| ==> |finished| == Reach(ms)
      ensures extra >= |ms| ==> (finished == ms <==> AllFit(ms) && forall i :: 0 <= i < |ms| - 1 ==> Understood(ms[i]))
      ensures extra > |ms| ==> (wantToQuit <==> !Fine(ms, tail))
    {
      hide Join, AllClean, NoBreak, Fine, Standing, Reach, CallsFor, AllFit, Answers;
      Beginning(ms, tail);
      handled := [];
      NothingAnswered();
      assert arrivals[0..] == arrivals && Unhandled() + Bytes(arrivals) == Bytes(arrivals);
      for i := 0 to |arrivals|
        invariant Valid() && ending == Open && Ahead(finished, Unhandled() + Bytes(arrivals[i..]), ms, tail)
        invariant Standing(finished, wantToQuit, ms, tail) && Answers(finished, 0, handled)
      {
        assert arrivals[i..][1..] == arrivals[i + 1..];
        var u := Unhandled();
        assert u + (arrivals[i].0 + Bytes(arrivals[i + 1..])) == u + arrivals[i].0 + Bytes(arrivals[i + 1..]);
        ghost var was := finished;
        var done := Step(arrivals[i].0, arrivals[i].1, Bytes(arrivals[i + 1..]), ms, tail);
        MoreAnswers(was, handled, finished, done);
        handled := handled + done;
      }
      NoMoreBytes(arrivals);
      for j := 0 to extra
        invariant Valid() && ending == Open && Ahead(finished, Unhandled() + "", ms, tail)
        invariant Standing(finished, wantToQuit, ms, tail) && Answers(finished, 0, handled)
        invariant wantToQuit || |finished| >= j || (|finished| == |ms| && |tail| <= MAX_PARSE_LEN)
      {
        var u := Unhandled();
        assert u + "" + "" == u + "";
        ghost var was := finished;
        var done := Step("", true, "", ms, tail);
        MoreAnswers(was, handled, finished, done);
        handled := handled + done;
      }
      Reached(finished, wantToQuit, ms, tail);
      ReachesAll(ms);
      AllAnswered(finished, handled);
    }

    lemma NotCorruptedYet()
      requires Valid()
      ensures peerCorrupted ==> wantToQuit
    {
    }

    lemma NotCorrupted()
      requires Valid() && !wantToQuit
      ensures !peerCorrupted && !closedFd
    {
    }
  }

  /** What a message asks for: an introduction, a move, or nothing the server understands. */
  method CallOf(msg: string) returns (call: Call)
    ensures CallsFor(msg, call)
  {
    hide Text, Valid;
    var parsed := ParseNetMsg(msg, true);
    if parsed == [] {
      return Invalid;
    }
    ghost var w :| Reads(w, msg, true);
    ServerFields(w);
    if parsed[0].1 == "IAM" {
      var s := SideOf(parsed[1].1[0]).value;
      call := Handle(Intro(s));
    } else if parsed[0].1 == "TRICK_C" {
      var trickNo := Val(parsed[1].1);
      var c := CardFromString(parsed[2].1).value;
      call := Handle(Trick([c], trickNo));
    } else {
      assert false;
    }
  }

  lemma ServerFields(w: Wire)
    requires Valid(w) && ForServer(w)
    ensures var fs := Fields(w);
            && |fs| >= 2 && (fs[0].1 == "IAM" <==> w.WIam?) && (fs[0].1 == "TRICK_C" <==> w.WMove?)
            && (w.WIam? ==> fs[1].1 != "" && SideOf(fs[1].1[0]) == Some(w.side))
            && (w.WMove? ==> |fs| == 3 && Val(fs[1].1) == w.no && CardFromString(fs[2].1) == Some(w.card))
  {
    hide NoText, Val, Code, CardFromString, SideOf, SideChar;
    if w.WIam? {
      SideOfSideChar(w.side);
    } else {
      ValOfNoText(w.no);
      CardTextIsRead(w.card);
    }
  }

  /** The unfinished message is short, unless the limit has just been exceeded. */
  predicate NextFits(next: string, corrupted: bool) {
    if corrupted then |next| == MAX_PARSE_LEN + 1 && NoBreak(next[..MAX_PARSE_LEN])
      else |next| <= MAX_PARSE_LEN && NoBreak(next)
  }

  lemma JoinNothing()
    ensures Join([]) == ""
  {
  }

  /** One more byte exceeds the limit, completes a message or leaves the message unfinished. */
  lemma OneMore(next: string, c: char)
    requires NextFits(next, false)
    ensures |next| == MAX_PARSE_LEN ==> NextFits(next + [c], true)
    ensures next != "" && next[|next| - 1] == '\r' && c == '\n' && |next| < MAX_PARSE_LEN ==>
              Clean(next[..|next| - 1]) && Fits(next[..|next| - 1])
    ensures !(next != "" && next[|next| - 1] == '\r' && c == '\n') && |next| < MAX_PARSE_LEN ==>
            NextFits(next + [c], false)
    ensures NextFits("", false)
  {
    assert |next| == MAX_PARSE_LEN ==> (next + [c])[..MAX_PARSE_LEN] == next;
    if next != "" && next[|next| - 1] == '\r' {
      assert next[..|next| - 1] + "\r" == next;
    }
  }

  // ---------------------------------------------------------------- whole streams

  /** The bytes that arrive, piece by piece. */
  function Bytes(arrivals: seq<(string, bool)>): string {
    if arrivals == [] then "" else arrivals[0].0 + Bytes(arrivals[1..])
  }

  lemma NoMoreBytes(arrivals: seq<(string, bool)>)
    ensures Bytes(arrivals[|arrivals|..]) == ""
  {
  }

  /** The finished messages are the first of the stream, and what is still to come are the others. */
  ghost predicate Ahead(finished: seq<string>, bytes: string, ms: seq<string>, tail: string) {
    finished <= ms && AllClean(ms) && NoBreak(tail) && bytes == Join(ms[|finished|..]) + tail
  }

  /** Nothing in the stream makes the handler hang up. */
  ghost predicate Fine(ms: seq<string>, tail: string) {
    AllFit(ms) && |tail| <= MAX_PARSE_LEN && forall i :: 0 <= i < |ms| ==> Understood(ms[i])
  }

  ghost predicate Understood(m: string) {
    exists w :: Reads(w, m, true)
  }

  lemma Beginning(ms: seq<string>, tail: string)
    requires AllClean(ms) && NoBreak(tail)
    ensures Ahead([], Join(ms) + tail, ms, tail) && Standing([], false, ms, tail)
  {
    assert ms[0..] == ms;
  }

  lemma NoFurther(finished: seq<string>, bytes: string, ms: seq<string>, tail: string)
    requires Ahead(finished, bytes, ms, tail)
    ensures finished <= ms
  {
  }

  lemma CleanRest(ms: seq<string>, k: nat)
    requires AllClean(ms) && k <= |ms|
    ensures AllClean(ms[k..])
  {
  }

  lemma MessageDone(done: seq<string>, finished: seq<string>, before: string, after: string, later: string,
      ms: seq<string>, tail: string)
    requires Ahead(done, before + later, ms, tail)
    requires |finished| == |done| + 1 && finished[..|done|] == done && AllClean(finished)
    requires before == finished[|done|] + SEPARATOR + after
    ensures |done| < |ms| && finished[|done|] == ms[|done|] && Ahead(finished, after + later, ms, tail)
  {
    hide Join, NoBreak, Clean;
    var m, k := finished[|done|], |done|;
    CleanRest(ms, k);
    assert m in finished;
    assert before + later == m + SEPARATOR + (after + later);
    CutOff(m, after + later, ms[k..], tail);
    assert ms[k..][1..] == ms[k + 1..];
    assert finished == done + [m];
  }

  /** The limit is exceeded only by a message that does not fit, or by a long unfinished one. */
  lemma Overlong(finished: seq<string>, next: string, more: string, ms: seq<string>, tail: string)
    requires |next| == MAX_PARSE_LEN && NoBreak(next) && more != "" && Ahead(finished, next + more, ms, tail)
    ensures if |finished| < |ms| then !Fits(ms[|finished|]) else |tail| > MAX_PARSE_LEN
  {
    hide Join, NoBreak, Clean;
    var k := |finished|;
    CleanRest(ms, k);
    NotYetCut(next, more, ms[k..], tail);
    if k == |ms| {
      assert next + more == tail;
    }
  }

  /** When no bytes are left but an unfinished message, every message has been finished. */
  lemma AllDone(finished: seq<string>, next: string, ms: seq<string>, tail: string)
    requires NoBreak(next) && Ahead(finished, next + "", ms, tail)
    ensures |finished| == |ms| && next == tail
  {
    hide Join, NoBreak, Clean;
    CleanRest(ms, |finished|);
    NotYetCut(next, "", ms[|finished|..], tail);
    assert next + "" == next;
  }

  /** One call of the handler: it stays ahead of the stream, and where it stands is as it should be. */
  lemma Stepped(was: seq<string>, wasQuit: bool, finished: seq<string>, quit: bool, done: seq<Call>, corrupted: bool,
      before: string, after: string, next: string, socket: string, later: string, ms: seq<string>, tail: string)
    requires Ahead(was, before + later, ms, tail) && Standing(was, wasQuit, ms, tail)
    requires AllClean(finished) && AllFit(finished) && NextFits(next, corrupted)
    requires wasQuit ==> quit && done == []
    requires corrupted ==> quit && done == [] && after == next + socket
    requires !wasQuit && !corrupted ==> (quit <==> done == [Invalid])
    requires |done| <= 1
    requires if done != []
             then |finished| == |was| + 1 && finished[..|was|] == was && CallsFor(finished[|was|], done[0])
                  && before == finished[|was|] + SEPARATOR + after
             else finished == was && before == after
    ensures Ahead(finished, after + later, ms, tail) && Standing(finished, quit, ms, tail)
    ensures was <= finished && Answers(finished, |was|, done) && |finished| <= |ms|
  {
    hide Join, AllClean, AllFit, CallsFor, NoBreak, Ahead, Standing;
    NoFurther(was, before + later, ms, tail);
    if done != [] {
      MessageDone(was, finished, before, after, later, ms, tail);
      StandsFurther(was, finished, done[0], ms, tail);
    } else if corrupted && !wasQuit {
      assert after + later == next[..MAX_PARSE_LEN] + (next[MAX_PARSE_LEN..] + socket + later) by {
        assert next == next[..MAX_PARSE_LEN] + next[MAX_PARSE_LEN..];
      }
      Overlong(finished, next[..MAX_PARSE_LEN], next[MAX_PARSE_LEN..] + socket + later, ms, tail);
      StandsStill(finished, ms, tail);
    }
    NoFurther(finished, after + later, ms, tail);
  }

  lemma LastStep(finished: seq<string>, next: string, ms: seq<string>, tail: string)
    requires NextFits(next, false) && Ahead(finished, next + "", ms, tail)
    ensures |finished| == |ms| && |tail| <= MAX_PARSE_LEN
  {
    hide NoBreak, Ahead;
    AllDone(finished, next, ms, tail);
  }

  // ---------------------------------------------------------------- how far the handler gets

  /** The number of messages that are finished in the end: up to one that does not fit or past one not understood. */
  ghost function Reach(ms: seq<string>): nat {
    if ms == [] || !Fits(ms[0]) then 0
    else if !Understood(ms[0]) then 1
    else 1 + Reach(ms[1..])
  }

  /** Why a handler has stopped. */
  ghost predicate Stopped(finished: seq<string>, ms: seq<string>, tail: string) {
    || (finished != [] && !Understood(finished[|finished| - 1]))
    || (|finished| < |ms| && !Fits(ms[|finished|]))
    || (|finished| == |ms| && |tail| > MAX_PARSE_LEN)
  }

  /** Every finished message is understood, except perhaps the one that has made the handler quit. */
  ghost predicate Standing(finished: seq<string>, quit: bool, ms: seq<string>, tail: string) {
    && AllFit(finished)
    && (forall i :: 0 <= i < |finished| - 1 ==> Understood(finished[i]))
    && (if quit then Stopped(finished, ms, tail)
        else finished != [] ==> Understood(finished[|finished| - 1]))
  }

  lemma StandsFurther(was: seq<string>, finished: seq<string>, call: Call, ms: seq<string>, tail: string)
    requires Standing(was, false, ms, tail) && |finished| == |was| + 1 && finished[..|was|] == was && AllFit(finished)
    requires CallsFor(finished[|was|], call)
    ensures Standing(finished, call.Invalid?, ms, tail)
  {
    forall i | 0 <= i < |finished| - 1 ensures Understood(finished[i]) {
      assert finished[i] == was[i];
    }
  }

  lemma StandsStill(finished: seq<string>, ms: seq<string>, tail: string)
    requires Standing(finished, false, ms, tail) && |finished| <= |ms|
    requires if |finished| < |ms| then !Fits(ms[|finished|]) else |tail| > MAX_PARSE_LEN
    ensures Standing(finished, true, ms, tail)
  {
  }

  /** A handler that stands gets no further than it can, and has got there when it has stopped. */
  lemma {:induction false} StandingReach(finished: seq<string>, quit: bool, ms: seq<string>, tail: string)
    requires finished <= ms && Standing(finished, quit, ms, tail)
    ensures |finished| <= Reach(ms) && (quit ==> |finished| == Reach(ms))
  {
    if finished != [] {
      assert ms[0] == finished[0] && finished[0] in finished;
      if Understood(ms[0]) {
        var rest := finished[1..];
        assert forall i :: 0 <= i < |rest| ==> rest[i] == finished[i + 1];
        assert forall i :: 0 <= i < |ms[1..]| ==> ms[1..][i] == ms[i + 1];
        assert AllFit(rest);
        StandingReach(rest, quit, ms[1..], tail);
      }
    }
  }

  lemma {:induction false} ReachesAll(ms: seq<string>)
    ensures Reach(ms) <= |ms|
    ensures Reach(ms) == |ms| <==> AllFit(ms) && forall i :: 0 <= i < |ms| - 1 ==> Understood(ms[i])
  {
    if ms != [] {
      var rest := ms[1..];
      ReachesAll(rest);
      assert forall i :: 0 <= i < |rest| ==> rest[i] == ms[i + 1];
      assert AllFit(ms) <==> Fits(ms[0]) && AllFit(rest) by {
        assert forall m :: m in ms <==> m == ms[0] || m in rest;
      }
    }
  }

  lemma StoppedIsNotFine(finished: seq<string>, ms: seq<string>, tail: string)
    requires finished <= ms && Stopped(finished, ms, tail)
    ensures !Fine(ms, tail)
  {
    if |finished| < |ms| {
      assert ms[|finished|] in ms;
    }
  }

  lemma FineReach(ms: seq<string>, tail: string)
    requires Fine(ms, tail)
    ensures Reach(ms) == |ms|
  {
    ReachesAll(ms);
  }

  /** Where the handler stands when nothing more arrives, and why. */
  lemma Reached(finished: seq<string>, quit: bool, ms: seq<string>, tail: string)
    requires finished <= ms && Standing(finished, quit, ms, tail)
    ensures |finished| <= Reach(ms)
    ensures Fine(ms, tail) ==> !quit
    ensures quit || |finished| >= |ms| ==> |finished| == Reach(ms)
    ensures !quit && |finished| == |ms| && |tail| <= MAX_PARSE_LEN ==> Fine(ms, tail)
  {
    StandingReach(finished, quit, ms, tail);
    ReachesAll(ms);
    if quit {
      StoppedIsNotFine(finished, ms, tail);
    }
  }

  // ---------------------------------------------------------------- the calls

  /** The accepted calls are those that the messages from number k on ask for. */
  ghost predicate Answers(finished: seq<string>, k: nat, done: seq<Call>) {
    && |finished| == k + |done|
    && forall i :: 0 <= i < |done| ==> CallsFor(finished[k + i], done[i])
  }

  lemma MoreAnswers(was: seq<string>, handled: seq<Call>, finished: seq<string>, done: seq<Call>)
    requires Answers(was, 0, handled) && was <= finished && Answers(finished, |was|, done)
    ensures Answers(finished, 0, handled + done)
  {
    hide CallsFor;
    forall i | 0 <= i < |handled + done| ensures CallsFor(finished[0 + i], (handled + done)[i]) {
      if i < |handled| {
        assert finished[i] == was[i] && CallsFor(was[0 + i], handled[i]);
      } else {
        assert CallsFor(finished[|was| + (i - |handled|)], done[i - |handled|]);
      }
    }
  }

  lemma AllAnswered(finished: seq<string>, handled: seq<Call>)
    requires Answers(finished, 0, handled)
    ensures |handled| == |finished| && forall i :: 0 <= i < |finished| ==> CallsFor(finished[i], handled[i])
  {
    hide CallsFor;
    forall i | 0 <= i < |finished| ensures CallsFor(finished[i], handled[i]) {
      assert CallsFor(finished[0 + i], handled[i]);
    }
  }

  lemma NothingAnswered()
    ensures Answers([], 0, [])
  {
  }

  // ---------------------------------------------------------------- a message that stops the others

  const UNKNOWN_FIRST: seq<string> := ["X", "IAMN"]

  /** Nothing is wrong with the introduction, but the handler does not get there. */
  lemma UnknownStopsTheRest()
    ensures var ms := UNKNOWN_FIRST;
            AllClean(ms) && AllFit(ms) && !Understood(ms[0]) && Understood(ms[1]) && Reach(ms) == 1
  {
    var ms := UNKNOWN_FIRST;
    assert forall w :: Reads(w, "X", true) ==> |Text(w)| >= 4;
    assert Reads(WIam(N), "IAMN", true);
  }

  /** The run: both messages have arrived, and every callback is accepted. */
  method ServeUnknownFirst(handler: IOWorkerHandler)
    requires handler.Valid() && handler.ending == Open && !handler.wantToQuit && handler.finished == []
    requires handler.Unhandled() == ""
    modifies handler
    ensures handler.finished == ["X"] && handler.wantToQuit
  {
    ghost var ms := UNKNOWN_FIRST;
    UnknownStopsTheRest();
    var arrivals := [("X\r\nIAMN\r\n", true)];
    assert Bytes(arrivals) == Join(ms) + "" by {
      assert ms[1..] == ["IAMN"] && ms[1..][1..] == [];
      assert arrivals[1..] == [];
    }
    var handled := handler.Serve(arrivals, 3, ms, "");
  }
}
