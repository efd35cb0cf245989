/**
 * The Wayland display poll thread: the os-compatibility helpers that create
 * a close-on-exec epoll descriptor, the thread's start/stop bookkeeping
 * (`active_`, `epoll_fd_`), and the decision logic of the poll loop, which
 * keeps the epoll interest for the display descriptor and decides when the
 * loop ends.  System calls and libwayland calls are answered by oracle
 * values; the thread's system calls and the calls of the poll loop are
 * recorded in call traces.
 */
module DisplayPollThread {
  import opened Basics

  // epoll event bits (Linux <sys/epoll.h>).
  const EPOLLIN: bv32 := 0x001
  const EPOLLOUT: bv32 := 0x004
  const EPOLLERR: bv32 := 0x008
  const EPOLLHUP: bv32 := 0x010

  /** The interest registered when processing starts. */
  const StartInterest: bv32 := EPOLLIN | EPOLLOUT
  /** The interest set when a flush before the wait would block. */
  const BlockedInterest: bv32 := EPOLLIN | EPOLLOUT | EPOLLERR | EPOLLHUP
  /** The interest set once a flush on output readiness completes. */
  const FlushedInterest: bv32 := EPOLLIN | EPOLLERR | EPOLLHUP

  // errno values and fcntl/epoll flags (Linux).
  const EAGAIN: int := 11
  const EINVAL: int := 22
  const FD_CLOEXEC: int := 1
  const EPOLL_CLOEXEC: int := 0x80000
  /** The size of the event array handed to each wait. */
  const MAX_EVENTS: int := 16

  /** A system call as the os-compatibility helpers and the thread issue it. */
  datatype SysCall =
    | GetFdFlags(fd: int)
    | SetFdFlags(fd: int, flags: int)
    | Close(fd: int)
    | EpollCreate1(flags: int)
    | EpollCreate(size: int)
    | EpollCtlAdd(epfd: int, events: bv32)

  /** A C call's return value with the errno it leaves behind. */
  datatype IoResult = IoResult(ret: int, errno: int)

  /** `flags | FD_CLOEXEC` on a two's-complement integer. */
  function WithCloExec(flags: int): (r: int)
    ensures r % 2 == 1
    ensures r == flags || r == flags + 1
    ensures flags % 2 == 1 ==> r == flags
  {
    if flags % 2 == 1 then flags else flags + 1
  }

  /**
   * `setCloExecOrClose`: sets close-on-exec on `fd`, answering the two
   * fcntl calls with `getFdRet` and `setFdRet`.  A descriptor left
   * unusable is closed, never returned.
   */
  method SetCloExecOrClose(fd: int, getFdRet: int, setFdRet: int) returns (r: int, calls: seq<SysCall>)
    ensures fd == -1 ==> r == -1 && calls == []
    ensures fd != -1 && getFdRet == -1 ==> r == -1 && calls == [GetFdFlags(fd), Close(fd)]
    ensures fd != -1 && getFdRet != -1 && setFdRet == -1 ==>
      (r == -1 && calls == [GetFdFlags(fd), SetFdFlags(fd, WithCloExec(getFdRet)), Close(fd)])
    ensures fd != -1 && getFdRet != -1 && setFdRet != -1 ==>
      (r == fd && calls == [GetFdFlags(fd), SetFdFlags(fd, WithCloExec(getFdRet))])
    ensures r == -1 || r == fd
    ensures r == -1 <==> fd == -1 || Close(fd) in calls
    ensures (r, calls) == CloExecOrClose(fd, getFdRet, setFdRet)
  {
    if fd == -1 {
      return -1, [];
    }
    calls := [GetFdFlags(fd)];
    var flags := getFdRet;
    if flags == -1 {
      calls := calls + [Close(fd)];
      return -1, calls;
    }
    calls := calls + [SetFdFlags(fd, WithCloExec(flags))];
    if setFdRet == -1 {
      calls := calls + [Close(fd)];
      return -1, calls;
    }
    r := fd;
  }

  /**
   * The descriptor and calls `setCloExecOrClose` produces, as a function of
   * the fcntl answers: `fd` comes back exactly when it is a descriptor and
   * both fcntl calls succeed, and then with close-on-exec set; otherwise -1,
   * and a descriptor is closed.  Every call is made on `fd`.
   */
  function CloExecOrClose(fd: int, getFdRet: int, setFdRet: int): (r: (int, seq<SysCall>))
    ensures r.0 == (if fd != -1 && getFdRet != -1 && setFdRet != -1 then fd else -1)
    ensures r.0 == -1 <==> fd == -1 || Close(fd) in r.1
    ensures r.0 != -1 ==> SetFdFlags(fd, WithCloExec(getFdRet)) in r.1
    ensures fd != -1 ==> |r.1| >= 1 && r.1[0] == GetFdFlags(fd)
    ensures forall c :: c in r.1 ==> c == GetFdFlags(fd) || c == SetFdFlags(fd, WithCloExec(getFdRet)) || c == Close(fd)
  {
    if fd == -1 then (-1, [])
    else if getFdRet == -1 then (-1, [GetFdFlags(fd), Close(fd)])
    else if setFdRet == -1 then (-1, [GetFdFlags(fd), SetFdFlags(fd, WithCloExec(getFdRet)), Close(fd)])
    else (fd, [GetFdFlags(fd), SetFdFlags(fd, WithCloExec(getFdRet))])
  }

  /**
   * How the system answers `osEpollCreateCloExec`'s calls: `epoll_create1`
   * with its errno, then, on the fallback path, `epoll_create` and the two
   * fcntl calls.
   */
  datatype EpollAnswers = EpollAnswers(create1: IoResult, createRet: int, getFdRet: int, setFdRet: int)

  /**
   * `osEpollCreateCloExec`: `epoll_create1(EPOLL_CLOEXEC)` when it
   * succeeds; on EINVAL (a kernel without it) `epoll_create(1)` made
   * close-on-exec; any other failure gives -1 without falling back.
   */
  method OsEpollCreateCloExec(answers: EpollAnswers) returns (fd: int, calls: seq<SysCall>)
    ensures (fd, calls) == EpollCreated(answers)
  {
    calls := [EpollCreate1(EPOLL_CLOEXEC)];
    if answers.create1.ret >= 0 {
      return answers.create1.ret, calls;
    }
    if answers.create1.errno != EINVAL {
      return -1, calls;
    }
    calls := calls + [EpollCreate(1)];
    var made, fcntlCalls := SetCloExecOrClose(answers.createRet, answers.getFdRet, answers.setFdRet);
    fd := made;
    assert calls == [EpollCreate1(EPOLL_CLOEXEC), EpollCreate(1)];
    calls := calls + fcntlCalls;
  }

  /** The thread's processing state; `sysCalls` records the system calls it issues. */
  class PollThread {
    var active: bool
    var epollFd: int
    var sysCalls: seq<SysCall>

    constructor ()
      ensures !active && epollFd == 0 && sysCalls == []
    {
      active := false;
      epollFd := 0;
      sysCalls := [];
    }

    /**
     * Creates the epoll descriptor and registers the display descriptor on
     * it for input and output, then marks the thread active.  The thread
     * start and the posting of the poll loop are not modelled.
     */
    method StartProcessingEvents(answers: EpollAnswers)
      requires !active && epollFd == 0
      modifies this
      ensures active
      ensures epollFd == EpollCreated(answers).0
      ensures sysCalls == old(sysCalls) + EpollCreated(answers).1 + [EpollCtlAdd(epollFd, StartInterest)]
    {
      var fd, createCalls := OsEpollCreateCloExec(answers);
      epollFd := fd;
      sysCalls := sysCalls + createCalls + [EpollCtlAdd(epollFd, StartInterest)];
      active := true;
    }

    /** Marks the thread inactive and closes the epoll descriptor if there is one. */
    method StopProcessingEvents()
      modifies this
      ensures !active && epollFd == 0
      ensures old(epollFd) != 0 ==> sysCalls == old(sysCalls) + [Close(old(epollFd))]
      ensures old(epollFd) == 0 ==> sysCalls == old(sysCalls)
    {
      active := false;
      if epollFd != 0 {
        sysCalls := sysCalls + [Close(epollFd)];
        epollFd := 0;
      }
    }
  }

  /**
   * The descriptor and calls `osEpollCreateCloExec` produces, as a function
   * of the answers: `epoll_create1` first; its descriptor when it succeeds;
   * -1 without a fallback on any errno but EINVAL; on EINVAL, `epoll_create`,
   * whose descriptor is returned only once close-on-exec is set on it, and
   * is closed otherwise.
   */
  function EpollCreated(answers: EpollAnswers): (r: (int, seq<SysCall>))
    ensures |r.1| >= 1 && r.1[0] == EpollCreate1(EPOLL_CLOEXEC)
    ensures answers.create1.ret >= 0 ==> r == (answers.create1.ret, [EpollCreate1(EPOLL_CLOEXEC)])
    ensures answers.create1.ret < 0 && answers.create1.errno != EINVAL ==>
      r == (-1, [EpollCreate1(EPOLL_CLOEXEC)])
    ensures EpollCreate(1) in r.1 <==> answers.create1.ret < 0 && answers.create1.errno == EINVAL
    ensures answers.create1.ret < 0 && answers.create1.errno == EINVAL ==>
      (|r.1| >= 2 && r.1[1] == EpollCreate(1)
       && (r.0 == -1 || r.0 == answers.createRet)
       && (answers.createRet != -1 && r.0 == -1 <==> Close(answers.createRet) in r.1)
       && (r.0 != -1 ==> SetFdFlags(r.0, WithCloExec(answers.getFdRet)) in r.1))
    ensures answers.create1.ret < 0 && answers.create1.errno == EINVAL ==>
      r.0 == (if answers.createRet != -1 && answers.getFdRet != -1 && answers.setFdRet != -1
              then answers.createRet else -1)
  {
    if answers.create1.ret >= 0 then (answers.create1.ret, [EpollCreate1(EPOLL_CLOEXEC)])
    else if answers.create1.errno != EINVAL then (-1, [EpollCreate1(EPOLL_CLOEXEC)])
    else
      var made := CloExecOrClose(answers.createRet, answers.getFdRet, answers.setFdRet);
      (made.0, [EpollCreate1(EPOLL_CLOEXEC), EpollCreate(1)] + made.1)
  }

  // ---------------------------------------------------------------------
  // The poll loop.  Each round of `while (1)` is answered by a `Round`:
  // whether `active_` holds at its two tests, what the pre-wait flush
  // returns, and the readiness entries the wait fills in.

  /** One entry the wait reports, with the answers of the calls it triggers. */
  datatype Readiness = Readiness(events: bv32, dispatchRet: int, flush: IoResult)

  /** One round of the loop as the display, the kernel and the other thread answer it. */
  datatype Round = Round(activeAfterDispatch: bool, flush: IoResult, activeAfterWait: bool, ready: seq<Readiness>)

  /** A call the loop makes on the display or the epoll descriptor. */
  datatype PollCall = GetDisplayFd | DispatchPending | Flush | CtlMod(events: bv32) | Wait | Dispatch

  /** Why the loop ended; `ScriptExhausted` is the end of the modelled rounds. */
  datatype Exit =
    | Inactive | FlushFailed | InactiveAfterWait
    | ErrorOrHangup | DispatchFailed | OutputFlushFailed | ScriptExhausted

  /** The calls of a stretch of the loop, the interest after it, and the exit if it ended. */
  datatype Step = Step(calls: seq<PollCall>, interest: bv32, exit: Option<Exit>)

  predicate HasBit(events: bv32, bit: bv32) { events & bit != 0 }

  /** The handling of one readiness entry. */
  function EventStep(e: Readiness, interest: bv32): Step
  {
    if HasBit(e.events, EPOLLERR) || HasBit(e.events, EPOLLHUP) then Step([], interest, Some(ErrorOrHangup))
    else
      var dispatched := if HasBit(e.events, EPOLLIN) then [Dispatch] else [];
      if HasBit(e.events, EPOLLIN) && e.dispatchRet == -1 then Step(dispatched, interest, Some(DispatchFailed))
      else if !HasBit(e.events, EPOLLOUT) then Step(dispatched, interest, None)
      else if e.flush.ret == 0 then Step(dispatched + [Flush, CtlMod(FlushedInterest)], FlushedInterest, None)
      else if e.flush.ret == -1 && e.flush.errno != EAGAIN then
        Step(dispatched + [Flush], interest, Some(OutputFlushFailed))
      else Step(dispatched + [Flush], interest, None)
  }

  /**
   * How one entry ends the loop: ERR or HUP before any call, a failed
   * dispatch on IN, or a flush on OUT failing with an errno other than
   * EAGAIN; nothing else ends it.
   */
  lemma EventStepExits(e: Readiness, interest: bv32)
    ensures var s := EventStep(e, interest);
      && ((HasBit(e.events, EPOLLERR) || HasBit(e.events, EPOLLHUP)) <==> s.exit == Some(ErrorOrHangup))
      && (s.exit == Some(ErrorOrHangup) ==> s.calls == [] && s.interest == interest)
      && (s.exit == Some(DispatchFailed) <==>
           (s.exit != Some(ErrorOrHangup) && HasBit(e.events, EPOLLIN) && e.dispatchRet == -1))
      && (s.exit == Some(OutputFlushFailed) <==> (Flush in s.calls && e.flush.ret == -1 && e.flush.errno != EAGAIN))
      && (s.exit.None? || s.exit == Some(ErrorOrHangup) || s.exit == Some(DispatchFailed)
          || s.exit == Some(OutputFlushFailed))
  {
  }

  /**
   * The calls one entry makes: IN dispatches, OUT flushes, and both, dispatch
   * first, when both bits are set and the dispatch succeeds.
   */
  lemma EventStepCalls(e: Readiness, interest: bv32)
    ensures var s := EventStep(e, interest);
      && (Dispatch in s.calls <==> s.exit != Some(ErrorOrHangup) && HasBit(e.events, EPOLLIN))
      && (Flush in s.calls <==>
           (s.exit != Some(ErrorOrHangup) && HasBit(e.events, EPOLLOUT)
            && !(HasBit(e.events, EPOLLIN) && e.dispatchRet == -1)))
      && (Dispatch in s.calls && Flush in s.calls ==> s.calls[0] == Dispatch && s.calls[1] == Flush)
  {
    EventStepShape(e, interest);
  }

  /**
   * A flush returning 0 narrows the interest to IN|ERR|HUP, and nothing else
   * changes it; an entry makes no call besides dispatch, flush and that narrowing.
   */
  lemma EventStepInterest(e: Readiness, interest: bv32)
    ensures var s := EventStep(e, interest);
      && ((Flush in s.calls && e.flush.ret == 0) <==> CtlMod(FlushedInterest) in s.calls)
      && (s.interest == (if CtlMod(FlushedInterest) in s.calls then FlushedInterest else interest))
      && (forall c :: c in s.calls ==> c == Dispatch || c == Flush || c == CtlMod(FlushedInterest))
  {
    EventStepShape(e, interest);
  }

  /** The calls of one entry spelled out as literals, case by case. */
  lemma EventStepShape(e: Readiness, interest: bv32)
    ensures var s := EventStep(e, interest);
      var dispatched: seq<PollCall> := if HasBit(e.events, EPOLLIN) then [Dispatch] else [];
      && (s.exit == Some(ErrorOrHangup) ==> s.calls == [] && s.interest == interest)
      && (s.exit != Some(ErrorOrHangup) && (!HasBit(e.events, EPOLLOUT) || (HasBit(e.events, EPOLLIN) && e.dispatchRet == -1))
          ==> s.calls == dispatched && s.interest == interest)
      && (s.exit != Some(ErrorOrHangup) && HasBit(e.events, EPOLLOUT) && !(HasBit(e.events, EPOLLIN) && e.dispatchRet == -1)
          ==> (if e.flush.ret == 0 then s.calls == dispatched + [Flush, CtlMod(FlushedInterest)] && s.interest == FlushedInterest
               else s.calls == dispatched + [Flush] && s.interest == interest))
  {
  }

  /** The inner `for`: the entries in order, stopping at the first that ends the loop. */
  function HandleEvents(ready: seq<Readiness>, interest: bv32): Step
  {
    if ready == [] then Step([], interest, None)
    else
      var s := EventStep(ready[0], interest);
      if s.exit.Some? then s
      else
        var t := HandleEvents(ready[1..], s.interest);
        Step(s.calls + t.calls, t.interest, t.exit)
  }

  /** One round: dispatch pending, test active, flush, wait, test active, handle the entries. */
  function RoundStep(r: Round, interest: bv32): Step
  {
    if !r.activeAfterDispatch then Step([DispatchPending], interest, Some(Inactive))
    else if r.flush.ret < 0 && r.flush.errno != EAGAIN then
      Step([DispatchPending, Flush], interest, Some(FlushFailed))
    else
      var flushed :=
        if r.flush.ret < 0 then [DispatchPending, Flush, CtlMod(BlockedInterest)] else [DispatchPending, Flush];
      var waiting := if r.flush.ret < 0 then BlockedInterest else interest;
      if !r.activeAfterWait then Step(flushed + [Wait], waiting, Some(InactiveAfterWait))
      else
        var h := HandleEvents(r.ready, waiting);
        Step(flushed + [Wait] + h.calls, h.interest, h.exit)
  }

  /** The result of the whole loop over a script of rounds. */
  datatype RunResult = RunResult(calls: seq<PollCall>, interest: bv32, exit: Exit)

  /** The rounds in order, until one of them ends the loop or the script runs out. */
  function Run(rounds: seq<Round>, interest: bv32): RunResult
  {
    if rounds == [] then RunResult([], interest, ScriptExhausted)
    else
      var s := RoundStep(rounds[0], interest);
      if s.exit.Some? then RunResult(s.calls, s.interest, s.exit.value)
      else
        var t := Run(rounds[1..], s.interest);
        RunResult(s.calls + t.calls, t.interest, t.exit)
  }

  /** A stretch of the loop run after the calls already made. */
  function Then(made: seq<PollCall>, s: Step): Step {
    Step(made + s.calls, s.interest, s.exit)
  }

  /** The body of the inner `for`: the handling of one entry the wait reported. */
  method HandleEntry(e: Readiness, interest0: bv32) returns (calls: seq<PollCall>, interest: bv32, exit: Option<Exit>)
    ensures Step(calls, interest, exit) == EventStep(e, interest0)
  {
    calls := [];
    interest := interest0;
    var event := e.events;
    if HasBit(event, EPOLLERR) || HasBit(event, EPOLLHUP) {
      return calls, interest, Some(ErrorOrHangup);
    }
    if HasBit(event, EPOLLIN) {
      calls := calls + [Dispatch];
      if e.dispatchRet == -1 {
        return calls, interest, Some(DispatchFailed);
      }
    }
    if HasBit(event, EPOLLOUT) {
      calls := calls + [Flush];
      var flushRet := e.flush.ret;
      if flushRet == 0 {
        interest := FlushedInterest;
        calls := calls + [CtlMod(interest)];
      } else if flushRet == -1 && e.flush.errno != EAGAIN {
        return calls, interest, Some(OutputFlushFailed);
      }
    }
    exit := None;
  }

  /** The inner `for` of `DisplayRun`: handles the entries the wait reported, in order. */
  method HandleReady(ready: seq<Readiness>, interest0: bv32) returns (calls: seq<PollCall>, interest: bv32, exit: Option<Exit>)
    ensures Step(calls, interest, exit) == HandleEvents(ready, interest0)
  {
    calls := [];
    interest := interest0;
    var i := 0;
    while i < |ready|
      invariant 0 <= i <= |ready|
      invariant Then(calls, HandleEvents(ready[i..], interest)) == HandleEvents(ready, interest0)
    {
      assert ready[i..][1..] == ready[i + 1..];
      ghost var made := calls;
      var entryCalls, entryInterest, entryExit := HandleEntry(ready[i], interest);
      if entryExit.Some? {
        return calls + entryCalls, entryInterest, entryExit;
      }
      SeqAssoc(made, entryCalls, HandleEvents(ready[i + 1..], entryInterest).calls);
      calls := calls + entryCalls;
      interest := entryInterest;
      i := i + 1;
    }
    assert ready[|ready|..] == [];
    return calls, interest, None;
  }

  lemma SeqAssoc<T>(a: seq<T>, b: seq<T>, c: seq<T>)
    ensures (a + b) + c == a + (b + c)
  {
  }

  /** The body of `DisplayRun`'s `while (1)`: one round of the loop. */
  method PollRound(r: Round, interest0: bv32) returns (calls: seq<PollCall>, interest: bv32, exit: Option<Exit>)
    ensures Step(calls, interest, exit) == RoundStep(r, interest0)
  {
    calls := [DispatchPending];
    interest := interest0;
    if !r.activeAfterDispatch {
      return calls, interest, Some(Inactive);
    }
    var ret := r.flush.ret;
    if ret < 0 && r.flush.errno == EAGAIN {
      interest := BlockedInterest;
      calls := calls + [Flush, CtlMod(interest)];
    } else if ret < 0 {
      return calls + [Flush], interest, Some(FlushFailed);
    } else {
      calls := calls + [Flush];
    }
    calls := calls + [Wait];
    if !r.activeAfterWait {
      return calls, interest, Some(InactiveAfterWait);
    }
    var handled;
    handled, interest, exit := HandleReady(r.ready, interest);
    calls := calls + handled;
  }

  /**
   * `DisplayRun`: the poll loop over a script of rounds, starting from the
   * interest registered for the display descriptor.
   */
  method DisplayRun(rounds: seq<Round>, interest0: bv32) returns (calls: seq<PollCall>, interest: bv32, exit: Exit)
    ensures calls == [GetDisplayFd] + Run(rounds, interest0).calls
    ensures interest == Run(rounds, interest0).interest
    ensures exit == Run(rounds, interest0).exit
  {
    calls := [GetDisplayFd];
    interest := interest0;
    var n := 0;
    while n < |rounds|
      invariant 0 <= n <= |rounds|
      invariant calls + Run(rounds[n..], interest).calls == [GetDisplayFd] + Run(rounds, interest0).calls
      invariant Run(rounds[n..], interest).interest == Run(rounds, interest0).interest
      invariant Run(rounds[n..], interest).exit == Run(rounds, interest0).exit
    {
      assert rounds[n..][1..] == rounds[n + 1..];
      ghost var made := calls;
      var roundCalls, roundInterest, roundExit := PollRound(rounds[n], interest);
      if roundExit.Some? {
        return calls + roundCalls, roundInterest, roundExit.value;
      }
      SeqAssoc(made, roundCalls, Run(rounds[n + 1..], roundInterest).calls);
      calls := calls + roundCalls;
      interest := roundInterest;
      n := n + 1;
    }
    assert rounds[|rounds|..] == [];
    exit := ScriptExhausted;
  }

  // ---------------------------------------------------------------------
  // Properties of the poll loop.

  /** The three interests the loop ever registers; each reads input. */
  predicate KnownInterest(m: bv32) {
    m == StartInterest || m == BlockedInterest || m == FlushedInterest
  }

  lemma KnownInterestReadsInput(m: bv32)
    requires KnownInterest(m)
    ensures HasBit(m, EPOLLIN)
  {
  }

  /** Handling entries keeps the interest among the three, and only ever narrows it. */
  lemma {:induction false} HandleEventsKeepsInterest(ready: seq<Readiness>, interest: bv32)
    requires KnownInterest(interest)
    ensures KnownInterest(HandleEvents(ready, interest).interest)
    ensures forall c :: c in HandleEvents(ready, interest).calls ==> (c.CtlMod? ==> c.events == FlushedInterest)
  {
    if ready != [] {
      var s := EventStep(ready[0], interest);
      EventStepInterest(ready[0], interest);
      if s.exit.None? {
        HandleEventsKeepsInterest(ready[1..], s.interest);
      }
    }
  }

  /** A round keeps the interest among the three, and every re-registration uses one of them. */
  lemma RoundKeepsInterest(r: Round, interest: bv32)
    requires KnownInterest(interest)
    ensures KnownInterest(RoundStep(r, interest).interest)
    ensures forall c :: c in RoundStep(r, interest).calls ==> (c.CtlMod? ==> KnownInterest(c.events))
  {
    if r.activeAfterDispatch && !(r.flush.ret < 0 && r.flush.errno != EAGAIN) && r.activeAfterWait {
      HandleEventsKeepsInterest(r.ready, if r.flush.ret < 0 then BlockedInterest else interest);
    }
  }

  /**
   * Started with IN|OUT (or any of the three), the loop only ever
   * registers IN|OUT|ERR|HUP or IN|ERR|HUP, so input is always awaited.
   */
  lemma {:induction false} RunKeepsInterest(rounds: seq<Round>, interest: bv32)
    requires KnownInterest(interest)
    ensures KnownInterest(Run(rounds, interest).interest)
    ensures forall c :: c in Run(rounds, interest).calls ==>
      (c.CtlMod? ==> KnownInterest(c.events) && HasBit(c.events, EPOLLIN))
  {
    if rounds != [] {
      var s := RoundStep(rounds[0], interest);
      RoundKeepsInterest(rounds[0], interest);
      KnownInterestReadsInput(BlockedInterest);
      KnownInterestReadsInput(FlushedInterest);
      KnownInterestReadsInput(StartInterest);
      if s.exit.None? {
        RunKeepsInterest(rounds[1..], s.interest);
      }
    }
  }

  /** Handling entries ends the loop only for a reason an entry gives. */
  lemma {:induction false} HandleEventsExits(ready: seq<Readiness>, interest: bv32)
    ensures var x := HandleEvents(ready, interest).exit;
      x.None? || x == Some(ErrorOrHangup) || x == Some(DispatchFailed) || x == Some(OutputFlushFailed)
  {
    if ready != [] {
      EventStepExits(ready[0], interest);
      var s := EventStep(ready[0], interest);
      if s.exit.None? {
        HandleEventsExits(ready[1..], s.interest);
      }
    }
  }

  /**
   * How a round starts: dispatch pending comes first; an inactive thread
   * ends the round right after it; otherwise the flush comes next, and a
   * flush failure other than EAGAIN ends the loop before the wait.
   */
  lemma RoundStart(r: Round, interest: bv32)
    ensures var s := RoundStep(r, interest);
      && |s.calls| >= 1 && s.calls[0] == DispatchPending
      && (!r.activeAfterDispatch <==> s.exit == Some(Inactive))
      && (!r.activeAfterDispatch ==> s.calls == [DispatchPending])
      && (r.activeAfterDispatch ==> |s.calls| >= 2 && s.calls[1] == Flush)
      && (r.activeAfterDispatch && r.flush.ret < 0 && r.flush.errno != EAGAIN <==> s.exit == Some(FlushFailed))
      && (s.exit == Some(FlushFailed) ==> s.calls == [DispatchPending, Flush])
  {
    RoundPrefix(r, interest);
    if r.activeAfterDispatch && !(r.flush.ret < 0 && r.flush.errno != EAGAIN) && r.activeAfterWait {
      EntriesExitAfterWait(r, interest);
    }
  }

  /**
   * The wait of a round: after a flush that would block (EAGAIN) the
   * interest is widened to IN|OUT|ERR|HUP before the wait; after a flush
   * that did not fail the wait follows at once; an inactive thread after
   * the wait handles no entry.
   */
  lemma RoundWait(r: Round, interest: bv32)
    ensures var s := RoundStep(r, interest);
      && (r.activeAfterDispatch && r.flush.ret < 0 && r.flush.errno == EAGAIN ==>
           |s.calls| >= 4 && s.calls[2] == CtlMod(BlockedInterest) && s.calls[3] == Wait)
      && (r.activeAfterDispatch && r.flush.ret >= 0 ==> |s.calls| >= 3 && s.calls[2] == Wait)
      && (r.activeAfterDispatch && r.flush.ret >= 0 && !r.activeAfterWait ==> s.interest == interest)
      && (s.exit == Some(InactiveAfterWait) <==>
           (r.activeAfterDispatch && !(r.flush.ret < 0 && r.flush.errno != EAGAIN) && !r.activeAfterWait))
      && (!r.activeAfterWait ==> Dispatch !in s.calls)
  {
    RoundPrefix(r, interest);
    if r.activeAfterDispatch && !(r.flush.ret < 0 && r.flush.errno != EAGAIN) && r.activeAfterWait {
      EntriesExitAfterWait(r, interest);
    }
  }

  /** The calls of a round up to its wait, and the entries' part after it. */
  lemma RoundPrefix(r: Round, interest: bv32)
    ensures var s := RoundStep(r, interest);
      r.activeAfterDispatch && !(r.flush.ret < 0 && r.flush.errno != EAGAIN) ==>
        var flushed :=
          if r.flush.ret < 0 then [DispatchPending, Flush, CtlMod(BlockedInterest)] else [DispatchPending, Flush];
        var waiting := if r.flush.ret < 0 then BlockedInterest else interest;
        && (r.activeAfterWait ==> s == Then(flushed + [Wait], HandleEvents(r.ready, waiting)))
        && (!r.activeAfterWait ==> s == Step(flushed + [Wait], waiting, Some(InactiveAfterWait)))
  {
  }

  /**
   * Once a round has passed its wait with the thread still active, the
   * entries decide how it ends: never by a failed `active_` test or a
   * failed pre-wait flush.
   */
  lemma EntriesExitAfterWait(r: Round, interest: bv32)
    requires r.activeAfterDispatch && !(r.flush.ret < 0 && r.flush.errno != EAGAIN) && r.activeAfterWait
    ensures var s := RoundStep(r, interest);
      s.exit != Some(Inactive) && s.exit != Some(FlushFailed) && s.exit != Some(InactiveAfterWait)
  {
    HandleEventsExits(r.ready, if r.flush.ret < 0 then BlockedInterest else interest);
  }

  /** Every dispatch of a round comes after its wait. */
  lemma DispatchFollowsWait(r: Round, interest: bv32)
    ensures var s := RoundStep(r, interest);
      forall k :: 0 <= k < |s.calls| && s.calls[k] == Dispatch ==> Wait in s.calls[..k]
  {
    var s := RoundStep(r, interest);
    if r.activeAfterDispatch && !(r.flush.ret < 0 && r.flush.errno != EAGAIN) && r.activeAfterWait {
      var flushed :=
        if r.flush.ret < 0 then [DispatchPending, Flush, CtlMod(BlockedInterest)] else [DispatchPending, Flush];
      var h := HandleEvents(r.ready, if r.flush.ret < 0 then BlockedInterest else interest);
      assert s.calls == (flushed + [Wait]) + h.calls;
      forall k | 0 <= k < |s.calls| && s.calls[k] == Dispatch
        ensures Wait in s.calls[..k]
      {
        assert k > |flushed|;
        assert s.calls[..k][|flushed|] == Wait;
      }
    }
  }

  /**
   * The entries are handled in full only when none reports ERR or HUP:
   * such an entry always ends the loop.
   */
  lemma {:induction false} ErrorOrHangupEndsLoop(ready: seq<Readiness>, interest: bv32)
    ensures HandleEvents(ready, interest).exit.None? ==>
      forall k :: 0 <= k < |ready| ==> !HasBit(ready[k].events, EPOLLERR) && !HasBit(ready[k].events, EPOLLHUP)
  {
    if ready != [] {
      var s := EventStep(ready[0], interest);
      EventStepExits(ready[0], interest);
      if s.exit.None? {
        ErrorOrHangupEndsLoop(ready[1..], s.interest);
        forall k | 1 <= k < |ready| ensures ready[k] == ready[1..][k - 1] { }
      }
    }
  }

  /** The loop makes no dispatch or flush call before the first round's dispatch pending. */
  lemma RunStartsWithDispatchPending(rounds: seq<Round>, interest: bv32)
    requires rounds != []
    ensures |Run(rounds, interest).calls| >= 1 && Run(rounds, interest).calls[0] == DispatchPending
  {
    RoundStart(rounds[0], interest);
  }
}
