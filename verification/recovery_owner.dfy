/**
 The surviving owner, updated in place and refining OwnerSpec call by call. The source's fields of
 the session and of the operation in hand are kept as two records; the child is an object of its own.
 */
module RecoveryOwner {
  import opened Machine
  import opened Sums
  import opened ProcessSpec
  import opened ComputeProcesses
  import P = RecoveryProtocol
  import S = OwnerSpec
  import opened OwnerSpec
  import opened RecoveryProtocol

  class Owner {
    const stopGrace: U64
    var process: ComputeProcess?
    var session: Session
    var work: Work
    var lastNow: U64
    var clockSeen: bool
    var fault: bool
    var counters: Counters
    ghost var log: seq<Event>

    ghost function Repr(): set<object>
      reads this
    {
      if process == null then {this} else {this, process, process.frameBuffer}
    }

    ghost predicate Valid()
      reads Repr()
    {
      process != null ==> process.Valid()
    }

    ghost function ChildState(): Option<ProcessState>
      requires Valid()
      reads Repr()
    {
      if process == null then None else Some(process.State())
    }

    ghost function State(): OwnerState
      requires Valid()
      reads Repr()
    {
      OwnerState(stopGrace, session, work, ChildState(), lastNow, clockSeen, fault, counters, log)
    }

    constructor (stopGrace: U64)
      ensures Valid() && fresh(Repr()) && State() == NewOwner(stopGrace)
    {
      this.stopGrace := stopGrace;
      process, session := null, Session(false, 1, false, 0, 0, 0, 0, None);
      work, counters := Work(0, 0, 0, 0, false, false, None), Counters(0, 0);
      lastNow, clockSeen, fault, log := 0, false, false, [];
    }

    method Fail()
      requires Valid()
      modifies `fault, `log
      ensures State() == S.Fail(old(State()))
    {
      if !fault { log := log + [Faulted]; }
      fault := true;
    }

    /** Whether nothing is left of any earlier work. */
    method Clear(canLaunch: bool) returns (clear: bool)
      requires Valid()
      ensures clear <==> IsClear(State(), canLaunch)
      ensures clear && process != null ==> process.exit.Some? && process.eof && process.channelsClosed
    {
      if fault || !canLaunch { return false; }
      if process == null { return true; }
      return process.exit.Some? && process.eof && process.channelsClosed && !process.ownershipLost
             && !process.view.malformed && process.ioError == 0;
    }

    /** A result nobody will receive is counted once. */
    method DiscardWork()
      requires Valid()
      modifies `counters, `work, `log
      ensures State() == S.DiscardWork(old(State()))
    {
      if work.operation != 0 && !work.handedOff && !work.discarded {
        counters := counters.(discardedResults := Increment(counters.discardedResults));
        work := work.(discarded := true);
        log := log + [DiscardedResult(Launches(log))];
      }
    }

    method Disconnect(now: U64, e: Environment)
      requires Valid()
      modifies Repr()
      ensures Valid() && process == old(process) && State() == S.Disconnect(old(State()), now, e)
      ensures !session.connected && !session.active && work.operation == 0
    {
      hide ProcessSpec.RequestStop, S.Fail, S.DiscardWork;
      if process != null && process.launched && process.exit.None? { process.RequestStop(now, e.stopSend); }
      assert State() == S.StopChild(old(State()), now, e.stopSend);
      DiscardWork();
      work := work.(operation := 0, handedOff := false, result := None);
      var open := session.connected;
      session := session.(connected := false, active := false, clearToken := 0, pending := None);
      if open && !e.socketCloses { Fail(); }
    }

    method Attach(usable: bool, now: U64, e: Environment) returns (attached: bool)
      requires Valid()
      modifies Repr()
      ensures Valid() && process == old(process)
      ensures State() == S.Attach(old(State()), usable, now, e).0
      ensures attached == S.Attach(old(State()), usable, now, e).1
      ensures attached ==> !old(session.connected) && session.connected && session.epoch == old(session.epoch) + 1
    {
      hide S.Disconnect, S.Fail;
      var backwards := clockSeen && now < lastNow;
      if session.connected || fault || session.epoch == MAX_U64 || backwards || !usable || !e.canLaunch {
        if backwards || session.epoch == MAX_U64 {
          Fail();
          Disconnect(lastNow, e);
        }
        return false;
      }
      var epoch := session.epoch + 1;
      lastNow, clockSeen := now, true;
      session := Session(true, epoch, false, 0, 0, 0, 0, Some(Pending(Reply(P.Hello, epoch, 0), now)));
      log := log + [Attached(epoch)];
      return true;
    }

    /** The answer for the operation in hand, from what its child was seen to do. */
    method Report() returns (m: P.Message)
      requires Valid() && process != null
      ensures m == S.ResultOf(work, process.State())
      ensures m == Message(P.Result, work.session, work.request, work.operation, work.amount, m.value, m.flags)
      ensures m.flags == SUCCEEDED <==>
              && process.exit == Some(ExitedWith(0)) && process.view.terminal == CompletedTerminal
              && process.view.terminalIterations == work.amount
      ensures m.flags == P.CANCELLED <==>
              && process.exit == Some(ExitedWith(20)) && process.view.stopRequested
              && process.view.terminal == CancelledTerminal && process.view.terminalIterations <= work.amount
      ensures m.flags == SUCCEEDED || m.flags == P.CANCELLED || m.flags == FAILED
      ensures m.value == if m.flags == SUCCEEDED then process.view.terminalValue else 0
    {
      m := Reply(P.Result, work.session, work.request).(operation := work.operation, amount := work.amount);
      var v := process.view;
      if process.exit.Some? && process.exit.value.ExitedWith? {
        var code := process.exit.value.code;
        if code == 0 && v.terminal == CompletedTerminal && v.terminalIterations == work.amount {
          m := m.(flags := SUCCEEDED, value := v.terminalValue);
        } else if code == 20 && v.stopRequested && v.terminal == CancelledTerminal
          && v.terminalIterations <= work.amount {
          m := m.(flags := P.CANCELLED);
        }
      }
      if m.flags == 0 { m := m.(flags := FAILED); }
    }

    method Reap()
      requires Valid() && process != null
      modifies `process, `work, `log
      ensures Valid() && process == null
      ensures State() == S.Reap(old(State()), old(process.State()))
    {
      hide S.ResultOf;
      ghost var closed := process.State();
      var report := Report();
      if work.operation != 0 && session.connected { work := work.(result := Some(report)); }
      process := null;
      log := log + [ReapedChild(Launches(log), closed)];
    }

    method CloseChild(now: U64, e: Environment)
      requires Valid() && process != null
      modifies Repr()
      ensures Valid() && (process == null || process == old(process))
      ensures State() == S.CloseChild(old(State()), now, e)
    {
      hide ProcessSpec.CloseChannels, S.Reap, S.Disconnect, S.Fail;
      ghost var before := State();
      var closed := process.CloseChannels(e.controlClose, e.eventClose);
      ghost var q := process.State();
      assert State() == before.(process := Some(q));
      if closed {
        Reap();
        ReapForgets(before, q);
      } else {
        Fail();
        Disconnect(now, e);
      }
    }

    method PollChild(now: U64, e: Environment)
      requires Valid() && process != null
      modifies Repr()
      ensures Valid() && process == old(process) && old(State()).process.Some? && S.HasRoom(old(State()))
      ensures State() ==
              old(State()).(process := Some(ProcessSpec.Poll(old(State()).process.value, now, e.pipe, e.poll).0))
    {
      hide ProcessSpec.Poll;
      var _ := process.Poll(now, e.pipe, e.poll);
    }

    method ObserveNative(now: U64, e: Environment)
      requires Valid()
      modifies Repr()
      ensures Valid() && (process == null || process == old(process))
      ensures State() == S.ObserveNative(old(State()), now, e)
    {
      hide ProcessSpec.Poll, S.CloseChild, S.Disconnect, S.Fail;
      if process == null { return; }
      PollChild(now, e);
      if process.ownershipLost || process.view.malformed || process.ioError != 0 {
        Fail();
        Disconnect(now, e);
      }
      if process.exit.Some? && process.eof { CloseChild(now, e); }
    }

    method Queue(m: P.Message, now: U64)
      requires Valid()
      modifies `session
      ensures State() == S.Queue(old(State()), m, now)
    {
      session := session.(pending := Some(Pending(m, now)));
    }

    method Flush(now: U64, e: Environment)
      requires Valid()
      modifies Repr()
      ensures Valid() && process == old(process) && State() == S.Flush(old(State()), now, e)
    {
      hide S.Disconnect;
      if session.pending.None? || !session.connected { return; }
      if Elapsed(session.pending.value.at, now) >= EVIDENCE_LIFETIME_MS || e.send == PeerClosed {
        Disconnect(now, e);
      } else if e.send == Done {
        var m := session.pending.value.message;
        session := session.(pending := None);
        if m.kind == P.Result {
          if m.flags != NOT_LAUNCHED { log := log + [SentResult(Launches(log), m)]; }
          work := work.(handedOff := true, operation := 0, result := None);
        }
      }
    }

    /** The launched child becomes the owner's, and its launch is answered. */
    method Adopt(candidate: ComputeProcess, m: P.Message, now: U64)
      requires Valid() && candidate.Valid()
      modifies `work, `process, `counters, `log, `session
      ensures Valid() && process == candidate
      ensures State() == S.AnswerLaunch(old(State()), m, candidate.State(), now)
    {
      work := Work(m.operation, session.epoch, m.request, m.amount, false, false, None);
      process := candidate;
      counters := counters.(launches := Increment(counters.launches));
      log := log + [LaunchedChild(Launches(log) + 1, session.epoch, m.operation, m.amount)];
      Queue(Reply(P.Accepted, session.epoch, m.request).(operation := m.operation, amount := m.amount), now);
    }

    method Submit(m: P.Message, now: U64, e: Environment)
      requires Valid() && 0 < m.amount <= MAXIMUM_ITERATIONS
      modifies Repr()
      ensures Valid() && (process == old(process) || fresh(Repr() - {this}))
      ensures State() == S.AnswerSubmission(old(State()), m, now, e)
    {
      hide S.Disconnect, S.Fail, ProcessSpec.Launch, S.AnswerLaunch;
      if !e.allocates {
        Fail();
        Disconnect(now, e);
        return;
      }
      var candidate := new ComputeProcess(m.amount, stopGrace);
      var launched := candidate.Launch(e.launch);
      session := session.(lastRequest := m.request, lastOperation := m.operation);
      if candidate.ownershipLost || candidate.view.malformed || candidate.ioError != 0 {
        Fail();
        Disconnect(now, e);
      } else if !launched {
        Queue(Reply(P.Result, session.epoch, m.request).(operation := m.operation, amount := m.amount,
                                                         flags := NOT_LAUNCHED), now);
      } else {
        Adopt(candidate, m, now);
      }
    }

    method AnswerActivation(m: P.Message, now: U64)
      requires Valid()
      modifies `session, `log
      ensures State() == S.AnswerActivation(old(State()), m, now)
    {
      session := session.(lastRequest := m.request, active := true, clearToken := 0);
      log := log + [ActivatedSession(session.epoch)];
      Queue(Reply(P.Activated, session.epoch, m.request).(value := m.value), now);
    }

    method Receive(now: U64, e: Environment)
      requires Valid()
      modifies Repr()
      ensures Valid() && (process == old(process) || fresh(Repr() - {this}))
      ensures State() == S.Receive(old(State()), now, e)
    {
      hide S.Disconnect, S.Fail, S.AnswerSubmission, S.AnswerActivation, S.AnswerQuery, S.IsClear;
      if e.receive.NothingThere? { return; }
      if e.receive.NoPeer? || e.receive.message.session != session.epoch || e.receive.message.request == 0
         || e.receive.message.request <= session.lastRequest {
        Disconnect(now, e);
        return;
      }
      var m := e.receive.message;
      var clear := Clear(e.canLaunch);
      if m.kind == P.Query && !session.active && HasEmptyPayload(m) {
        AnswerQuery(m, now, clear, e);
      } else if m.kind == P.Activate && !session.active && m.operation == 0 && m.amount == 0 && m.flags == 0
                && session.clearToken != 0 && m.value == session.clearToken
                && Elapsed(session.clearTokenAt, now) < EVIDENCE_LIFETIME_MS && clear {
        AnswerActivation(m, now);
      } else if m.kind == P.Submit && session.active && work.operation == 0 && m.operation > session.lastOperation
                && 0 < m.amount <= MAXIMUM_ITERATIONS && m.value == 0 && m.flags == 0 && clear {
        Submit(m, now, e);
      } else {
        Disconnect(now, e);
      }
    }

    method AnswerQuery(m: P.Message, now: U64, clear: bool, e: Environment)
      requires Valid() && (clear <==> IsClear(State(), e.canLaunch))
      modifies `session
      ensures State() == S.AnswerQuery(old(State()), m, now, e.canLaunch)
    {
      hide S.IsClear;
      var snapshot := Reply(P.Snapshot, session.epoch, m.request);
      session := session.(lastRequest := m.request);
      if clear {
        snapshot := snapshot.(flags := CLEAR);
        session := session.(clearToken := m.request, clearTokenAt := now);
      } else {
        session := session.(clearToken := 0);
      }
      Queue(snapshot, now);
    }

    method CheckClock(now: U64, e: Environment) returns (time: U64)
      requires Valid()
      modifies Repr()
      ensures Valid() && process == old(process) && time == PollTime(old(State()), now)
      ensures State() == S.CheckClock(old(State()), now, e)
    {
      hide S.Disconnect, S.Fail;
      if clockSeen && now < lastNow {
        time := lastNow;
        Fail();
        Disconnect(lastNow, e);
      } else {
        lastNow, clockSeen := now, true;
        time := now;
      }
    }

    /** A result waits for the channel to be free. */
    method QueueResult(now: U64)
      requires Valid()
      modifies `session
      ensures State() == if old(session).connected then S.QueueResult(old(State()), now) else old(State())
    {
      if session.connected && session.pending.None? && work.result.Some? { Queue(work.result.value, now); }
    }

    method BeforeSending(now: U64, e: Environment) returns (time: U64)
      requires Valid()
      modifies Repr()
      ensures Valid() && (process == null || process == old(process)) && time == PollTime(old(State()), now)
      ensures HasRoom(old(State())) && State() == S.BeforeSending(old(State()), now, e)
    {
      hide S.CheckClock, S.ObserveNative, S.PollTime, S.QueueResult;
      time := CheckClock(now, e);
      ObserveNative(time, e);
      QueueResult(time);
    }

    method Poll(now: U64, e: Environment)
      requires Valid()
      modifies Repr()
      ensures Valid() && fresh(Repr() - old(Repr()))
      ensures HasRoom(old(State())) && State() == S.PollOwner(old(State()), now, e)
    {
      hide S.BeforeSending, S.Receive, S.PollTime, S.QueueResult, S.Flush;
      var time := BeforeSending(now, e);
      Flush(time, e);
      QueueResult(time);
      if session.connected && session.pending.None? { Receive(time, e); }
    }
  }

  /** What is reaped is forgotten: only the history keeps it. */
  lemma ReapForgets(o: OwnerState, q: ProcessState)
    ensures S.Reap(o.(process := Some(q)), q) == S.Reap(o, q)
  {
  }
}
