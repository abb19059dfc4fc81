/** What the owner keeps in every call, and what its history therefore says. */
module OwnerInvariant {
  import opened Machine
  import opened Sums
  import opened Frames
  import opened ProcessSpec
  import P = RecoveryProtocol
  import opened OwnerSpec

  // ---------- Histories ----------

  /** No child is outstanding and none has been lost control of. */
  predicate IsQuiet(h: Summary) {
    h.reaps == h.launches && !h.faulted
  }

  /** Exactly the last launched child is still unanswered. */
  predicate AwaitsAnswer(h: Summary) {
    h.launches == h.sent + h.discarded + 1
  }

  /** Whether an event may follow a history. */
  predicate Fits(h: Summary, e: Event) {
    match e
    case Attached(session) => session > h.session && !h.faulted
    case ActivatedSession(session) => session == h.session && IsQuiet(h)
    case LaunchedChild(number, session, _, amount) =>
      && number == h.launches + 1 && session == h.session && IsQuiet(h) && h.launches == h.sent + h.discarded
      && 0 < amount <= MAXIMUM_ITERATIONS
    case ReapedChild(number, seen) =>
      && number == h.launches == h.reaps + 1 && HasExited(seen) && seen.stream.eof && seen.channels.closed
    case SentResult(number, m) =>
      && number == h.launches == h.reaps && AwaitsAnswer(h) && h.last.Some? && h.seen.Some?
      && m == ResultOf(WorkOf(h.last.value, m.request), h.seen.value) && m.session == h.session
      && m.flags != P.CANCELLED && h.seen.value.limit == h.last.value.amount
    case DiscardedResult(number) => number == h.launches && AwaitsAnswer(h)
    case Faulted => !h.faulted
  }

  /** The work a launch was for. */
  function WorkOf(l: LaunchRecord, request: U64): Work {
    Work(l.operation, l.session, request, l.amount, false, false, None)
  }

  predicate IsHistory(log: seq<Event>) {
    log == [] || (IsHistory(log[..|log| - 1]) && Fits(Summarize(log[..|log| - 1]), log[|log| - 1]))
  }

  lemma Extends(log: seq<Event>, e: Event)
    ensures Summarize(log + [e]) == Add(Summarize(log), e)
    ensures IsHistory(log + [e]) <==> IsHistory(log) && Fits(Summarize(log), e)
  {
    assert (log + [e])[..|log|] == log;
  }

  // ---------- The owner ----------

  predicate SessionIsConsistent(s: Session) {
    && (!s.connected ==> !s.active && s.clearToken == 0 && s.pending.None?)
    && (s.clearToken != 0 ==> !s.active)
  }

  /** The child in hand: launched, not yet closed, and stopped only when nobody waits for it. */
  predicate ChildIsConsistent(w: Work, p: ProcessState) {
    && p.launched && !p.channels.closed && |p.stream.buffer| < FRAME_BYTES
    && 0 < p.limit <= MAXIMUM_ITERATIONS
    && (w.operation != 0 ==> p.limit == w.amount && !p.stream.view.stopRequested)
  }

  /** An operation waits for its child, or its result waits to be sent. */
  predicate WorkIsConsistent(s: Session, w: Work, process: Option<ProcessState>) {
    && (w.operation == 0 ==> w.result.None?)
    && (w.operation != 0 ==>
          && s.connected && s.active && !w.handedOff && !w.discarded && w.session == s.epoch
          && w.operation == s.lastOperation && w.request == s.lastRequest && (process.Some? <==> w.result.None?))
  }

  /** A pending result is the one of the operation in hand, or one for a launch that failed. */
  predicate PendingIsConsistent(s: Session, w: Work) {
    s.pending.Some? ==>
      var m := s.pending.value.message;
      && m.session == s.epoch
      && (m.kind == P.Result ==> w.result == Some(m) || (w.operation == 0 && m.flags == P.NOT_LAUNCHED))
  }

  predicate ProcessIsConsistent(o: OwnerState) {
    && (o.process.Some? ==> ChildIsConsistent(o.work, o.process.value))
    && (o.session.clearToken != 0 ==> o.process.None?)
    && (o.process.Some? && o.session.active ==> o.work.operation != 0)
  }

  /** The state is what the history amounts to. */
  predicate HistoryMatches(o: OwnerState, h: Summary) {
    && h.reaps + (if o.process.Some? then 1 else 0) == h.launches
    && h.sent + h.discarded + (if o.work.operation != 0 then 1 else 0) == h.launches
    && h.faulted == o.fault && h.session == o.session.epoch
    && o.counters == Counters(Wrap(h.launches), Wrap(h.discarded))
    && (h.launches > 0 <==> h.last.Some?) && (h.reaps > 0 <==> h.seen.Some?)
    && (o.work.operation != 0 ==>
          h.last == Some(LaunchRecord(o.work.session, o.work.operation, o.work.amount)))
    && (o.work.result.Some? ==>
          && h.seen.Some? && !h.seen.value.stream.view.stopRequested && h.seen.value.limit == o.work.amount
          && o.work.result.value == ResultOf(o.work, h.seen.value))
  }

  predicate OwnerInv(o: OwnerState) {
    && SessionIsConsistent(o.session) && WorkIsConsistent(o.session, o.work, o.process)
    && PendingIsConsistent(o.session, o.work) && ProcessIsConsistent(o)
    && IsHistory(o.log) && HistoryMatches(o, Summarize(o.log))
  }

  lemma NewOwnerIsValid(stopGrace: U64)
    ensures OwnerInv(NewOwner(stopGrace))
  {
  }

  // ---------- Small steps ----------

  lemma FailKeeps(o: OwnerState)
    requires OwnerInv(o)
    ensures OwnerInv(Fail(o)) && Fail(o) == o.(fault := true, log := Fail(o).log)
  {
    Extends(o.log, Faulted);
  }

  lemma StopOnlyMarks(p: ProcessState, now: U64, sendError: Option<int>)
    ensures var q := RequestStop(p, now, sendError);
      && q.launched == p.launched && q.channels == p.channels && q.limit == p.limit && q.reaping == p.reaping
      && q.stream == p.stream.(view := p.stream.view.(stopRequested := true))
  {
  }

  lemma DiscardKeeps(o: OwnerState)
    requires OwnerInv(o)
    ensures var d := DiscardWork(o);
      && IsHistory(d.log)
      && HistoryMatches(d.(work := d.work.(operation := 0, result := None)), Summarize(d.log))
      && d == o.(work := o.work.(discarded := d.work.discarded), counters := d.counters, log := d.log)
  {
    hide IsHistory, Summarize, ResultOf;
    Extends(o.log, DiscardedResult(Launches(o.log)));
  }

  /** The work in hand is counted as discarded, and nothing is in hand any more. */
  lemma LeaveKeeps(o: OwnerState, socketCloses: bool)
    requires OwnerInv(o)
    ensures var d := LeaveSession(DiscardWork(o), socketCloses);
      && OwnerInv(d) && !d.session.connected && d.work.operation == 0 && d.session.epoch == o.session.epoch
      && d.lastNow == o.lastNow && (o.fault ==> d.fault) && d.process == o.process
  {
    hide IsHistory, Summarize, ResultOf, DiscardWork;
    DiscardKeeps(o);
    Extends(DiscardWork(o).log, Faulted);
  }

  lemma HistoryIgnoresChild(o: OwnerState, q: Option<ProcessState>, h: Summary)
    requires HistoryMatches(o, h) && (o.process.Some? <==> q.Some?)
    ensures HistoryMatches(o.(process := q), h)
  {
  }

  lemma HistoryIgnoresSession(o: OwnerState, s: Session, h: Summary)
    requires HistoryMatches(o, h) && s.epoch == o.session.epoch
    ensures HistoryMatches(o.(session := s), h)
  {
  }

  lemma DisconnectKeeps(o: OwnerState, now: U64, e: Environment)
    requires OwnerInv(o)
    ensures var d := Disconnect(o, now, e);
      && OwnerInv(d) && !d.session.connected && d.work.operation == 0 && d.session.epoch == o.session.epoch
      && d.lastNow == o.lastNow && (o.fault ==> d.fault) && d.process == StopChild(o, now, e.stopSend).process
  {
    hide IsHistory, Summarize, ResultOf, HistoryMatches;
    var l := LeaveSession(DiscardWork(o), e.socketCloses);
    LeaveKeeps(o, e.socketCloses);
    var d := Disconnect(o, now, e);
    assert d == l.(process := StopChild(o, now, e.stopSend).process);
    if o.process.Some? { StopOnlyMarks(o.process.value, now, e.stopSend); }
    HistoryIgnoresChild(l, d.process, Summarize(l.log));
  }

  lemma FailAndDisconnectKeeps(o: OwnerState, now: U64, e: Environment)
    requires OwnerInv(o)
    ensures var d := Disconnect(Fail(o), now, e);
      && OwnerInv(d) && !d.session.connected && d.work.operation == 0 && d.session.epoch == o.session.epoch
      && d.lastNow == o.lastNow && d.fault && d.process == StopChild(o, now, e.stopSend).process
  {
    hide OwnerInv, Disconnect;
    FailKeeps(o);
    DisconnectKeeps(Fail(o), now, e);
  }

  lemma AttachKeeps(o: OwnerState, usable: bool, now: U64, e: Environment)
    requires OwnerInv(o)
    ensures OwnerInv(Attach(o, usable, now, e).0)
  {
    hide IsHistory, Summarize, ResultOf, Disconnect;
    FailAndDisconnectKeeps(o, o.lastNow, e);
    if Attach(o, usable, now, e).1 { Extends(o.log, Attached(o.session.epoch + 1)); }
  }

  // ---------- The child ----------

  lemma DeliverKeepsStop(limit: U64, s: Stream, chunk: seq<Byte>)
    requires |s.buffer| + |chunk| <= FRAME_BYTES
    ensures Deliver(limit, s, chunk).view.stopRequested == s.view.stopRequested
  {
    hide Decode;
  }

  lemma {:induction false} DrainKeepsStop(limit: U64, s: Stream, pipe: seq<Byte>, writerClosed: bool,
                                          choices: nat -> ReadChoice, k: nat, frames: nat)
    requires |s.buffer| < FRAME_BYTES
    ensures var t := Drain(limit, s, pipe, writerClosed, choices, k, frames).0;
      |t.buffer| < FRAME_BYTES && t.view.stopRequested == s.view.stopRequested
    decreases |pipe|
  {
    hide Deliver;
    if frames < MAXIMUM_FRAMES_PER_POLL && choices(k).Take? && pipe != [] {
      var m := TakeCount(choices(k).atMost, FRAME_BYTES - |s.buffer|, |pipe|);
      var t := Deliver(limit, s, pipe[..m]);
      DeliverKeepsStop(limit, s, pipe[..m]);
      DrainKeepsStop(limit, t, pipe[m..], writerClosed, choices, k + 1, if t.buffer == [] then frames + 1 else frames);
    }
  }

  /** A poll of the child observes; it neither asks it to stop nor closes anything. */
  lemma PollOnlyObserves(p: ProcessState, now: U64, pipe: seq<Byte>, i: PollInput)
    requires |p.stream.buffer| < FRAME_BYTES
    ensures var q := Poll(p, now, pipe, i).0;
      && q.launched == p.launched && q.channels == p.channels && q.limit == p.limit
      && |q.stream.buffer| < FRAME_BYTES && q.stream.view.stopRequested == p.stream.view.stopRequested
  {
    hide Drain;
    DrainKeepsStop(p.limit, p.stream, pipe, i.writerClosed, i.choices, 0, 0);
  }

  lemma ReplaceKeeps(o: OwnerState, q: ProcessState)
    requires OwnerInv(o) && o.process.Some? && ChildIsConsistent(o.work, q)
    ensures OwnerInv(o.(process := Some(q)))
  {
    hide IsHistory, Summarize, ResultOf;
  }

  lemma ReapKeeps(o: OwnerState, closed: ProcessState)
    requires OwnerInv(o) && o.process.Some?
    requires HasExited(closed) && closed.stream.eof && closed.channels.closed
    requires closed.stream.view.stopRequested == o.process.value.stream.view.stopRequested
    requires closed.limit == o.process.value.limit
    ensures OwnerInv(Reap(o, closed))
  {
    hide IsHistory, Summarize;
    Extends(o.log, ReapedChild(Launches(o.log), closed));
  }

  lemma CloseOutcome(p: ProcessState, c: Option<int>, e: Option<int>)
    requires !p.channels.closed
    ensures var (q, closed) := CloseChannels(p, c, e);
      && closed == q.channels.closed && (closed ==> HasExited(q) && q.stream.eof)
      && q.launched == p.launched && q.limit == p.limit && q.reaping == p.reaping
      && q.stream == p.stream.(ioError := q.stream.ioError)
  {
  }

  lemma CloseChildKeeps(o: OwnerState, now: U64, e: Environment)
    requires OwnerInv(o) && o.process.Some?
    ensures OwnerInv(CloseChild(o, now, e))
  {
    hide IsHistory, Summarize, Disconnect, Reap, HistoryMatches, CloseChannels, Fail;
    var (q, closed) := CloseChannels(o.process.value, e.controlClose, e.eventClose);
    CloseOutcome(o.process.value, e.controlClose, e.eventClose);
    if closed { ReapKeeps(o, q); }
    else {
      ReplaceKeeps(o, q);
      FailAndDisconnectKeeps(o.(process := Some(q)), now, e);
    }
  }

  lemma ObserveNativeKeeps(o: OwnerState, now: U64, e: Environment)
    requires OwnerInv(o)
    ensures OwnerInv(ObserveNative(o, now, e))
  {
    hide IsHistory, Summarize, Disconnect, HistoryMatches, Fail, CloseChild, Poll;
    if o.process.Some? {
      var q := Poll(o.process.value, now, e.pipe, e.poll).0;
      PollOnlyObserves(o.process.value, now, e.pipe, e.poll);
      ReplaceKeeps(o, q);
      var o1 := o.(process := Some(q));
      AfterPollKeeps(o1, now, e);
    }
  }

  lemma AfterPollKeeps(o: OwnerState, now: U64, e: Environment)
    requires OwnerInv(o) && o.process.Some?
    ensures OwnerInv(AfterPoll(o, now, e))
  {
    hide OwnerInv, Disconnect, Fail, CloseChild;
    if IsBad(o.process.value) { FailAndDisconnectKeeps(o, now, e); }
    var o1 := if IsBad(o.process.value) then Disconnect(Fail(o), now, e) else o;
    if IsFinished(o1.process.value) { CloseChildKeeps(o1, now, e); }
  }

  // ---------- Messages ----------

  lemma QueueResultKeeps(o: OwnerState, now: U64)
    requires OwnerInv(o) && o.session.connected
    ensures OwnerInv(QueueResult(o, now))
  {
    hide IsHistory, Summarize;
  }

  lemma ResultIsFinal(w: Work, seen: ProcessState)
    ensures var m := ResultOf(w, seen);
      && m.kind == P.Result && m.session == w.session && m.request == w.request && m.operation == w.operation
      && m.amount == w.amount && m.flags in {P.SUCCEEDED, P.FAILED, P.CANCELLED}
      && (m.flags == P.CANCELLED ==> seen.stream.view.stopRequested)
      && ResultOf(WorkOf(LaunchRecord(w.session, w.operation, w.amount), m.request), seen) == m
  {
  }

  lemma HandOffKeeps(o: OwnerState)
    requires OwnerInv(o) && o.session.pending.Some?
    ensures OwnerInv(HandOff(o.(session := o.session.(pending := None)), o.session.pending.value.message))
  {
    hide IsHistory, Summarize, ResultOf;
    var m := o.session.pending.value.message;
    if o.work.result == Some(m) { ResultIsFinal(o.work, Summarize(o.log).seen.value); }
    Extends(o.log, SentResult(Launches(o.log), m));
  }

  lemma FlushKeeps(o: OwnerState, now: U64, e: Environment)
    requires OwnerInv(o)
    ensures OwnerInv(Flush(o, now, e))
  {
    hide OwnerInv, Disconnect, HandOff;
    if o.session.pending.Some? { HandOffKeeps(o); }
    DisconnectKeeps(o, now, e);
  }

  lemma AnswerQueryKeeps(o: OwnerState, m: P.Message, now: U64, canLaunch: bool)
    requires OwnerInv(o) && MayReceive(o) && IsQuery(o, m) && m.request > o.session.lastRequest
    ensures OwnerInv(AnswerQuery(o, m, now, canLaunch))
  {
    hide IsHistory, Summarize;
    InactiveHasNoWork(o);
  }

  lemma InactiveHasNoWork(o: OwnerState)
    requires OwnerInv(o) && !o.session.active
    ensures o.work.operation == 0
  {
  }

  lemma AnswerActivationKeeps(o: OwnerState, m: P.Message, now: U64, canLaunch: bool)
    requires OwnerInv(o) && MayReceive(o) && IsActivation(o, m, now, canLaunch) && m.request > o.session.lastRequest
    ensures OwnerInv(AnswerActivation(o, m, now))
  {
    hide IsHistory, Summarize;
    Extends(o.log, ActivatedSession(o.session.epoch));
  }

  /** A launch from nothing either leaves nothing or a child in hand. */
  lemma LaunchOutcomeOf(amount: U64, stopGrace: U64, outcome: LaunchOutcome)
    requires 0 < amount <= MAXIMUM_ITERATIONS
    ensures var (p, launched) := Launch(NewProcess(amount, stopGrace), outcome);
      && launched == outcome.Spawned? == p.launched && p.limit == amount && !p.channels.closed
      && !p.stream.view.stopRequested && p.stream.buffer == []
  {
  }

  lemma CounterSteps(n: nat)
    ensures Increment(Wrap(n)) == Wrap(n + 1)
  {
  }

  /** The launch fits the history, and is what the history then amounts to. */
  lemma LaunchIsHistory(o: OwnerState, m: P.Message, p: ProcessState, now: U64, canLaunch: bool)
    requires OwnerInv(o) && MayReceive(o) && IsSubmission(o, m, canLaunch) && p.limit == m.amount
    ensures var t := AnswerLaunch(o.(session := o.session.(lastRequest := m.request, lastOperation := m.operation)), m,
                                  p, now);
      IsHistory(t.log) && HistoryMatches(t, Summarize(t.log))
  {
    hide IsHistory, Summarize, ResultOf, PendingIsConsistent, Wrap, Increment;
    CounterSteps(Summarize(o.log).launches);
    Extends(o.log, LaunchedChild(Launches(o.log) + 1, o.session.epoch, m.operation, m.amount));
  }

  lemma AnswerLaunchKeeps(o: OwnerState, m: P.Message, p: ProcessState, now: U64, canLaunch: bool)
    requires OwnerInv(o) && MayReceive(o) && IsSubmission(o, m, canLaunch) && m.request > o.session.lastRequest
    requires p.launched && p.limit == m.amount && !p.channels.closed && !p.stream.view.stopRequested
             && p.stream.buffer == []
    ensures OwnerInv(AnswerLaunch(o.(session := o.session.(lastRequest := m.request, lastOperation := m.operation)), m,
                                  p, now))
  {
    hide IsHistory, Summarize, ResultOf, HistoryMatches, Launches;
    LaunchIsHistory(o, m, p, now, canLaunch);
  }

  lemma AnswerSubmissionKeeps(o: OwnerState, m: P.Message, now: U64, e: Environment)
    requires OwnerInv(o) && MayReceive(o) && IsSubmission(o, m, e.canLaunch) && m.request > o.session.lastRequest
    ensures OwnerInv(AnswerSubmission(o, m, now, e))
  {
    hide IsHistory, Summarize, Disconnect, HistoryMatches, Fail, Launch, AnswerLaunch;
    var o1 := o.(session := o.session.(lastRequest := m.request, lastOperation := m.operation));
    HistoryIgnoresSession(o, o1.session, Summarize(o.log));
    FailAndDisconnectKeeps(o, now, e);
    FailAndDisconnectKeeps(o1, now, e);
    var (p, launched) := Launch(NewProcess(m.amount, o.stopGrace), e.launch);
    LaunchOutcomeOf(m.amount, o.stopGrace, e.launch);
    if launched { AnswerLaunchKeeps(o, m, p, now, e.canLaunch); }
    else {
      var r := P.Reply(P.Result, o.session.epoch, m.request).(operation := m.operation, amount := m.amount,
                                                              flags := P.NOT_LAUNCHED);
      HistoryIgnoresSession(o, Queue(o1, r, now).session, Summarize(o.log));
    }
  }

  lemma ReceiveKeeps(o: OwnerState, now: U64, e: Environment)
    requires OwnerInv(o) && MayReceive(o)
    ensures OwnerInv(Receive(o, now, e))
  {
    hide OwnerInv, Disconnect, AnswerQuery, AnswerActivation, AnswerSubmission, IsQuery, IsActivation, IsSubmission;
    DisconnectKeeps(o, now, e);
    if e.receive.Got? {
      var m := e.receive.message;
      if m.request > o.session.lastRequest {
        if IsQuery(o, m) { AnswerQueryKeeps(o, m, now, e.canLaunch); }
        else if IsActivation(o, m, now, e.canLaunch) { AnswerActivationKeeps(o, m, now, e.canLaunch); }
        else if IsSubmission(o, m, e.canLaunch) { AnswerSubmissionKeeps(o, m, now, e); }
      }
    }
  }

  lemma CheckClockKeeps(o: OwnerState, now: U64, e: Environment)
    requires OwnerInv(o)
    ensures OwnerInv(CheckClock(o, now, e))
  {
    hide IsHistory, Summarize, Disconnect, Fail;
    FailAndDisconnectKeeps(o, o.lastNow, e);
  }

  lemma RoomIsKept(o: OwnerState)
    requires OwnerInv(o)
    ensures HasRoom(o)
  {
  }

  /** Every poll, whatever the environment answers, keeps the owner's invariant. */
  lemma PollKeeps(o: OwnerState, now: U64, e: Environment)
    requires OwnerInv(o)
    ensures HasRoom(o) && OwnerInv(PollOwner(o, now, e))
  {
    hide OwnerInv, CheckClock, ObserveNative, QueueResult, Flush, Receive, HasRoom;
    RoomIsKept(o);
    var t := PollTime(o, now);
    CheckClockKeeps(o, now, e);
    var o0 := CheckClock(o, now, e);
    RoomIsKept(o0);
    ObserveNativeKeeps(o0, t, e);
    var o1 := ObserveNative(o0, t, e);
    if o1.session.connected { QueueResultKeeps(o1, t); }
    var o2 := BeforeSending(o, now, e);
    FlushKeeps(o2, t, e);
    var o3 := Flush(o2, t, e);
    if o3.session.connected { QueueResultKeeps(o3, t); }
    var o4 := BeforeReceiving(o, now, e);
    if MayReceive(o4) { ReceiveKeeps(o4, t, e); }
  }
}
