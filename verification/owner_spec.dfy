/**
 The surviving owner as functions on its state: attaching hosts, supervising at most one child,
 answering requests and handing results off. `Owner` (recovery_owner.dfy) refines them; `log`
 is the history the theorems speak of.
 */
module OwnerSpec {
  import opened Machine
  import opened Sums
  import opened Frames
  import opened ProcessSpec
  import P = RecoveryProtocol
  import opened RecoveryProtocol

  /** What the owner has done. Children are numbered by launch, from one. */
  datatype Event =
    | Attached(session: U64)
    | ActivatedSession(session: U64)
    | LaunchedChild(number: nat, session: U64, operation: U64, amount: U64)
    | ReapedChild(number: nat, seen: ProcessState)
    | SentResult(number: nat, result: Message)
    | DiscardedResult(number: nat)
    | Faulted

  datatype Pending = Pending(message: Message, at: U64)

  datatype Session = Session(
    connected: bool,
    epoch: U64,
    active: bool,
    lastRequest: U64,
    lastOperation: U64,
    clearToken: U64,
    clearTokenAt: U64,
    pending: Option<Pending>)

  datatype Work = Work(
    operation: U64,
    session: U64,
    request: U64,
    amount: U64,
    handedOff: bool,
    discarded: bool,
    result: Option<Message>)

  datatype Counters = Counters(launches: U64, discardedResults: U64)

  datatype OwnerState = OwnerState(
    stopGrace: U64,
    session: Session,
    work: Work,
    process: Option<ProcessState>,
    lastNow: U64,
    clockSeen: bool,
    fault: bool,
    counters: Counters,
    log: seq<Event>)

  function NewOwner(stopGrace: U64): OwnerState {
    OwnerState(stopGrace, Session(false, 1, false, 0, 0, 0, 0, None), Work(0, 0, 0, 0, false, false, None),
               None, 0, false, false, Counters(0, 0), [])
  }

  /** What the environment answers during one call of the owner. */
  datatype Environment = Environment(
    canLaunch: bool,
    pipe: seq<Byte>,
    poll: PollInput,
    controlClose: Option<int>,
    eventClose: Option<int>,
    stopSend: Option<int>,
    socketCloses: bool,
    send: SendOutcome,
    receive: ReceiveOutcome,
    allocates: bool,
    launch: LaunchOutcome)

  // ---------- History ----------

  datatype LaunchRecord = LaunchRecord(session: U64, operation: U64, amount: U64)

  /** What a history amounts to. */
  datatype Summary = Summary(
    launches: nat,
    reaps: nat,
    sent: nat,
    discarded: nat,
    faulted: bool,
    session: U64,
    last: Option<LaunchRecord>,
    seen: Option<ProcessState>)

  const BEGINNING := Summary(0, 0, 0, 0, false, 1, None, None)

  function Add(h: Summary, e: Event): Summary {
    match e
    case Attached(session) => h.(session := session)
    case ActivatedSession(_) => h
    case LaunchedChild(_, session, operation, amount) =>
      h.(launches := h.launches + 1, last := Some(LaunchRecord(session, operation, amount)))
    case ReapedChild(_, seen) => h.(reaps := h.reaps + 1, seen := Some(seen))
    case SentResult(_, _) => h.(sent := h.sent + 1)
    case DiscardedResult(_) => h.(discarded := h.discarded + 1)
    case Faulted => h.(faulted := true)
  }

  function Summarize(log: seq<Event>): Summary {
    if log == [] then BEGINNING else Add(Summarize(log[..|log| - 1]), log[|log| - 1])
  }

  function Launches(log: seq<Event>): nat {
    Summarize(log).launches
  }

  function Note(o: OwnerState, e: Event): OwnerState {
    o.(log := o.log + [e])
  }

  function Fail(o: OwnerState): OwnerState {
    if o.fault then o else Note(o.(fault := true), Faulted)
  }

  // ---------- Observation ----------

  predicate IsBad(p: ProcessState) {
    p.reaping.ownershipLost || p.stream.view.malformed || p.stream.ioError != 0
  }

  predicate IsFinished(p: ProcessState) {
    HasExited(p) && p.stream.eof
  }

  /** Nothing is left of any earlier work. */
  predicate IsClear(o: OwnerState, canLaunch: bool) {
    && !o.fault && canLaunch
    && (o.process.Some? ==>
          IsFinished(o.process.value) && o.process.value.channels.closed && !IsBad(o.process.value))
  }

  // ---------- Disconnecting ----------

  function StopChild(o: OwnerState, now: U64, sendError: Option<int>): OwnerState {
    if o.process.Some? && o.process.value.launched && !HasExited(o.process.value) then
      o.(process := Some(RequestStop(o.process.value, now, sendError)))
    else o
  }

  /** A result nobody will receive is counted once. */
  function DiscardWork(o: OwnerState): OwnerState {
    if o.work.operation != 0 && !o.work.handedOff && !o.work.discarded then
      Note(o.(work := o.work.(discarded := true),
              counters := o.counters.(discardedResults := Increment(o.counters.discardedResults))),
           DiscardedResult(Launches(o.log)))
    else o
  }

  function LeaveSession(o: OwnerState, socketCloses: bool): OwnerState {
    var left := o.(work := o.work.(operation := 0, handedOff := false, result := None),
                   session := o.session.(connected := false, active := false, clearToken := 0, pending := None));
    if o.session.connected && !socketCloses then Fail(left) else left
  }

  function Disconnect(o: OwnerState, now: U64, e: Environment): OwnerState {
    LeaveSession(DiscardWork(StopChild(o, now, e.stopSend)), e.socketCloses)
  }

  // ---------- Attaching ----------

  /** `usable` is whether the descriptor is a socket that can be marked close-on-exec. */
  function Attach(o: OwnerState, usable: bool, now: U64, e: Environment): (OwnerState, bool) {
    var backwards := o.clockSeen && now < o.lastNow;
    if o.session.connected || o.fault || o.session.epoch == MAX_U64 || backwards || !usable || !e.canLaunch then
      (if backwards || o.session.epoch == MAX_U64 then Disconnect(Fail(o), o.lastNow, e) else o, false)
    else
      var epoch := o.session.epoch + 1;
      (Note(o.(session := Session(true, epoch, false, 0, 0, 0, 0, Some(Pending(Reply(Hello, epoch, 0), now))),
               lastNow := now, clockSeen := true),
            Attached(epoch)),
       true)
  }

  // ---------- The child ----------

  /** What the reaped child's report amounts to for the request it was launched for. */
  function ResultOf(w: Work, seen: ProcessState): Message {
    var m := Reply(P.Result, w.session, w.request).(operation := w.operation, amount := w.amount);
    var v := seen.stream.view;
    if seen.reaping.exit == Some(ExitedWith(0)) && v.terminal == CompletedTerminal
       && v.terminalIterations == w.amount then m.(flags := SUCCEEDED, value := v.terminalValue)
    else if seen.reaping.exit == Some(ExitedWith(CANCELLED_EXIT_CODE)) && v.stopRequested
            && v.terminal == CancelledTerminal && v.terminalIterations <= w.amount then m.(flags := P.CANCELLED)
    else m.(flags := FAILED)
  }

  function Reap(o: OwnerState, closed: ProcessState): OwnerState {
    var reaped := Note(o.(process := None), ReapedChild(Launches(o.log), closed));
    if o.work.operation == 0 || !o.session.connected then reaped
    else reaped.(work := o.work.(result := Some(ResultOf(o.work, closed))))
  }

  function CloseChild(o: OwnerState, now: U64, e: Environment): OwnerState
    requires o.process.Some?
  {
    var (q, closed) := CloseChannels(o.process.value, e.controlClose, e.eventClose);
    if closed then Reap(o, q) else Disconnect(Fail(o.(process := Some(q))), now, e)
  }

  function AfterPoll(o: OwnerState, now: U64, e: Environment): OwnerState
    requires o.process.Some?
  {
    var o1 := if IsBad(o.process.value) then Disconnect(Fail(o), now, e) else o;
    if IsFinished(o1.process.value) then CloseChild(o1, now, e) else o1
  }

  predicate HasRoom(o: OwnerState) {
    o.process.Some? ==> |o.process.value.stream.buffer| < FRAME_BYTES
  }

  function ObserveNative(o: OwnerState, now: U64, e: Environment): OwnerState
    requires HasRoom(o)
  {
    if o.process.None? then o
    else AfterPoll(o.(process := Some(Poll(o.process.value, now, e.pipe, e.poll).0)), now, e)
  }

  // ---------- Messages ----------

  function Queue(o: OwnerState, m: Message, now: U64): OwnerState {
    o.(session := o.session.(pending := Some(Pending(m, now))))
  }

  /** A result waits for the channel to be free. */
  function QueueResult(o: OwnerState, now: U64): OwnerState {
    if o.session.pending.None? && o.work.result.Some? then Queue(o, o.work.result.value, now) else o
  }

  predicate Sends(o: OwnerState, now: U64, e: Environment) {
    && o.session.pending.Some? && o.session.connected
    && Elapsed(o.session.pending.value.at, now) < EVIDENCE_LIFETIME_MS && e.send == Done
  }

  function HandOff(o: OwnerState, m: Message): OwnerState {
    if m.kind != P.Result then o
    else
      var sent := if m.flags == NOT_LAUNCHED then o else Note(o, SentResult(Launches(o.log), m));
      sent.(work := o.work.(handedOff := true, operation := 0, result := None))
  }

  function Flush(o: OwnerState, now: U64, e: Environment): OwnerState {
    if o.session.pending.None? || !o.session.connected then o
    else if Elapsed(o.session.pending.value.at, now) >= EVIDENCE_LIFETIME_MS || e.send == PeerClosed then
      Disconnect(o, now, e)
    else if e.send == Done then
      HandOff(o.(session := o.session.(pending := None)), o.session.pending.value.message)
    else o
  }

  predicate IsQuery(o: OwnerState, m: Message) {
    m.kind == P.Query && !o.session.active && HasEmptyPayload(m)
  }

  predicate IsActivation(o: OwnerState, m: Message, now: U64, canLaunch: bool) {
    && m.kind == P.Activate && !o.session.active && m.operation == 0 && m.amount == 0 && m.flags == 0
    && o.session.clearToken != 0 && m.value == o.session.clearToken
    && Elapsed(o.session.clearTokenAt, now) < EVIDENCE_LIFETIME_MS && IsClear(o, canLaunch)
  }

  predicate IsSubmission(o: OwnerState, m: Message, canLaunch: bool) {
    && m.kind == P.Submit && o.session.active && o.work.operation == 0 && m.operation > o.session.lastOperation
    && 0 < m.amount <= MAXIMUM_ITERATIONS && m.value == 0 && m.flags == 0 && IsClear(o, canLaunch)
  }

  function AnswerQuery(o: OwnerState, m: Message, now: U64, canLaunch: bool): OwnerState {
    var clear := IsClear(o, canLaunch);
    var snapshot := Reply(P.Snapshot, o.session.epoch, m.request);
    var s := o.session.(lastRequest := m.request, clearToken := if clear then m.request else 0,
                        clearTokenAt := if clear then now else o.session.clearTokenAt);
    Queue(o.(session := s), if clear then snapshot.(flags := CLEAR) else snapshot, now)
  }

  function AnswerActivation(o: OwnerState, m: Message, now: U64): OwnerState {
    var s := o.session.(lastRequest := m.request, active := true, clearToken := 0);
    Queue(Note(o.(session := s), ActivatedSession(s.epoch)),
          Reply(P.Activated, s.epoch, m.request).(value := m.value), now)
  }

  function AnswerLaunch(o: OwnerState, m: Message, p: ProcessState, now: U64): OwnerState {
    var s := o.session;
    var started := Note(o.(work := Work(m.operation, s.epoch, m.request, m.amount, false, false, None),
                           process := Some(p),
                           counters := o.counters.(launches := Increment(o.counters.launches))),
                        LaunchedChild(Launches(o.log) + 1, s.epoch, m.operation, m.amount));
    Queue(started, Reply(P.Accepted, s.epoch, m.request).(operation := m.operation, amount := m.amount), now)
  }

  function AnswerSubmission(o: OwnerState, m: Message, now: U64, e: Environment): OwnerState {
    if !e.allocates then Disconnect(Fail(o), now, e)
    else
      var (p, launched) := Launch(NewProcess(m.amount, o.stopGrace), e.launch);
      var o1 := o.(session := o.session.(lastRequest := m.request, lastOperation := m.operation));
      if IsBad(p) then Disconnect(Fail(o1), now, e)
      else if !launched then
        Queue(o1, Reply(P.Result, o.session.epoch, m.request)
                    .(operation := m.operation, amount := m.amount, flags := NOT_LAUNCHED), now)
      else AnswerLaunch(o1, m, p, now)
  }

  function Answer(o: OwnerState, m: Message, now: U64, e: Environment): OwnerState {
    if m.session != o.session.epoch || m.request == 0 || m.request <= o.session.lastRequest then Disconnect(o, now, e)
    else if IsQuery(o, m) then AnswerQuery(o, m, now, e.canLaunch)
    else if IsActivation(o, m, now, e.canLaunch) then AnswerActivation(o, m, now)
    else if IsSubmission(o, m, e.canLaunch) then AnswerSubmission(o, m, now, e)
    else Disconnect(o, now, e)
  }

  function Receive(o: OwnerState, now: U64, e: Environment): OwnerState {
    match e.receive
    case NothingThere => o
    case NoPeer => Disconnect(o, now, e)
    case Got(m) => Answer(o, m, now, e)
  }

  // ---------- Polling ----------

  predicate ClockRuns(o: OwnerState, now: U64) {
    !(o.clockSeen && now < o.lastNow)
  }

  /** The time a poll works with: a clock that runs backwards is not believed. */
  function PollTime(o: OwnerState, now: U64): U64 {
    if ClockRuns(o, now) then now else o.lastNow
  }

  function CheckClock(o: OwnerState, now: U64, e: Environment): OwnerState {
    if ClockRuns(o, now) then o.(lastNow := now, clockSeen := true) else Disconnect(Fail(o), o.lastNow, e)
  }

  lemma CheckClockKeepsRoom(o: OwnerState, now: U64, e: Environment)
    requires HasRoom(o)
    ensures HasRoom(CheckClock(o, now, e))
  {
  }

  /** A poll up to its first message. */
  function BeforeSending(o: OwnerState, now: U64, e: Environment): OwnerState
    requires HasRoom(o)
  {
    CheckClockKeepsRoom(o, now, e);
    var o1 := ObserveNative(CheckClock(o, now, e), PollTime(o, now), e);
    if o1.session.connected then QueueResult(o1, PollTime(o, now)) else o1
  }

  /** A poll up to the point where it may receive. */
  function BeforeReceiving(o: OwnerState, now: U64, e: Environment): OwnerState
    requires HasRoom(o)
  {
    var o1 := Flush(BeforeSending(o, now, e), PollTime(o, now), e);
    if o1.session.connected then QueueResult(o1, PollTime(o, now)) else o1
  }

  predicate MayReceive(o: OwnerState) {
    o.session.connected && o.session.pending.None?
  }

  function PollOwner(o: OwnerState, now: U64, e: Environment): OwnerState
    requires HasRoom(o)
  {
    var o1 := BeforeReceiving(o, now, e);
    if MayReceive(o1) then Receive(o1, PollTime(o, now), e) else o1
  }

  /** The message a poll sends, if it does. */
  function SentBy(o: OwnerState, now: U64, e: Environment): Option<Message>
    requires HasRoom(o)
  {
    var o1 := BeforeSending(o, now, e);
    if Sends(o1, PollTime(o, now), e) then Some(o1.session.pending.value.message) else None
  }

  /** Whether a poll takes the message offered to it. */
  predicate Takes(o: OwnerState, now: U64, e: Environment)
    requires HasRoom(o)
  {
    MayReceive(BeforeReceiving(o, now, e)) && e.receive.Got?
  }
}
