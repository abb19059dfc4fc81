/**
 The compute execution host as functions on its state: a gate and the process of one child, driven
 together. Every gate call goes through `Ask` or `Report`; every clock reading through `Read`.
 `ComputeExecutionHost` (compute_host.dfy) refines these functions.
 */
module HostSpec {
  import opened Machine
  import opened Sums
  import opened Frames
  import opened GateTypes
  import opened GateSpec
  import PS = ProcessSpec
  import opened ProcessSpec

  const COMPUTE_CAPABILITY := "compute.periodic-square-sum"
  const OBSERVER := "compute-adapter"
  const RESULT_SINK := "compute-result-sink"
  const NATIVE := "compute-process"
  const STOP := "compute-control"
  const CLEANUP_SCOPE := "child-exit-output-and-channels"
  const PROVIDER := "local-compute-process"
  const PROFILE := "host-polled-local-compute-v1"
  const MAXIMUM_TEXT: nat := 128

  datatype Shutdown = ShutdownOpen | ShutdownClosing | ShutdownClosed | ShutdownUnresolved

  datatype ComputeRequest = ComputeRequest(reference: string, iterations: U64, deadline: Option<U64>, profileId: string)

  datatype ComputeResult = ComputeResult(operationId: U64, reference: string, iterations: U64, sum: U64)

  datatype Flags = Flags(initialized: bool, stopReported: bool, outcomeReported: bool, evidenceError: bool)

  /**
   `readings` are what the steady clock will still show during the current call; `wrapped` remembers
   whether the evidence counter has ever run through.
   */
  datatype HostState = HostState(
    maximumIterations: U64,
    stopGrace: U64,
    worker: string,
    gate: GateState,
    process: Option<ProcessState>,
    authority: Option<OperationAuthority>,
    request: Option<ComputeRequest>,
    result: Option<ComputeResult>,
    sequence: U64,
    wrapped: bool,
    flags: Flags,
    shutdown: Shutdown,
    now: U64,
    readings: seq<U64>)

  /** What the system answers during one call, apart from the clock. */
  datatype HostInput = HostInput(
    canLaunch: bool,
    launch: LaunchOutcome,
    pipe: seq<Byte>,
    poll: PollInput,
    stopSend: Option<int>,
    controlClose: Option<int>,
    eventClose: Option<int>)

  function ConfigOf(domain: string, generation: U64, now: U64): GateConfig {
    GateConfig(BindingIdentity(PROVIDER, domain, 1, generation), COMPUTE_CAPABILITY, OBSERVER, OBSERVER, RESULT_SINK,
               NATIVE, OBSERVER, CLEANUP_SCOPE, now, STOP, AdapterReady, OBSERVER)
  }

  function NewHost(maximum: U64, stopGrace: U64, worker: string, domain: string, generation: U64, now: U64): HostState {
    HostState(maximum, stopGrace, worker, InitialGate(ConfigOf(domain, generation, now)), None, None, None, None, 0,
              false,
              Flags(false, false, false, false), ShutdownOpen, now, [])
  }

  // ---------- Reading, asking, reporting ----------

  /** The next reading of a clock that never runs backwards. */
  function Read(s: HostState): HostState {
    if s.readings == [] then s else s.(now := Max(s.now, s.readings[0]), readings := s.readings[1..])
  }

  function Ask(s: HostState, c: Call): HostState {
    s.(gate := Asked(s.gate, c))
  }

  /** Evidence the gate rejects is remembered as an error. */
  function Report(s: HostState, c: Call): HostState {
    Ask(s, c).(flags := s.flags.(evidenceError := s.flags.evidenceError || AnswerOf(s.gate, c) == Evidence(Rejected)))
  }

  function Numbered(s: HostState): HostState {
    s.(sequence := Increment(s.sequence), wrapped := s.wrapped || s.sequence == MAX_U64)
  }

  function RecordBy(s: HostState, source: string, time: U64): EvidenceRecord {
    EvidenceRecord(source, time, Increment(s.sequence))
  }

  function Expiry(time: U64): U64 {
    if time > MAX_U64 - 1000 then MAX_U64 else time + 1000
  }

  /** The receipt of the operation in hand. */
  function CurrentReceipt(s: HostState): Option<OperationReceipt> {
    if s.authority.Some? && s.gate.receipt.Some? && s.gate.receipt.value.authority == s.authority.value
    then s.gate.receipt
    else None
  }

  predicate IsLaunched(s: HostState) {
    s.process.Some? && s.process.value.launched
  }

  function StopProcess(s: HostState, should: bool, time: U64, i: HostInput): HostState {
    if should && IsLaunched(s) then s.(process := Some(RequestStop(s.process.value, time, i.stopSend))) else s
  }

  function ShouldRequestStop(a: Answer): bool {
    a.Control? && a.control.shouldRequestNativeStop
  }

  /** The deadline, as far as this time tells. */
  function Expire(s: HostState, time: U64, i: HostInput): HostState {
    if s.authority.None? then s
    else
      var c := CallObserveTime(s.authority.value, time);
      StopProcess(Ask(s, c), ShouldRequestStop(AnswerOf(s.gate, c)), time, i)
  }

  function ExpireNow(s: HostState, i: HostInput): HostState {
    var t := Read(s);
    Expire(t, t.now, i)
  }

  // ---------- What never ran ----------

  function ReportSettlement(s: HostState, time: U64): HostState
    requires s.authority.Some?
  {
    Report(Numbered(s), CallObserveSettlement(SettlementEvidence(s.authority.value, CLEANUP_SCOPE, true,
                                                                 RecordBy(s, OBSERVER, time))))
  }

  function ReportNoOutput(s: HostState, time: U64): HostState
    requires s.authority.Some?
  {
    Report(Numbered(s), CallObserveNonDelivery(NonDeliveryEvidence(s.authority.value, NoOutputProduced, "",
                                                                   RecordBy(s, OBSERVER, time))))
  }

  function SettleUnsubmitted(s: HostState, cleanupConfirmed: bool): HostState
    requires s.authority.Some?
  {
    var s1 := Read(s);
    var s2 := Report(Numbered(s1),
                     CallObserveNonSubmission(NonSubmissionEvidence(s1.authority.value,
                                                                    RecordBy(s1, OBSERVER, s1.now))));
    var s3 := ReportNoOutput(s2, s1.now);
    if cleanupConfirmed then ReportSettlement(s3, s1.now) else s3.(flags := s3.flags.(evidenceError := true))
  }

  predicate IsPending(r: Option<OperationReceipt>) {
    r.Some? && r.value.dispatch.status == DispatchPending
  }

  function Withdraw(s: HostState, expected: BindingIdentity, i: HostInput): (HostState, BindingDecision) {
    var s1 := Read(s);
    var d := GateSpec.WithdrawBinding(s1.gate, expected, s1.now).1;
    var s2 := Ask(s1, CallWithdraw(expected, s1.now));
    if d.status != Applied then (s2, d)
    else
      var stops := d.nativeStopAuthority.Some? && d.nativeStopAuthority == s2.authority;
      var s3 := StopProcess(s2, stops, s1.now, i);
      (if IsPending(CurrentReceipt(s3)) then SettleUnsubmitted(s3, true) else s3, d)
  }

  function ObserveLaunchable(s: HostState, time: U64, i: HostInput): (HostState, bool) {
    if s.gate.phase != Active then (s, false)
    else
      var active := s.gate.config.binding;
      var offer := ExecutionCapabilities(active, COMPUTE_CAPABILITY, PROFILE, s.maximumIterations, i.canLaunch,
                                         RecordBy(s, OBSERVER, time), Expiry(time));
      var t := Report(Numbered(s), CallObserveCapabilities(offer));
      (if s.flags.initialized && !i.canLaunch then Withdraw(t, active, i).0 else t, i.canLaunch)
  }

  // ---------- Preparing and dispatching ----------

  predicate IsRequest(q: ComputeRequest) {
    && q.reference != "" && |q.reference| <= MAXIMUM_TEXT && 0 < q.iterations <= MAXIMUM_ITERATIONS
    && q.profileId != "" && |q.profileId| <= MAXIMUM_TEXT
  }

  function OperationFor(s: HostState, q: ComputeRequest): OperationRequest {
    OperationRequest(COMPUTE_CAPABILITY, s.gate.config.binding.effectDomain, q.reference, RESULT_SINK, s.now,
                     q.deadline,
                     Some(ExecutionRequirements(q.profileId, q.iterations)))
  }

  datatype SubmissionStatus =
    | PreparedSubmission | SubmittedWork | InvalidSubmission | BlockedSubmission | NotSubmittedWork

  datatype ComputeSubmission = ComputeSubmission(status: SubmissionStatus, admission: AdmissionStatus,
                                                 authority: Option<OperationAuthority>)

  /** A request admitted replaces whatever was in hand: the process, the result and the request. */
  function TakeUp(s: HostState, authority: OperationAuthority, q: ComputeRequest): HostState {
    s.(process := None, result := None, authority := Some(authority), request := Some(q),
       flags := s.flags.(stopReported := false, outcomeReported := false))
  }

  /** What is known just before a request is put to the gate. */
  function TakeStock(s: HostState, i: HostInput): HostState {
    var t := Read(s);
    Read(Read(ObserveLaunchable(t, t.now, i).0))
  }

  function Prepare(s: HostState, q: ComputeRequest, i: HostInput): (HostState, ComputeSubmission) {
    if !IsRequest(q) then (s, ComputeSubmission(InvalidSubmission, InvalidRequest, None))
    else if s.flags.evidenceError then (s, ComputeSubmission(BlockedSubmission, AdmissionRecoveryRequired, None))
    else if s.shutdown != ShutdownOpen then (s, ComputeSubmission(BlockedSubmission, AdmissionClosed, None))
    else
      var s2 := TakeStock(s, i);
      var d := GateSpec.Admit(s2.gate, OperationFor(s2, q)).1;
      var s3 := Ask(s2, CallAdmit(OperationFor(s2, q)));
      if d.authority.None? then (s3, ComputeSubmission(BlockedSubmission, d.status, None))
      else (TakeUp(s3, d.authority.value, q), ComputeSubmission(PreparedSubmission, d.status, d.authority))
  }

  function NativeIdentity(operationId: U64): (s: string)
    ensures s != ""
  {
    "compute-child-" + Decimal(operationId)
  }

  function ResultReference(operationId: U64): (s: string)
    ensures s != ""
  {
    "compute-result-" + Decimal(operationId)
  }

  function ReportNative(s: HostState, kind: NativeEventKind, time: U64): HostState
    requires s.authority.Some?
  {
    Report(Numbered(s), CallObserveNative(NativeEvidence(s.authority.value,
                                                         NativeIdentity(s.authority.value.operationId), kind,
                                                         RecordBy(s, NATIVE, time))))
  }

  function LaunchProcess(s: HostState, i: HostInput): (HostState, bool)
    requires s.request.Some?
  {
    var (p, ok) := Launch(NewProcess(s.request.value.iterations, s.stopGrace), i.launch);
    (s.(process := Some(p)), ok)
  }

  /** The end of a dispatch, once the deadline has been looked at: a claim, a launch, a report. */
  function DispatchFrom(s: HostState, authority: OperationAuthority, i: HostInput): (HostState, bool)
    requires s.authority.Some? && s.request.Some?
  {
    var claim := CallClaimDispatch(authority, s.now);
    if s.flags.evidenceError then (SettleUnsubmitted(s, true), false)
    else if AnswerOf(s.gate, claim) != GateSpec.Dispatch(true) then (SettleUnsubmitted(Ask(s, claim), true), false)
    else
      var (t, launched) := LaunchProcess(Ask(s, claim), i);
      if !launched then (SettleUnsubmitted(t, t.process.value.stream.ioError == 0), false)
      else
        var u := Read(t);
        (ReportNative(u, AcceptedEvent, u.now), true)
  }

  function Dispatch(s: HostState, authority: OperationAuthority, i: HostInput): (HostState, bool) {
    if s.authority != Some(authority) || s.request.None? || s.process.Some? then (s, false)
    else
      var s1 := Read(s);
      var s2 := ObserveLaunchable(s1, s1.now, i).0;
      if !IsPending(CurrentReceipt(s2)) then (s2, false)
      else
        var s3 := Read(s2);
        var s4 := Expire(s3, s3.now, i);
        if s4.authority.None? || s4.request.None? then (s4, false) else DispatchFrom(s4, authority, i)
  }

  // ---------- Control ----------

  function CancelFor(s: HostState, authority: OperationAuthority, i: HostInput): (HostState, Answer) {
    var s1 := Read(s);
    var c := CallRequestCancel(authority, s1.now);
    var answer := AnswerOf(s1.gate, c);
    var s2 := StopProcess(Ask(s1, c), ShouldRequestStop(answer), s1.now, i);
    var applied := answer.Control? && answer.control.status == ControlApplied;
    (if applied && s2.authority == Some(authority) && IsPending(CurrentReceipt(s2)) then SettleUnsubmitted(s2, true)
     else s2, answer)
  }

  // ---------- Polling ----------

  function ReportStarted(s: HostState): HostState
    requires s.process.Some? && s.authority.Some?
  {
    var r := CurrentReceipt(s);
    if s.process.value.stream.view.started && r.Some? && r.value.native.started.None? then
      var t := Read(s);
      ReportNative(t, StartedEvent, t.now)
    else s
  }

  function StopOutcome(p: ProcessState): StopAcknowledgement {
    if !p.stopping.delivered then Unavailable else if p.stream.view.stopIgnored then Refused else Acknowledged
  }

  predicate HasStopOutcome(p: ProcessState) {
    var v := p.stream.view;
    v.stopRequested && (!p.stopping.delivered || v.stopAcknowledged || v.stopIgnored)
  }

  function ReportStop(s: HostState): HostState
    requires s.process.Some? && s.authority.Some?
  {
    if s.flags.stopReported || !HasStopOutcome(s.process.value) then s
    else
      var t := Read(s);
      var e := StopAcknowledgementEvidence(t.authority.value, StopOutcome(s.process.value), RecordBy(t, STOP, t.now));
      var u := Report(Numbered(t), CallObserveStop(e));
      u.(flags := u.flags.(stopReported := true))
  }

  predicate IsDone(p: ProcessState) {
    HasExited(p) && p.stream.eof && !p.reaping.ownershipLost
  }

  predicate IsClean(p: ProcessState) {
    !p.stream.view.malformed && p.stream.ioError == 0
  }

  predicate Succeeded(p: ProcessState, iterations: U64) {
    && IsClean(p) && p.reaping.exit == Some(ExitedWith(0)) && p.stream.view.terminal == CompletedTerminal
    && p.stream.view.terminalIterations == iterations && p.stream.view.terminalValue == ExpectedSum(iterations)
  }

  predicate WasCancelled(p: ProcessState, iterations: U64) {
    && IsClean(p) && p.reaping.exit == Some(ExitedWith(CANCELLED_EXIT_CODE)) && p.stream.view.stopRequested
    && p.stream.view.terminal == CancelledTerminal && p.stream.view.terminalIterations < iterations
  }

  function OutcomeOf(p: ProcessState, iterations: U64): NativeEventKind {
    if Succeeded(p, iterations) then TerminalSucceeded
    else if WasCancelled(p, iterations) then TerminalCancelled
    else TerminalFailed
  }

  /** The result is kept and reported in one go. */
  function Deliver(s: HostState, sum: U64, time: U64): HostState
    requires s.authority.Some? && s.request.Some?
  {
    var id := s.authority.value.operationId;
    var t := s.(result := Some(ComputeResult(id, s.request.value.reference, s.request.value.iterations, sum)));
    Report(Numbered(t), CallObserveOutput(OutputEvidence(s.authority.value, ResultReference(id),
                                                         RecordBy(s, RESULT_SINK, time))))
  }

  function Withhold(s: HostState, time: U64): HostState
    requires s.authority.Some?
  {
    var e := NonDeliveryEvidence(s.authority.value, AuthorityRevoked, ResultReference(s.authority.value.operationId),
                                 RecordBy(s, RESULT_SINK, time));
    Report(Numbered(s), CallObserveNonDelivery(e))
  }

  /** The outcome of a finished child, and what becomes of its output. */
  function ReportOutcome(s: HostState, i: HostInput): HostState
    requires s.process.Some? && s.authority.Some? && s.request.Some?
  {
    var t := ExpireNow(s, i);
    var p, n := t.process.value, t.request.value.iterations;
    var u := ReportNative(t, OutcomeOf(p, n), t.now);
    var v := if Succeeded(p, n) then DeliverOrWithhold(u, p.stream.view.terminalValue, i) else ReportNoOutput(u, t.now);
    v.(flags := v.flags.(outcomeReported := true))
  }

  function DeliverOrWithhold(s: HostState, sum: U64, i: HostInput): HostState
    requires s.authority.Some? && s.request.Some?
  {
    var t := Read(s);
    var u := Expire(t, t.now, i);
    if !u.flags.evidenceError && CanDeliverResult(u.gate, u.authority.value) then Deliver(u, sum, t.now)
    else Withhold(u, t.now)
  }

  /** Channels closed, and only then the work settled. */
  function CloseAndSettle(s: HostState, i: HostInput): HostState
    requires s.process.Some? && s.authority.Some?
  {
    var (p, closed) := CloseChannels(s.process.value, i.controlClose, i.eventClose);
    var t := s.(process := Some(p));
    var r := CurrentReceipt(t);
    if closed && !t.flags.evidenceError && r.Some? && r.value.settlement.None? then
      var u := Read(t);
      ReportSettlement(u, u.now)
    else t
  }

  function Finish(s: HostState, i: HostInput): HostState
    requires s.process.Some? && s.authority.Some? && s.request.Some?
  {
    if !IsDone(s.process.value) then s
    else
      var t := if s.flags.outcomeReported then s else ReportOutcome(s, i);
      if t.process.Some? && t.authority.Some? then CloseAndSettle(t, i) else t
  }

  predicate OwnsNothing(s: HostState) {
    s.process.None? || !s.process.value.launched || s.process.value.channels.closed
  }

  function UpdateShutdown(s: HostState): HostState {
    if s.shutdown == ShutdownOpen then s
    else
      var r := CurrentReceipt(s);
      var settled := s.authority.None? || (r.Some? && r.value.settlement.Some?);
      var stuck := s.process.Some?
        && (s.process.value.reaping.ownershipLost
            || (!OwnsNothing(s) && (s.process.value.stream.ioError != 0
                                    || s.process.value.stopping.terminationError != 0)));
      if s.flags.evidenceError || stuck then s.(shutdown := ShutdownUnresolved)
      else if settled && OwnsNothing(s) then s.(shutdown := ShutdownClosed)
      else s
  }

  predicate HasRoom(s: HostState) {
    s.process.Some? ==> |s.process.value.stream.buffer| < FRAME_BYTES
  }

  /** A provider that no longer supports the work in hand is withdrawn from. */
  function CheckSupport(s: HostState, i: HostInput): HostState {
    var s1 := Read(s);
    if s.shutdown != ShutdownOpen || s1.gate.phase != Active || s.request.None? then s1
    else
      var s2 := Read(s1);
      var q := ExecutionRequirements(s.request.value.profileId, s.request.value.iterations);
      if SupportsExecution(s2.gate, q, s2.now) then s2 else Withdraw(s2, s2.gate.config.binding, i).0
  }

  function PollProcess(s: HostState, i: HostInput): HostState {
    var t := Read(s);
    if t.process.None? || !HasRoom(t) then t else t.(process := Some(PS.Poll(t.process.value, t.now, i.pipe, i.poll).0))
  }

  predicate IsTroubled(p: ProcessState) {
    p.stream.view.malformed || p.stream.ioError != 0 || p.reaping.ownershipLost
  }

  /** Everything known of the running child is taken in. */
  /** What a child that was polled has brought to light, and its end. */
  function Respond(s: HostState, i: HostInput): HostState
    requires s.process.Some? && s.authority.Some? && s.request.Some?
  {
    var t := if IsTroubled(s.process.value) then CancelFor(s, s.authority.value, i).0 else s;
    if t.process.None? || t.authority.None? || t.request.None? then t
    else
      var u := ReportStop(ReportStarted(t));
      if u.process.None? || u.authority.None? || u.request.None? then u else Finish(u, i)
  }

  function Attend(s: HostState, i: HostInput): HostState {
    var t := PollProcess(CheckSupport(s, i), i);
    if t.process.None? || t.authority.None? || t.request.None? then t else Respond(t, i)
  }

  function ExpirePrepared(s: HostState, i: HostInput): HostState {
    var s1 := Read(s);
    var s2 := Expire(s1, s1.now, i);
    var r := CurrentReceipt(s2);
    if s2.process.None? && IsPending(r) && r.value.disposition == Revoked && s2.authority.Some?
    then SettleUnsubmitted(s2, true)
    else s2
  }

  /** An initialized host keeps its capabilities fresh. */
  function Refreshed(s: HostState, i: HostInput): HostState {
    var r := Read(s);
    if s.shutdown == ShutdownOpen && s.flags.initialized then ObserveLaunchable(r, r.now, i).0 else s
  }

  function PollHost(s: HostState, i: HostInput): HostState {
    if s.shutdown == ShutdownClosed then s
    else
      var t := ExpirePrepared(Refreshed(s, i), i);
      UpdateShutdown(if IsLaunched(t) && !t.process.value.channels.closed then Attend(t, i) else t)
  }

  /** No more work is admitted, and the work in hand is cancelled. */
  function Closing(s: HostState, i: HostInput): HostState {
    var t := Ask(s, CallCloseAdmission).(shutdown := ShutdownClosing);
    if t.authority.Some? then CancelFor(t, t.authority.value, i).0 else t
  }

  function BeginShutdown(s: HostState, i: HostInput): HostState {
    if s.shutdown != ShutdownOpen then s else PollHost(Closing(s, i), i)
  }

  // ---------- Starting and rebinding ----------

  function StartupFor(s: HostState, kind: StartupEvidenceKind, source: string, time: U64, observed: bool): HostState {
    Report(Numbered(s), CallObserveStartup(StartupEvidence(kind, s.gate.config.binding, RecordBy(s, source, time),
                                                           observed)))
  }

  /** The three facts that open a binding. */
  function Declare(s: HostState, time: U64, ready: bool): HostState {
    StartupFor(StartupFor(StartupFor(s, BindingIdleAndSettled, OBSERVER, time, true), AdapterReady, OBSERVER, time,
                          ready),
               ResultSinkReady, RESULT_SINK, time, true)
  }

  /** The facts are declared until they have opened the binding once. */
  function DeclareOnce(s: HostState, time: U64, ready: bool): HostState {
    if s.flags.initialized then s
    else
      var t := Declare(s, time, ready);
      t.(flags := t.flags.(initialized := ready && !t.flags.evidenceError))
  }

  function Initialize(s: HostState, i: HostInput): HostState {
    var t := Read(s);
    if t.shutdown != ShutdownOpen || t.gate.phase != Active then t
    else
      var (u, ready) := ObserveLaunchable(t, t.now, i);
      DeclareOnce(u, t.now, ready)
  }

  predicate OldScopeIsClear(s: HostState) {
    && !s.flags.evidenceError
    && (s.authority.Some? ==> CurrentReceipt(s).Some? && CurrentReceipt(s).value.disposition == Released)
    && (s.process.Some? ==>
          var p := s.process.value;
          && !p.reaping.ownershipLost
          && (if p.launched then HasExited(p) && p.stream.eof && p.channels.closed else p.stream.ioError == 0))
  }

  function OfferFor(s: HostState, b: BindingIdentity, kind: StartupEvidenceKind, source: string, time: U64,
                    observed: bool): HostState
  {
    Ask(Numbered(s), CallObserveReadiness(BindingReadinessEvidence(kind, b, RecordBy(s, source, time), observed,
                                                                   Expiry(time))))
  }

  function OfferAll(s: HostState, b: BindingIdentity, ready: bool): HostState {
    var s1 := OfferFor(s, b, BindingIdleAndSettled, OBSERVER, s.now, true);
    var s2 := OfferFor(s1, b, AdapterReady, OBSERVER, s.now, ready);
    var s3 := OfferFor(s2, b, ResultSinkReady, RESULT_SINK, s.now, true);
    Ask(Numbered(s3), CallObserveCapabilities(ExecutionCapabilities(b, COMPUTE_CAPABILITY, PROFILE,
                                                                    s.maximumIterations, ready,
                                                                    RecordBy(s3, OBSERVER, s.now), Expiry(s.now))))
  }

  function RebindRefusal(s: HostState, expected: BindingIdentity, provider: string,
                         executable: string): Option<BindingControlStatus>
  {
    if s.shutdown != ShutdownOpen then Some(BindingClosed)
    else if expected != s.gate.config.binding then Some(StaleIdentity)
    else if s.gate.phase != Withdrawn then Some(WrongPhase)
    else if !OldScopeIsClear(s) then Some(UnresolvedWork)
    else if provider == "" || executable == "" || executable[0] != '/' then Some(InvalidProvider)
    else None
  }

  /** The candidate is installed, or abandoned at once. */
  function CommitOrAbandon(s: HostState, b: BindingIdentity, executable: string): (HostState, BindingDecision) {
    var d := GateSpec.CommitRebind(s.gate, b, s.now).1;
    var t := Ask(s, CallCommit(b, s.now));
    if d.status == Applied then (t.(worker := executable, flags := t.flags.(initialized := true)), d)
    else
      var u := Read(t);
      (Ask(u, CallWithdraw(b, u.now)), d)
  }

  function BeginFor(s: HostState, expected: BindingIdentity, provider: string): Call {
    CallBeginRebind(expected, provider,
                    BindingReadinessEvidence(BindingIdleAndSettled, expected, RecordBy(s, OBSERVER, s.now), true,
                                             Expiry(s.now)),
                    s.now)
  }

  /** A rebind that nothing forbids. */
  function RebindFrom(s: HostState, expected: BindingIdentity, provider: string, executable: string, i: HostInput)
    : (HostState, BindingDecision)
  {
    var begun := AnswerOf(s.gate, BeginFor(s, expected, provider));
    var t := Ask(Numbered(s), BeginFor(s, expected, provider));
    if !begun.Binding? then (t, BindingDecision(WrongPhase, None, None))
    else if begun.binding.status != Applied || begun.binding.candidate.None? then (t, begun.binding)
    else
      var b := begun.binding.candidate.value;
      CommitOrAbandon(Read(OfferAll(Read(t), b, i.canLaunch)), b, executable)
  }

  function Rebind(s: HostState, expected: BindingIdentity, provider: string, executable: string, i: HostInput)
    : (HostState, BindingDecision)
  {
    var t := Read(s);
    var refusal := RebindRefusal(t, expected, provider, executable);
    if refusal.Some? then (t, BindingDecision(refusal.value, None, None))
    else RebindFrom(Read(t), expected, provider, executable, i)
  }
}
