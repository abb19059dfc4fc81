/**
 The end of the host's evidence counter is really reached: polling an idle host brings it there, and an
 operation delivered at that moment shows a result the gate has not accepted.
 */
module HostLimit {
  import opened Machine
  import opened Sums
  import opened Frames
  import opened GateTypes
  import opened GateSpec
  import opened GateInvariant
  import opened GateEffects
  import PS = ProcessSpec
  import opened ProcessSpec
  import opened HostSpec
  import opened HostInvariant
  import opened HostSteps
  import opened HostRuns
  import opened HostDelivery

  // ---------- The states of the run, all at time zero ----------

  const BOUND := BindingIdentity(PROVIDER, "domain", 1, 1)
  const WORK := ComputeRequest("request", 1, None, PROFILE)
  const HELD := OperationAuthority(1, BOUND, 0)

  /** Nothing happens but that a worker could be launched, and is when it is asked for. */
  const QUIET := HostInput(true, Spawned(None), [], PollInput(false, _ => Interrupted, NotYet, None), None, None, None)

  function FirstHost(): HostState {
    NewHost(1, 0, "/worker", "domain", 1, 0)
  }

  function Capable(c: U64): ExecutionCapabilities {
    ExecutionCapabilities(BOUND, COMPUTE_CAPABILITY, PROFILE, 1, true, EvidenceRecord(OBSERVER, 0, c), 1000)
  }

  function OpenGate(c: U64): GateState {
    InitialGate(ConfigOf("domain", 1, 0))
    .(initialization := Ready, capabilities := Some(Capable(c)),
      idle := StartupFact(true, true, Some(EvidenceRecord(OBSERVER, 0, 2))),
      worker := StartupFact(true, true, Some(EvidenceRecord(OBSERVER, 0, 3))),
      sink := StartupFact(true, true, Some(EvidenceRecord(RESULT_SINK, 0, 4))))
  }

  /** Initialized and idle; its last capabilities carry number `c`, its last evidence number `n`. */
  function OpenHost(c: U64, n: U64): HostState {
    FirstHost().(gate := OpenGate(c), sequence := n, flags := Flags(true, false, false, false))
  }

  function Requested(): OperationRequest {
    OperationRequest(COMPUTE_CAPABILITY, "domain", "request", RESULT_SINK, 0, None,
                     Some(ExecutionRequirements(PROFILE, 1)))
  }

  function PreparedHost(n: U64): HostState {
    OpenHost(n, n).(gate := OpenGate(n).(nextOperationId := 2, receipt := Some(NewReceipt(HELD, Requested()))),
                    authority := Some(HELD), request := Some(WORK))
  }

  function ReceiptWith(native: NativeFacts): OperationReceipt {
    NewReceipt(HELD, Requested()).(dispatch := DispatchFacts(Submitted, Some(0), None), native := native)
  }

  function AcceptedNative(a: U64): NativeFacts {
    NativeFacts(NativeIdentity(1), NativelyAccepted, OutcomePending, Some(EvidenceRecord(NATIVE, 0, a)), None, None,
                None, None, None)
  }

  function RunningGate(c: U64, a: U64): GateState {
    OpenGate(c).(nextOperationId := 2, receipt := Some(ReceiptWith(AcceptedNative(a))),
                 lastNativeRecord := Some(EvidenceRecord(NATIVE, 0, a)), lastNativeKind := Some(AcceptedEvent))
  }

  function RunningChild(): ProcessState {
    NewProcess(1, 0).(launched := true, reaping := Reaping(true, None, false),
                      channels := Channels(true, true, false, false))
  }

  /** The operation dispatched and its child running: ready to deliver. */
  function RunningHost(c: U64, a: U64, n: U64): HostState {
    OpenHost(c, n).(gate := RunningGate(c, a), authority := Some(HELD), request := Some(WORK),
                    process := Some(RunningChild()))
  }

  // ---------- From one to the next ----------

  lemma CapabilitiesAreTaken(g: GateState, c: U64)
    requires !IsForCandidate(g, BOUND) && g.initialization != InitializationClosed
             && g.config == ConfigOf("domain", 1, 0) && c > 0
    requires g.capabilities.Some? ==>
             g.capabilities.value.record.observedAt == 0 && g.capabilities.value.record.sequence < c
    ensures GateSpec.ObserveCapabilities(g, Capable(c)) == (g.(capabilities := Some(Capable(c))), Accepted)
  {
  }

  /** The three facts that open a binding, offered one after another. */
  lemma FactsAreTaken()
    ensures var s := FirstHost().(gate := FirstHost().gate.(capabilities := Some(Capable(1))), sequence := 1);
      Declare(s, 0, true) == OpenHost(1, 4).(flags := Flags(false, false, false, false))
  {
    hide IsReady;
    var s := FirstHost().(gate := FirstHost().gate.(capabilities := Some(Capable(1))), sequence := 1);
    var t := StartupFor(s, BindingIdleAndSettled, OBSERVER, 0, true);
    var g := s.gate.(idle := StartupFact(true, true, Some(EvidenceRecord(OBSERVER, 0, 2))));
    OneFact(s.gate, BindingRole, BindingIdleAndSettled, OBSERVER, 2);
    assert !IsReady(g) by { NotReady(g); }
    assert t == s.(gate := g, sequence := 2);
    var u := StartupFor(t, AdapterReady, OBSERVER, 0, true);
    var h := g.(worker := StartupFact(true, true, Some(EvidenceRecord(OBSERVER, 0, 3))));
    OneFact(g, WorkerRole, AdapterReady, OBSERVER, 3);
    NotReady(h);
    assert u == s.(gate := h, sequence := 3);
    OneFact(h, SinkRole, ResultSinkReady, RESULT_SINK, 4);
    NowReady(h.(sink := StartupFact(true, true, Some(EvidenceRecord(RESULT_SINK, 0, 4)))));
  }

  lemma NotReady(g: GateState)
    requires !g.sink.observed
    ensures !IsReady(g)
  {
  }

  lemma NowReady(g: GateState)
    requires g.idle.observed && g.idle.value && g.worker.observed && g.worker.value && g.sink.observed && g.sink.value
    ensures IsReady(g)
  {
  }

  lemma OneFact(g: GateState, role: Role, kind: StartupEvidenceKind, source: string, n: U64)
    requires g.phase == Active && g.initialization == RecoveryRequired && g.receipt.None?
             && g.config == ConfigOf("domain", 1, 0)
    requires RoleOf(kind, g.config) == Some(role) && SourceOf(role, g.config) == source && g.Fact(role) == NO_FACT
             && n > 0
    ensures var e := StartupEvidence(kind, BOUND, EvidenceRecord(source, 0, n), true);
      var h := g.WithFact(role, StartupFact(true, true, Some(e.record)));
      GateSpec.ObserveStartup(g, e) == (h.(initialization := if IsReady(h) then Ready else RecoveryRequired), Accepted)
  {
    hide IsReady;
    assert source != "";
  }

  lemma Initialized()
    ensures HostNext(FirstHost(), HostCall(DoInitialize, QUIET, [])) == OpenHost(1, 4)
  {
    hide Declare, ObserveLaunchable;
    FirstCapabilities();
    FactsAreTaken();
  }

  lemma FirstCapabilities()
    ensures ObserveLaunchable(FirstHost(), 0, QUIET)
         == (FirstHost().(gate := FirstHost().gate.(capabilities := Some(Capable(1))), sequence := 1), true)
  {
    hide Withdraw, GateSpec.ObserveCapabilities;
    CapabilitiesAreTaken(FirstHost().gate, 1);
  }

  /** Fresh capabilities are reported and taken. */
  lemma LaunchableIsObserved(s: HostState, i: HostInput)
    requires i.canLaunch
    requires s.sequence < MAX_U64 && s.now == 0 && s.maximumIterations == 1 && s.gate.phase == Active
             && Callable(s.gate)
    requires s.gate.config == ConfigOf("domain", 1, 0) && s.gate.initialization == Ready && s.gate.candidate.None?
    requires s.gate.capabilities.Some? && s.gate.capabilities.value.record.observedAt == 0
    requires s.gate.capabilities.value.record.sequence <= s.sequence && !s.flags.evidenceError
    ensures ObserveLaunchable(s, 0, i)
         == (s.(gate := s.gate.(capabilities := Some(Capable(s.sequence + 1))), sequence := s.sequence + 1), true)
  {
    hide Withdraw, GateSpec.ObserveCapabilities, Callable;
    CapabilitiesAreTaken(s.gate, s.sequence + 1);
  }

  lemma IdlePoll(c: U64, n: U64)
    requires 4 <= n < MAX_U64 && c <= n
    ensures HostNext(OpenHost(c, n), HostCall(DoPoll, QUIET, [])) == OpenHost(n + 1, n + 1)
  {
    hide ObserveLaunchable, SettleUnsubmitted, Attend, Initialize, Prepare, HostSpec.Dispatch, CancelFor, BeginShutdown,
         Withdraw, Rebind;
    LaunchableIsObserved(OpenHost(c, n), QUIET);
  }

  lemma RequestIsAdmitted(n: U64)
    ensures GateSpec.Admit(OpenGate(n), Requested())
         == (OpenGate(n).(nextOperationId := 2, receipt := Some(NewReceipt(HELD, Requested()))),
             AdmissionDecision(Admitted, Some(HELD)))
  {
  }

  lemma RequestIsPrepared(c: U64, n: U64)
    requires 4 <= n < MAX_U64 && c <= n
    ensures HostNext(OpenHost(c, n), HostCall(DoPrepare(WORK), QUIET, [])) == PreparedHost(n + 1)
  {
    hide ObserveLaunchable, GateSpec.Admit, Initialize, HostSpec.Dispatch, CancelFor, PollHost, BeginShutdown, Withdraw,
         Rebind;
    LaunchableIsObserved(OpenHost(c, n), QUIET);
    RequestIsAdmitted(n + 1);
    assert |PROFILE| <= MAXIMUM_TEXT && |WORK.reference| <= MAXIMUM_TEXT;
  }

  /** The receipt once its dispatch was granted. */
  function ClaimedReceipt(): OperationReceipt {
    NewReceipt(HELD, Requested()).(dispatch := DispatchFacts(Submitted, Some(0), None))
  }

  lemma ClaimIsGranted(n: U64)
    ensures var g := PreparedHost(n).gate;
      GateSpec.ClaimDispatch(g, HELD, 0)
      == (g.(receipt := Some(ClaimedReceipt())), true)
  {
  }

  lemma AcceptanceIsTaken(c: U64, a: U64)
    requires a > 0
    ensures var g := OpenGate(c).(nextOperationId := 2, receipt := Some(ClaimedReceipt()));
      GateSpec.ObserveNative(g, NativeEvidence(HELD, NativeIdentity(1), AcceptedEvent, EvidenceRecord(NATIVE, 0, a)))
      == (RunningGate(c, a), Accepted)
  {
    hide Decimal;
  }

  lemma ExpiryIsNotDue(s: HostState, i: HostInput)
    requires s.authority == Some(HELD) && s.gate.receipt.Some? && s.gate.receipt.value.deadline.None?
             && Callable(s.gate)
    requires s.gate.receipt.value.control == ControlFacts(None, None, None, None, NotRequested, None)
    ensures Expire(s, 0, i) == s
  {
    hide LatestTime, Callable;
  }

  lemma PreparedIsPending(s: HostState)
    requires s.authority == Some(HELD) && s.gate.receipt == Some(NewReceipt(HELD, Requested()))
    ensures IsPending(CurrentReceipt(s))
  {
  }

  /** The operation claimed, its child launched, and the launch reported. */
  lemma ClaimedIsLaunched(n: U64)
    requires 0 < n < MAX_U64
    ensures var s := PreparedHost(n);
      DispatchFrom(s, HELD, QUIET) == (RunningHost(n, n + 1, n + 1), true)
  {
    hide GateSpec.ClaimDispatch, GateSpec.ObserveNative, SettleUnsubmitted, Decimal;
    ClaimIsGranted(n);
    AcceptanceIsTaken(n, n + 1);
  }

  lemma PreparedIsDispatched(n: U64)
    requires 4 <= n < MAX_U64 - 1
    ensures HostNext(PreparedHost(n), HostCall(DoDispatch(HELD), QUIET, [])) == RunningHost(n + 1, n + 2, n + 2)
  {
    hide ObserveLaunchable, Expire, DispatchFrom, IsPending, CurrentReceipt, Initialize, Prepare,
         CancelFor, PollHost, BeginShutdown, Withdraw, Rebind;
    LaunchableIsObserved(PreparedHost(n), QUIET);
    PreparedIsPending(PreparedHost(n + 1));
    ExpiryIsNotDue(PreparedHost(n + 1), QUIET);
    ClaimedIsLaunched(n + 1);
  }

  // ---------- The delivery ----------

  function ChildFrames(): seq<Byte> {
    Encode(Emit(READY, 0, 0, 0)) + Encode(Emit(COMPLETED, 1, 0, 0))
  }

  /** The child has written its two frames, closed its end and exited. */
  function ChildEnds(): HostInput {
    HostInput(true, Spawned(None), ChildFrames(), PollInput(true, _ => Take(32), Reaped(ExitedWith(0)), None), None,
              None, None)
  }

  function EndedChild(): ProcessState {
    RunningChild().(stream := Stream(View(true, false, false, false, false, 0, 1, 0, CompletedTerminal, 1, 0), [],
                                     true, 0),
                    reaping := Reaping(false, Some(ExitedWith(0)), false))
  }

  lemma FirstFrame()
    ensures PS.Deliver(1, Stream(NOTHING_SEEN, [], false, 0), Encode(Emit(READY, 0, 0, 0)))
         == Stream(NOTHING_SEEN.(started := true), [], false, 0)
  {
    hide Encode, Decode;
    DecodeEncode(Emit(READY, 0, 0, 0));
    assert [] + Encode(Emit(READY, 0, 0, 0)) == Encode(Emit(READY, 0, 0, 0));
  }

  lemma LastFrame()
    ensures PS.Deliver(1, Stream(NOTHING_SEEN.(started := true), [], false, 0), Encode(Emit(COMPLETED, 1, 0, 0)))
         == Stream(EndedChild().stream.view, [], false, 0)
  {
    hide Encode, Decode;
    DecodeEncode(Emit(COMPLETED, 1, 0, 0));
    assert [] + Encode(Emit(COMPLETED, 1, 0, 0)) == Encode(Emit(COMPLETED, 1, 0, 0));
  }

  /** One read that takes a frame. */
  lemma FrameIsRead(s: Stream, frame: seq<Byte>, rest: seq<Byte>, choices: nat -> ReadChoice, k: nat, frames: nat)
    requires s.buffer == [] && |frame| == FRAME_BYTES && choices(k) == Take(32) && frames < 10
    requires PS.Deliver(1, s, frame).buffer == []
    ensures Drain(1, s, frame + rest, true, choices, k, frames)
         == Drain(1, PS.Deliver(1, s, frame), rest, true, choices, k + 1, frames + 1)
  {
    hide PS.Deliver;
    assert (frame + rest)[..32] == frame && (frame + rest)[32..] == rest;
  }

  lemma EverythingIsRead()
    ensures var choices := ChildEnds().poll.choices;
      Drain(1, RunningChild().stream, ChildFrames(), true, choices, 0, 0) == (EndedChild().stream, [])
  {
    hide Encode, PS.Deliver;
    FirstFrame();
    LastFrame();
    var choices := ChildEnds().poll.choices;
    var ready, completed := Encode(Emit(READY, 0, 0, 0)), Encode(Emit(COMPLETED, 1, 0, 0));
    FrameIsRead(RunningChild().stream, ready, completed, choices, 0, 0);
    assert completed + [] == completed;
    FrameIsRead(Stream(NOTHING_SEEN.(started := true), [], false, 0), completed, [], choices, 1, 1);
    EndIsRead(choices);
  }

  lemma EndIsRead(choices: nat -> ReadChoice)
    requires choices(2) == Take(32)
    ensures Drain(1, Stream(EndedChild().stream.view, [], false, 0), [], true, choices, 2, 2)
            == (EndedChild().stream, [])
  {
  }

  lemma ChildIsPolled()
    ensures PS.Poll(RunningChild(), 0, ChildFrames(), ChildEnds().poll).0 == EndedChild()
  {
    hide Drain, Encode;
    EverythingIsRead();
  }

  /** The host once its child has ended and been polled. */
  function EndedHost(c: U64, a: U64, n: U64): HostState {
    RunningHost(c, a, n).(process := Some(EndedChild()))
  }

  lemma SupportIsThere(c: U64, a: U64, n: U64)
    ensures CheckSupport(RunningHost(c, a, n), ChildEnds()) == RunningHost(c, a, n)
  {
    hide Withdraw, Encode;
  }

  lemma ChildIsAttended(c: U64, a: U64, n: U64)
    ensures PollProcess(CheckSupport(RunningHost(c, a, n), ChildEnds()), ChildEnds()) == EndedHost(c, a, n)
    ensures !IsTroubled(EndedChild())
  {
    hide PS.Poll, CheckSupport, Encode;
    SupportIsThere(c, a, n);
    ChildIsPolled();
  }

  function StartedNative(a: U64, b: U64): NativeFacts {
    AcceptedNative(a).(started := Some(EvidenceRecord(NATIVE, 0, b)))
  }

  function StartedHost(c: U64, a: U64, n: U64): HostState {
    EndedHost(c, a, n).(gate := RunningGate(c, a).(receipt := Some(ReceiptWith(StartedNative(a, n))),
                                                   lastNativeRecord := Some(EvidenceRecord(NATIVE, 0, n)),
                                                   lastNativeKind := Some(StartedEvent)))
  }

  lemma StartIsTaken(c: U64, a: U64, n: U64)
    requires 0 < a < n
    ensures GateSpec.ObserveNative(RunningGate(c, a),
                                   NativeEvidence(HELD, NativeIdentity(1), StartedEvent, EvidenceRecord(NATIVE, 0, n)))
         == (StartedHost(c, a, n).gate, Accepted)
  {
    hide Decimal;
  }

  lemma StartIsReported(c: U64, a: U64, n: U64)
    requires 0 < a <= n < MAX_U64
    ensures ReportStop(ReportStarted(EndedHost(c, a, n))) == StartedHost(c, a, n + 1)
  {
    hide GateSpec.ObserveNative, Decimal;
    StartIsTaken(c, a, n + 1);
  }

  lemma SuccessIsTaken(c: U64, a: U64, n: U64)
    requires 0 < a < n < MAX_U64
    ensures var (g, d) := GateSpec.ObserveNative(StartedHost(c, a, n).gate,
                                                 NativeEvidence(HELD, NativeIdentity(1), TerminalSucceeded,
                                                                EvidenceRecord(NATIVE, 0, n + 1)));
      && d == Accepted && CanDeliverResult(g, HELD) && g.receipt.Some? && g.receipt.value.deadline.None?
      && g.receipt.value.control == ControlFacts(None, None, None, None, NotRequested, None)
  {
    hide Decimal;
  }

  /** The host once success is on the receipt, about to deliver. */
  function ReportedHost(c: U64, a: U64, n: U64): HostState {
    ReportNative(StartedHost(c, a, n), TerminalSucceeded, 0)
  }

  lemma EndedIsComplete()
    ensures Completed(EndedChild(), 1) && IsDone(EndedChild()) && HostSpec.Succeeded(EndedChild(), 1)
    ensures HostSpec.OutcomeOf(EndedChild(), 1) == TerminalSucceeded
  {
    assert ExpectedSum(1) == 0;
  }

  lemma StartedIsPlain(c: U64, a: U64, n: U64)
    ensures var s := StartedHost(c, a, n);
      && s.authority == Some(HELD) && s.request == Some(WORK) && s.process == Some(EndedChild()) && s.now == 0
        && s.readings == []
      && s.result.None? && s.sequence == n && Callable(s.gate) && s.shutdown == ShutdownOpen
        && s.flags == Flags(true, false, false, false)
      && s.gate.receipt.Some? && s.gate.receipt.value.deadline.None?
      && s.gate.receipt.value.control == ControlFacts(None, None, None, None, NotRequested, None)
  {
    hide Decimal;
  }

  /** Success is reported, and the result may be handed out. */
  lemma ReportedMayDeliver(c: U64, a: U64, n: U64)
    requires 0 < a < n < MAX_U64
    ensures var s := ReportedHost(c, a, n);
      && s == StartedHost(c, a, n).(gate := s.gate, sequence := n + 1) && CanDeliverResult(s.gate, HELD)
      && s.gate.receipt.Some? && s.gate.receipt.value.deadline.None?
      && s.gate.receipt.value.control == ControlFacts(None, None, None, None, NotRequested, None)
  {
    hide GateSpec.ObserveNative, CanDeliverResult, StartedHost, Callable, Decimal;
    StartedIsPlain(c, a, n);
    SuccessIsTaken(c, a, n);
  }

  lemma DeliversNow(s: HostState, i: HostInput)
    requires s.authority == Some(HELD) && s.now == 0 && s.readings == [] && !s.flags.evidenceError && Callable(s.gate)
    requires CanDeliverResult(s.gate, HELD) && s.gate.receipt.Some? && s.gate.receipt.value.deadline.None?
    requires s.gate.receipt.value.control == ControlFacts(None, None, None, None, NotRequested, None)
    ensures Delivers(s, i) && ExpireNow(s, i) == s
  {
    hide CanDeliverResult, Expire, Callable;
    ExpiryIsNotDue(s, i);
  }

  lemma NothingShownYet(s: HostState)
    requires HostInv(s) && s.result.None?
    ensures Agrees(s)
  {
    hide GateFits, ExpectedSum, Completed;
  }

  lemma ShownNotAccepted(s: HostState)
    requires HostInv(s) && !Agrees(s)
    ensures s.result.Some? && !IsAccepted(s) && s.flags.evidenceError
  {
    hide GateFits, ExpectedSum, Completed;
  }

  /** Delivering with the counter at its last value: the result is shown and not accepted. */
  lemma LastDelivery(s: HostState, i: HostInput)
    requires HostInv(s) && s.authority == Some(HELD) && s.request == Some(WORK) && s.result.None?
             && s.sequence == MAX_U64
    requires Delivers(s, i)
    ensures var v := DeliverOrWithhold(s, 0, i);
      HostInv(v) && v.result.Some? && !IsAccepted(v) && v.flags.evidenceError
  {
    hide HostInv, Delivers, DeliverOrWithhold, Agrees;
    assert ExpectedSum(1) == 0;
    NothingShownYet(s);
    DeliveryIsExact(s, 0, i);
    DeliverOrWithholdKeeps(s, 0, i);
    HostInvOf(s, DeliverOrWithhold(s, 0, i));
    ShownNotAccepted(DeliverOrWithhold(s, 0, i));
  }

  lemma InvIsCallableHere(s: HostState)
    requires HostInv(s)
    ensures Callable(s.gate)
  {
    hide Inv, AuthorityAgrees, ProcessAgrees, ResultAgrees, EndsAgree, ShutdownAgrees, GateEndsBy;
    InvIsCallable(s.gate);
  }

  /** The outcome of the ended child, reported up to the delivery. */
  lemma OutcomeOfEnded(c: U64, a: U64, n: U64, i: HostInput)
    requires 0 < a < n && n + 1 == MAX_U64 && HostInv(StartedHost(c, a, n))
    ensures var v := ReportOutcome(StartedHost(c, a, n), i);
      v.result.Some? && !IsAccepted(v) && v.flags.evidenceError
  {
    hide HostInv, StartedHost, CanDeliverResult, Delivers, DeliverOrWithhold, ReportNative, HostSpec.Succeeded,
         HostSpec.OutcomeOf, ExpireNow, EndedChild, Callable, IsDone, Completed;
    var s := StartedHost(c, a, n);
    StartedIsPlain(c, a, n);
    EndedIsComplete();
    NotYetDelivered(s, i);
    ReportedMayDeliver(c, a, n);
    ReportEndKeeps(s, 0, TerminalSucceeded);
    HostInvOf(s, ReportedHost(c, a, n));
    InvIsCallableHere(ReportedHost(c, a, n));
    DeliversNow(ReportedHost(c, a, n), i);
    EndedValue();
    LastDelivery(ReportedHost(c, a, n), i);
  }

  lemma EndedValue()
    ensures EndedChild().stream.view.terminalValue == 0
  {
  }

  lemma NotYetDelivered(s: HostState, i: HostInput)
    requires s.authority == Some(HELD) && s.now == 0 && s.readings == [] && Callable(s.gate) && s.gate.receipt.Some?
    requires s.gate.receipt.value.deadline.None?
    requires s.gate.receipt.value.control == ControlFacts(None, None, None, None, NotRequested, None)
    ensures ExpireNow(s, i) == s
  {
    hide Expire, Callable;
    ExpiryIsNotDue(s, i);
  }

  /** Once evidence was refused nothing is settled, and what is shown stays. */
  lemma ClosingKeepsShown(s: HostState, i: HostInput)
    requires s.process.Some? && s.authority.Some? && s.flags.evidenceError
    ensures CloseAndSettle(s, i).result == s.result && CloseAndSettle(s, i).gate == s.gate
  {
    hide CloseChannels;
  }

  lemma FinishOfEnded(c: U64, a: U64, n: U64, i: HostInput)
    requires 0 < a < n && n + 1 == MAX_U64 && HostInv(StartedHost(c, a, n))
    ensures var s := StartedHost(c, a, n);
      && s.process.Some? && s.authority.Some? && s.request.Some?
      && var t := Finish(s, i); t.result.Some? && !IsAccepted(t)
  {
    hide HostInv, StartedHost, ReportOutcome, CloseAndSettle, EndedChild, IsDone, Completed, HostSpec.Succeeded,
         Callable;
    var s := StartedHost(c, a, n);
    StartedIsPlain(c, a, n);
    EndedIsComplete();
    OutcomeOfEnded(c, a, n, i);
    StreamHasEnded();
    ReportOutcomeKeeps(s, i);
    HostInvOf(s, ReportOutcome(s, i));
    ClosingKeepsShown(ReportOutcome(s, i), i);
  }

  lemma StreamHasEnded()
    ensures EndedChild().stream.eof
  {
  }

  /** The last poll: fresh capabilities, the child's end, its start and its success, and the delivery. */
  lemma LastPoll(c: U64, n: U64)
    requires 0 < c < n && n + 3 == MAX_U64 && HostInv(RunningHost(c, n, n))
    ensures var t := HostNext(RunningHost(c, n, n), HostCall(DoPoll, ChildEnds(), []));
      t.result.Some? && !IsAccepted(t)
  {
    hide HostInv, RunningHost, StartedHost, EndedHost, Refreshed, ExpirePrepared, CheckSupport, PollProcess,
         ReportStarted, ReportStop, Finish, IsTroubled, EndedChild, RunningChild, ChildEnds, CancelFor;
    var h := RunningHost(c, n, n);
    LastPollStarts(c, n);
    var h1 := RunningHost(n + 1, n, n + 1);
    RefreshedKeeps(h, ChildEnds());
    HostInvOf(h, h1);
    ChildIsAttended(n + 1, n, n + 1);
    CheckSupportKeeps(h1, ChildEnds());
    HostInvOf(h1, CheckSupport(h1, ChildEnds()));
    PollProcessKeeps(CheckSupport(h1, ChildEnds()), ChildEnds());
    var h2 := EndedHost(n + 1, n, n + 1);
    HostInvOf(CheckSupport(h1, ChildEnds()), h2);
    EndedIsPlain(n + 1, n, n + 1);
    ReportStartedKeeps(h2);
    HostInvOf(h2, ReportStarted(h2));
    StartedKeepsHands(h2);
    ReportStopKeeps(ReportStarted(h2));
    HostInvOf(ReportStarted(h2), ReportStop(ReportStarted(h2)));
    StartIsReported(n + 1, n, n + 1);
    FinishOfEnded(n + 1, n, n + 2, ChildEnds());
    StartedIsPlain(n + 1, n, n + 2);
  }

  lemma EndedIsPlain(c: U64, a: U64, n: U64)
    ensures var s := EndedHost(c, a, n);
            s.process == Some(EndedChild()) && s.authority == Some(HELD) && s.request == Some(WORK)
  {
  }

  lemma StartedKeepsHands(s: HostState)
    requires s.process.Some? && s.authority.Some?
    ensures ReportStarted(s).process == s.process && ReportStarted(s).authority == s.authority
  {
    hide Asked, AnswerOf, Decimal;
  }

  /** Up to attending to the child. */
  lemma LastPollStarts(c: U64, n: U64)
    requires 0 < c < n < MAX_U64
    ensures var h, h1 := RunningHost(c, n, n), RunningHost(n + 1, n, n + 1);
      && Refreshed(h, ChildEnds()) == h1 && ExpirePrepared(h1, ChildEnds()) == h1
      && h.shutdown == ShutdownOpen && IsLaunched(h1) && !h1.process.value.channels.closed
      && HostNext(h, HostCall(DoPoll, ChildEnds(), [])) == UpdateShutdown(Attend(h1, ChildEnds()))
  {
    hide ObserveLaunchable, Expire, SettleUnsubmitted, Attend, Encode, Decimal;
    LaunchableIsObserved(RunningHost(c, n, n), ChildEnds());
    ExpiryIsNotDue(RunningHost(n + 1, n, n + 1), ChildEnds());
  }

  // ---------- The run ----------

  /** Some run of the host ends in `s`. */
  ghost predicate IsReached(s: HostState) {
    exists states: seq<HostState>, calls: seq<HostCall> :: IsRun(states, calls) && states[|calls|] == s
  }

  lemma FirstIsReached()
    ensures IsReached(FirstHost())
  {
    assert "domain" != "";
    assert IsRun([FirstHost()], []);
  }

  lemma ReachesOn(s: HostState, c: HostCall)
    requires IsReached(s)
    ensures IsReached(HostNext(s, c))
  {
    hide HostNext, IsNew;
    var states: seq<HostState>, calls: seq<HostCall> :| IsRun(states, calls) && states[|calls|] == s;
    assert IsRun(states + [HostNext(s, c)], calls + [c]);
  }

  lemma ReachedRests(s: HostState)
    requires IsReached(s)
    ensures Rests(s)
  {
    hide Rests, IsNew, HostNext;
    var states: seq<HostState>, calls: seq<HostCall> :| IsRun(states, calls) && states[|calls|] == s;
    RunEnds(states, calls);
    AlwaysRests(states, calls, |calls|);
  }

  lemma RunEnds(states: seq<HostState>, calls: seq<HostCall>)
    requires IsRun(states, calls)
    ensures |states| == |calls| + 1
  {
    hide IsNew, HostNext;
  }

  /** Idle, with its evidence counter at `n`. */
  function IdleHost(n: U64): HostState {
    OpenHost(if n == 4 then 1 else n, n)
  }

  /** Initialized and polled often enough, an idle host's counter reaches any number. */
  lemma {:induction false} IdleIsReached(n: U64)
    requires 4 <= n
    ensures IsReached(IdleHost(n))
    decreases n
  {
    hide HostNext, IsReached;
    if n == 4 {
      FirstIsReached();
      Initialized();
      ReachesOn(FirstHost(), HostCall(DoInitialize, QUIET, []));
    } else {
      IdleIsReached(n - 1);
      IdlePoll(if n - 1 == 4 then 1 else n - 1, n - 1);
      ReachesOn(IdleHost(n - 1), HostCall(DoPoll, QUIET, []));
    }
  }

  /** So does that of a host with an operation running. */
  lemma RunningIsReached(m: U64)
    requires 7 <= m
    ensures IsReached(RunningHost(m - 1, m, m))
  {
    hide HostNext, IsReached, RunningHost, PreparedHost, OpenHost;
    IdleIsReached(m - 3);
    RequestIsPrepared(if m - 3 == 4 then 1 else m - 3, m - 3);
    ReachesOn(IdleHost(m - 3), HostCall(DoPrepare(WORK), QUIET, []));
    PreparedIsDispatched(m - 2);
    ReachesOn(PreparedHost(m - 2), HostCall(DoDispatch(HELD), QUIET, []));
  }

  /** There is a run in which the host shows a result that its gate has not accepted. */
  lemma ResultShownUnacceptedInTheEnd()
    ensures exists s :: IsReached(s) && s.result.Some? && !IsAccepted(s)
  {
    hide HostNext, IsReached, RunningHost, Rests, HostInv, ChildEnds, IsAccepted;
    var m: U64 := MAX_U64 - 3;
    RunningIsReached(m);
    ReachedRests(RunningHost(m - 1, m, m));
    RestsIsValid(RunningHost(m - 1, m, m));
    LastPoll(m - 1, m);
    ReachesOn(RunningHost(m - 1, m, m), HostCall(DoPoll, ChildEnds(), []));
  }

  lemma RestsIsValid(s: HostState)
    requires Rests(s)
    ensures HostInv(s)
  {
    hide HostInv;
  }
}
