/**
 The compute execution host: fields updated in place around a real gate and a real child process,
 refining HostSpec call by call. The steady clock is what it will still show.
 */
module ComputeExecutionHosts {
  import opened Machine
  import opened Sums
  import opened GateTypes
  import GS = GateSpec
  import GI = GateInvariant
  import GateCalls
  import opened AuthorityGates
  import opened ProcessSpec
  import opened ComputeProcesses
  import S = HostSpec
  import opened HostSpec
  import HR = HostRuns
  import HL = HostLaws

  class ComputeExecutionHost {
    const maximumIterations: U64
    const stopGrace: U64
    var worker: string
    const gate: AuthorityGate
    var process: ComputeProcess?
    var authority: Option<OperationAuthority>
    var request: Option<ComputeRequest>
    var result: Option<ComputeResult>
    var sequence: U64
    ghost var wrapped: bool
    var initialized: bool
    var stopReported: bool
    var outcomeReported: bool
    var evidenceError: bool
    var shutdown: Shutdown
    var now: U64
    var readings: seq<U64>

    ghost function Repr(): set<object>
      reads this
    {
      if process == null then {this, gate} else {this, gate, process, process.frameBuffer}
    }

    /** The gate is a gate and the process a process. */
    ghost predicate Sound()
      reads Repr()
    {
      gate.Valid() && (process != null ==> process.Valid())
    }

    ghost function ChildState(): Option<ProcessState>
      requires Sound()
      reads Repr()
    {
      if process == null then None else Some(process.State())
    }

    ghost function State(): HostState
      requires Sound()
      reads Repr()
    {
      HostState(maximumIterations, stopGrace, worker, gate.State(), ChildState(), authority, request, result, sequence,
                wrapped,
                Flags(initialized, stopReported, outcomeReported, evidenceError), shutdown, now, readings)
    }

    ghost predicate Valid()
      reads Repr()
    {
      Sound() && HR.Rests(State())
    }

    /** A child still there that could not be told to stop, or that has had its grace since. */
    ghost predicate HasOverdueChild(wait: WaitOutcome)
      reads Repr()
    {
      && shutdown != ShutdownClosed && process != null && process.launched && !process.channelsClosed
      && process.owned && process.exit.None? && !process.ownershipLost && (wait.NotYet? || wait.WaitFailed?)
      && process.view.stopRequested
      && (!process.stopping.delivered
          || (process.stopping.requestedAt.Some? && process.stopping.requestedAt.value + process.stopGrace <= now))
    }

    /** No child was launched for the operation in hand, or it has exited, its stream ended and its channels closed. */
    ghost predicate HasNoChild()
      requires Sound()
      reads Repr()
    {
      process != null && process.launched ==> process.exit.Some? && process.eof && process.channelsClosed
    }

    constructor (maximum: U64, stopGrace: U64, worker: string, domain: string, generation: U64, time: U64)
      requires 0 < maximum <= MAXIMUM_ITERATIONS && stopGrace <= 60000 && worker != "" && worker[0] == '/'
      requires domain != "" && generation > 0
      ensures Valid() && fresh(Repr()) && State() == NewHost(maximum, stopGrace, worker, domain, generation, time)
    {
      hide HR.Rests, GI.Inv, HR.IsNew;
      maximumIterations, this.stopGrace, this.worker := maximum, stopGrace, worker;
      gate := new AuthorityGate(ConfigOf(domain, generation, time));
      process, authority, request, result, sequence, wrapped := null, None, None, None, 0, false;
      initialized, stopReported, outcomeReported, evidenceError := false, false, false, false;
      shutdown, now, readings := ShutdownOpen, time, [];
      new;
      NewHostIsNew(maximum, stopGrace, worker, domain, generation, time);
      assert State() == NewHost(maximum, stopGrace, worker, domain, generation, time);
      HR.NewHostRests(State());
    }

    /** Construction as callers see it: a policy out of bounds makes no host. */
    static method Create(maximum: U64, stopGrace: U64, worker: string, domain: string, generation: U64, time: U64)
      returns (host: ComputeExecutionHost?)
      requires domain != "" && generation > 0
      ensures host == null <==>
              worker == "" || worker[0] != '/' || maximum == 0 || maximum > MAXIMUM_ITERATIONS || stopGrace > 60000
      ensures host != null ==>
                fresh(host.Repr()) && host.Valid()
                  && host.State() == NewHost(maximum, stopGrace, worker, domain, generation, time)
    {
      if worker == "" || worker[0] != '/' || maximum == 0 || maximum > MAXIMUM_ITERATIONS || stopGrace > 60000 {
        return null;
      }
      host := new ComputeExecutionHost(maximum, stopGrace, worker, domain, generation, time);
    }

    // ---------- Reading, reporting ----------

    method Now() returns (time: U64)
      requires Sound()
      modifies `now, `readings
      ensures Sound() && State() == Read(old(State())) && time == now
    {
      if readings != [] {
        now, readings := Max(now, readings[0]), readings[1..];
      }
      time := now;
    }

    method Record(source: string, time: U64) returns (r: EvidenceRecord)
      modifies `sequence, `wrapped
      ensures sequence == Increment(old(sequence)) && wrapped == (old(wrapped) || old(sequence) == MAX_U64)
      ensures r == EvidenceRecord(source, time, sequence)
    {
      wrapped := wrapped || sequence == MAX_U64;
      sequence := Increment(sequence);
      r := EvidenceRecord(source, time, sequence);
    }

    method Accept(d: EvidenceDisposition)
      modifies `evidenceError
      ensures evidenceError == (old(evidenceError) || d == Rejected)
    {
      if d == Rejected { evidenceError := true; }
    }

    method ReportNative(kind: NativeEventKind, time: U64)
      requires Sound() && authority.Some?
      modifies `sequence, `wrapped, `evidenceError, gate
      ensures Sound() && State() == S.ReportNative(old(State()), kind, time)
    {
      hide GS.ObserveNative, GI.Inv, Decimal, GS.Asked, GS.AnswerOf;
      var record := Record(NATIVE, time);
      var e := NativeEvidence(authority.value, NativeIdentity(authority.value.operationId), kind, record);
      GateCalls.NativeAsked(gate.State(), e);
      var d := gate.ObserveNative(e);
      Accept(d);
    }

    method ReportSettlement(time: U64)
      requires Sound() && authority.Some?
      modifies `sequence, `wrapped, `evidenceError, gate
      ensures Sound() && State() == S.ReportSettlement(old(State()), time)
    {
      hide GS.ObserveSettlement, GI.Inv, GS.Asked, GS.AnswerOf;
      var record := Record(OBSERVER, time);
      var e := SettlementEvidence(authority.value, CLEANUP_SCOPE, true, record);
      GateCalls.SettlementAsked(gate.State(), e);
      var d := gate.ObserveSettlement(e);
      Accept(d);
    }

    method ReportNoOutput(time: U64)
      requires Sound() && authority.Some?
      modifies `sequence, `wrapped, `evidenceError, gate
      ensures Sound() && State() == S.ReportNoOutput(old(State()), time)
    {
      hide GS.ObserveOutputNotDelivered, GI.Inv, GS.Asked, GS.AnswerOf;
      var record := Record(OBSERVER, time);
      var e := NonDeliveryEvidence(authority.value, NoOutputProduced, "", record);
      GateCalls.NonDeliveryAsked(gate.State(), e);
      var d := gate.ObserveOutputNotDelivered(e);
      Accept(d);
    }

    method ReportNonSubmission(time: U64)
      requires Sound() && authority.Some?
      modifies `sequence, `wrapped, `evidenceError, gate
      ensures Sound()
      ensures var s := old(State());
        State() == Report(Numbered(s),
                          GS.CallObserveNonSubmission(NonSubmissionEvidence(s.authority.value,
                                                                            RecordBy(s, OBSERVER, time))))
    {
      hide GS.ObserveNonSubmission, GI.Inv, GS.Asked, GS.AnswerOf;
      var record := Record(OBSERVER, time);
      var e := NonSubmissionEvidence(authority.value, record);
      GateCalls.NonSubmissionAsked(gate.State(), e);
      var d := gate.ObserveNonSubmission(e);
      Accept(d);
    }

    method ReportLaunchable(available: bool, time: U64)
      requires Sound()
      modifies `sequence, `wrapped, `evidenceError, gate
      ensures Sound()
      ensures var s := old(State());
        State() == Report(Numbered(s), GS.CallObserveCapabilities(
                            ExecutionCapabilities(s.gate.config.binding, COMPUTE_CAPABILITY, PROFILE,
                                                  s.maximumIterations,
                                                  available, RecordBy(s, OBSERVER, time), Expiry(time))))
    {
      hide GS.ObserveCapabilities, GI.Inv, Expiry, GS.Asked, GS.AnswerOf;
      var binding := gate.config.binding;
      var record := Record(OBSERVER, time);
      var e := ExecutionCapabilities(binding, COMPUTE_CAPABILITY, PROFILE, maximumIterations, available, record,
                                     Expiry(time));
      GateCalls.CapabilitiesAsked(gate.State(), e);
      var d := gate.ObserveExecutionCapabilities(e);
      Accept(d);
    }

    method ReportStartup(kind: StartupEvidenceKind, source: string, time: U64, observed: bool)
      requires Sound()
      modifies `sequence, `wrapped, `evidenceError, gate
      ensures Sound() && State() == StartupFor(old(State()), kind, source, time, observed)
    {
      hide GS.ObserveStartup, GI.Inv, GS.Asked, GS.AnswerOf;
      var binding := gate.config.binding;
      var record := Record(source, time);
      var e := StartupEvidence(kind, binding, record, observed);
      GateCalls.StartupAsked(gate.State(), e);
      var d := gate.ObserveStartup(e);
      Accept(d);
    }

    /** The receipt of the operation in hand. */
    method CurrentReceipt() returns (r: Option<OperationReceipt>)
      requires Sound()
      ensures r == S.CurrentReceipt(State())
    {
      if authority.Some? && gate.currentReceipt.Some? && gate.currentReceipt.value.authority == authority.value {
        return gate.currentReceipt;
      }
      return None;
    }

    method SettleUnsubmitted(cleanupConfirmed: bool)
      requires Sound() && authority.Some?
      modifies `sequence, `wrapped, `evidenceError, `now, `readings, gate
      ensures Sound() && State() == S.SettleUnsubmitted(old(State()), cleanupConfirmed)
    {
      hide GI.Inv, S.ReportNoOutput, S.ReportSettlement, Report;
      var time := Now();
      ReportNonSubmission(time);
      NonSubmissionKeepsAuthority(old(State()));
      ReportNoOutput(time);
      if cleanupConfirmed { ReportSettlement(time); } else { evidenceError := true; }
    }

    // ---------- Stopping ----------

    method ApplyStop(should: bool, time: U64, i: HostInput)
      requires Sound()
      modifies process
      ensures Sound() && State() == StopProcess(old(State()), should, time, i)
    {
      hide ProcessSpec.RequestStop, GI.Inv;
      if should && process != null && process.launched { process.RequestStop(time, i.stopSend); }
    }

    method Expire(time: U64, i: HostInput)
      requires Sound()
      modifies gate, process
      ensures Sound() && State() == S.Expire(old(State()), time, i)
    {
      hide GS.ObserveTime, GI.Inv, StopProcess, GS.Asked, GS.AnswerOf;
      if authority.None? { return; }
      GateCalls.TimeAsked(gate.State(), authority.value, time);
      var d := gate.ObserveTime(authority.value, time);
      ApplyStop(d.shouldRequestNativeStop, time, i);
    }

    // ---------- The provider ----------

    method Withdraw(expected: BindingIdentity, i: HostInput) returns (d: BindingDecision)
      requires Sound()
      modifies `sequence, `wrapped, `evidenceError, `now, `readings, gate, process
      ensures Sound() && (State(), d) == S.Withdraw(old(State()), expected, i)
    {
      hide GS.WithdrawBinding, GI.Inv, StopProcess, S.SettleUnsubmitted, S.CurrentReceipt, GS.Asked, GS.AnswerOf;
      var time := Now();
      GateCalls.WithdrawAsked(gate.State(), expected, time);
      d := gate.WithdrawBinding(expected, time);
      if d.status == Applied {
        var stops := d.nativeStopAuthority.Some? && d.nativeStopAuthority == authority;
        ApplyStop(stops, time, i);
        var receipt := CurrentReceipt();
        if receipt.Some? && receipt.value.dispatch.status == DispatchPending {
          PendingHasAuthority(State());
          SettleUnsubmitted(true);
        }
      }
    }

    method ObserveLaunchable(time: U64, i: HostInput) returns (available: bool)
      requires Sound()
      modifies `sequence, `wrapped, `evidenceError, `now, `readings, gate, process
      ensures Sound() && (State(), available) == S.ObserveLaunchable(old(State()), time, i)
    {
      hide S.Withdraw, GI.Inv, Report, Expiry;
      if gate.phase != Active { return false; }
      var active := gate.config.binding;
      var initially := initialized;
      ReportLaunchable(i.canLaunch, time);
      if initially && !i.canLaunch { var _ := Withdraw(active, i); }
      return i.canLaunch;
    }

    // ---------- Preparing and dispatching ----------

    method TakeStock(i: HostInput)
      requires Sound()
      modifies `sequence, `wrapped, `evidenceError, `now, `readings, gate, process
      ensures Sound() && State() == S.TakeStock(old(State()), i)
    {
      hide S.ObserveLaunchable, GI.Inv;
      var time := Now();
      var _ := ObserveLaunchable(time, i);
      time := Now();
      time := Now();
    }

    method TakeUp(a: OperationAuthority, q: ComputeRequest)
      requires Sound()
      modifies `process, `result, `authority, `request, `stopReported, `outcomeReported
      ensures Sound() && process == null && State() == S.TakeUp(old(State()), a, q)
    {
      hide GI.Inv;
      process, result := null, None;
      authority, request := Some(a), Some(q);
      stopReported, outcomeReported := false, false;
    }

    method PrepareRequest(q: ComputeRequest, i: HostInput) returns (d: ComputeSubmission)
      requires Sound()
      modifies Repr()
      ensures Sound() && (process == null || process == old(process)) && (State(), d) == S.Prepare(old(State()), q, i)
    {
      hide S.TakeStock, GS.Admit, GI.Inv, S.TakeUp, GS.Asked, GS.AnswerOf;
      if q.reference == "" || |q.reference| > MAXIMUM_TEXT || q.iterations == 0 || q.iterations > MAXIMUM_ITERATIONS
         || q.profileId == "" || |q.profileId| > MAXIMUM_TEXT {
        return ComputeSubmission(InvalidSubmission, InvalidRequest, None);
      }
      if evidenceError { return ComputeSubmission(BlockedSubmission, AdmissionRecoveryRequired, None); }
      if shutdown != ShutdownOpen { return ComputeSubmission(BlockedSubmission, AdmissionClosed, None); }
      TakeStock(i);
      var operation := OperationRequest(COMPUTE_CAPABILITY, gate.config.binding.effectDomain, q.reference, RESULT_SINK,
                                        now,
                                        q.deadline, Some(ExecutionRequirements(q.profileId, q.iterations)));
      GateCalls.AdmitAsked(gate.State(), operation);
      var admission := gate.Admit(operation);
      if admission.authority.None? { return ComputeSubmission(BlockedSubmission, admission.status, None); }
      TakeUp(admission.authority.value, q);
      return ComputeSubmission(PreparedSubmission, admission.status, admission.authority);
    }

    method Launch(i: HostInput) returns (launched: bool)
      requires Sound() && request.Some?
      modifies `process
      ensures Sound() && process != null && fresh(process) && fresh(process.frameBuffer)
      ensures (State(), launched) == LaunchProcess(old(State()), i)
    {
      hide ProcessSpec.Launch, GI.Inv;
      var child := new ComputeProcess(request.value.iterations, stopGrace);
      launched := child.Launch(i.launch);
      process := child;
    }

    method DispatchClaimed(a: OperationAuthority, i: HostInput) returns (sent: bool)
      requires Sound() && authority.Some? && request.Some?
      modifies `process, `sequence, `wrapped, `evidenceError, `now, `readings, gate
      ensures Sound() && (process == old(process) || (process != null && fresh(process) && fresh(process.frameBuffer)))
      ensures (State(), sent) == DispatchFrom(old(State()), a, i)
    {
      hide GS.ClaimDispatch, S.SettleUnsubmitted, LaunchProcess, S.ReportNative, GI.Inv, GS.Asked, GS.AnswerOf;
      var time := now;
      if evidenceError {
        SettleUnsubmitted(true);
        return false;
      }
      GateCalls.ClaimAsked(gate.State(), a, time);
      var granted := gate.ClaimDispatch(a, time);
      if !granted {
        SettleUnsubmitted(true);
        return false;
      }
      LaunchKeepsAuthority(State(), i);
      var launched := Launch(i);
      if !launched {
        SettleUnsubmitted(process.ioError == 0);
        return false;
      }
      time := Now();
      ReportNative(AcceptedEvent, time);
      return true;
    }

    method Dispatch(a: OperationAuthority, i: HostInput) returns (sent: bool)
      requires Sound()
      modifies Repr()
      ensures Sound() && (process == old(process) || (process != null && fresh(process) && fresh(process.frameBuffer)))
      ensures (State(), sent) == S.Dispatch(old(State()), a, i)
    {
      hide S.ObserveLaunchable, S.Expire, DispatchFrom, S.CurrentReceipt, GI.Inv;
      if authority != Some(a) || request.None? || process != null { return false; }
      var time := Now();
      var _ := ObserveLaunchable(time, i);
      var receipt := CurrentReceipt();
      if receipt.None? || receipt.value.dispatch.status != DispatchPending { return false; }
      time := Now();
      Expire(time, i);
      if authority.None? || request.None? { return false; }
      sent := DispatchClaimed(a, i);
    }

    // ---------- Control ----------

    method Cancel(a: OperationAuthority, i: HostInput) returns (d: ControlDecision)
      requires Sound()
      modifies `sequence, `wrapped, `evidenceError, `now, `readings, gate, process
      ensures Sound() && (State(), GS.Control(d)) == CancelFor(old(State()), a, i)
    {
      hide GS.RequestCancel, GI.Inv, StopProcess, S.SettleUnsubmitted, S.CurrentReceipt, GS.Asked, GS.AnswerOf;
      var time := Now();
      GateCalls.CancelAsked(gate.State(), a, time);
      d := gate.RequestCancel(a, time);
      ApplyStop(d.shouldRequestNativeStop, time, i);
      var receipt := CurrentReceipt();
      if d.status == ControlApplied && authority == Some(a) && receipt.Some?
        && receipt.value.dispatch.status == DispatchPending {
        SettleUnsubmitted(true);
      }
    }

    // ---------- Polling ----------

    method ReportStarted()
      requires Sound() && process != null && authority.Some?
      modifies `sequence, `wrapped, `evidenceError, `now, `readings, gate
      ensures Sound() && State() == S.ReportStarted(old(State()))
    {
      hide S.ReportNative, S.CurrentReceipt, GI.Inv;
      var receipt := CurrentReceipt();
      if process.view.started && receipt.Some? && receipt.value.native.started.None? {
        var time := Now();
        ReportNative(StartedEvent, time);
      }
    }

    method ReportStopOutcome(acknowledgement: StopAcknowledgement, time: U64)
      requires Sound() && authority.Some?
      modifies `sequence, `wrapped, `evidenceError, gate
      ensures Sound()
      ensures var s := old(State());
        State() == Report(Numbered(s), GS.CallObserveStop(
                            StopAcknowledgementEvidence(s.authority.value, acknowledgement, RecordBy(s, STOP, time))))
    {
      hide GS.ObserveStopAcknowledgement, GI.Inv, GS.Asked, GS.AnswerOf;
      var record := Record(STOP, time);
      var e := StopAcknowledgementEvidence(authority.value, acknowledgement, record);
      GateCalls.StopAsked(gate.State(), e);
      var d := gate.ObserveStopAcknowledgement(e);
      Accept(d);
    }

    method ReportStop()
      requires Sound() && process != null && authority.Some?
      modifies `sequence, `wrapped, `evidenceError, `now, `readings, `stopReported, gate
      ensures Sound() && State() == S.ReportStop(old(State()))
    {
      hide Report, GI.Inv;
      var v := process.view;
      var delivered := process.stopping.delivered;
      if !stopReported && v.stopRequested && (!delivered || v.stopAcknowledged || v.stopIgnored) {
        var acknowledgement := if !delivered then Unavailable else if v.stopIgnored then Refused else Acknowledged;
        var time := Now();
        ReportStopOutcome(acknowledgement, time);
        stopReported := true;
      }
    }

    method OfferOutput(time: U64)
      requires Sound() && authority.Some?
      modifies `sequence, `wrapped, `evidenceError, gate
      ensures Sound()
      ensures var s := old(State());
        State() == Report(Numbered(s), GS.CallObserveOutput(
                            OutputEvidence(s.authority.value, ResultReference(s.authority.value.operationId),
                                           RecordBy(s, RESULT_SINK, time))))
    {
      hide GS.ObserveOutputAccepted, GI.Inv, Decimal, GS.Asked, GS.AnswerOf;
      var record := Record(RESULT_SINK, time);
      var e := OutputEvidence(authority.value, ResultReference(authority.value.operationId), record);
      GateCalls.OutputAsked(gate.State(), e);
      var d := gate.ObserveOutputAccepted(e);
      Accept(d);
    }

    method Deliver(sum: U64, time: U64)
      requires Sound() && authority.Some? && request.Some?
      modifies `sequence, `wrapped, `evidenceError, `result, gate
      ensures Sound() && State() == S.Deliver(old(State()), sum, time)
    {
      hide Report, GI.Inv, Decimal;
      result := Some(ComputeResult(authority.value.operationId, request.value.reference, request.value.iterations,
                                   sum));
      OfferOutput(time);
    }

    method Withhold(time: U64)
      requires Sound() && authority.Some?
      modifies `sequence, `wrapped, `evidenceError, gate
      ensures Sound() && State() == S.Withhold(old(State()), time)
    {
      hide GS.ObserveOutputNotDelivered, GI.Inv, Decimal, GS.Asked, GS.AnswerOf;
      var record := Record(RESULT_SINK, time);
      var e := NonDeliveryEvidence(authority.value, AuthorityRevoked, ResultReference(authority.value.operationId),
                                   record);
      GateCalls.NonDeliveryAsked(gate.State(), e);
      var d := gate.ObserveOutputNotDelivered(e);
      Accept(d);
    }

    method DeliverOrWithhold(sum: U64, i: HostInput)
      requires Sound() && authority.Some? && request.Some?
      modifies `sequence, `wrapped, `evidenceError, `result, `now, `readings, gate, process
      ensures Sound() && State() == S.DeliverOrWithhold(old(State()), sum, i)
    {
      hide S.Expire, S.Deliver, S.Withhold, GS.CanDeliverResult, GI.Inv;
      ExpireKeepsWork(Read(State()), Read(State()).now, i);
      var time := Now();
      Expire(time, i);
      if !evidenceError && GS.CanDeliverResult(gate.State(), authority.value) {
        Deliver(sum, time);
      } else {
        Withhold(time);
      }
    }

    method ExpireNow(i: HostInput) returns (time: U64)
      requires Sound()
      modifies `now, `readings, gate, process
      ensures Sound() && State() == S.ExpireNow(old(State()), i) && time == now
    {
      hide S.Expire, GI.Inv;
      ExpireKeepsWork(Read(State()), Read(State()).now, i);
      time := Now();
      Expire(time, i);
    }

    method ReportOutcome(i: HostInput)
      requires Sound() && process != null && authority.Some? && request.Some?
      modifies `sequence, `wrapped, `evidenceError, `result, `outcomeReported, `now, `readings, gate, process
      ensures Sound() && State() == S.ReportOutcome(old(State()), i)
    {
      hide S.ExpireNow, S.ReportNative, S.DeliverOrWithhold, S.ReportNoOutput, S.Succeeded, S.OutcomeOf, GI.Inv;
      var time := ExpireNow(i);
      var succeeded := ReportTerminal(time);
      ReportOutput(succeeded, time, i);
      outcomeReported := true;
    }

    method ReportTerminal(time: U64) returns (succeeded: bool)
      requires Sound() && process != null && authority.Some? && request.Some?
      modifies `sequence, `wrapped, `evidenceError, gate
      ensures Sound()
      ensures var s := old(State());
        && succeeded == S.Succeeded(s.process.value, s.request.value.iterations)
        && State() == S.ReportNative(s, S.OutcomeOf(s.process.value, s.request.value.iterations), time)
    {
      hide S.ReportNative, S.Succeeded, S.OutcomeOf, GI.Inv;
      succeeded := Succeeded();
      var outcome := OutcomeKind(succeeded);
      ReportNative(outcome, time);
    }

    method ReportOutput(succeeded: bool, time: U64, i: HostInput)
      requires Sound() && process != null && authority.Some? && request.Some?
      modifies `sequence, `wrapped, `evidenceError, `result, `now, `readings, gate, process
      ensures Sound()
      ensures var s := old(State());
        State() == if succeeded then S.DeliverOrWithhold(s, s.process.value.stream.view.terminalValue, i)
                   else S.ReportNoOutput(s, time)
    {
      hide S.DeliverOrWithhold, S.ReportNoOutput, GI.Inv;
      if succeeded {
        DeliverOrWithhold(process.view.terminalValue, i);
      } else {
        ReportNoOutput(time);
      }
    }

    method Succeeded() returns (succeeded: bool)
      requires Sound() && process != null && request.Some?
      ensures succeeded == S.Succeeded(process.State(), request.value.iterations)
    {
      var v := process.view;
      return !v.malformed && process.ioError == 0 && process.exit == Some(ExitedWith(0))
        && v.terminal == CompletedTerminal
             && v.terminalIterations == request.value.iterations
               && v.terminalValue == ExpectedSum(request.value.iterations);
    }

    method OutcomeKind(succeeded: bool) returns (kind: NativeEventKind)
      requires Sound() && process != null && request.Some?
      requires succeeded == S.Succeeded(process.State(), request.value.iterations)
      ensures kind == S.OutcomeOf(process.State(), request.value.iterations)
    {
      hide S.Succeeded;
      var v := process.view;
      if succeeded { return TerminalSucceeded; }
      if !v.malformed && process.ioError == 0 && process.exit == Some(ExitedWith(20)) && v.stopRequested
         && v.terminal == CancelledTerminal && v.terminalIterations < request.value.iterations {
        return TerminalCancelled;
      }
      return TerminalFailed;
    }

    /** Native ownership is released even when the receipt is unresolved; settlement is not. */
    method CloseAndSettle(i: HostInput)
      requires Sound() && process != null && authority.Some?
      modifies `sequence, `wrapped, `evidenceError, `now, `readings, gate, process
      ensures Sound() && State() == S.CloseAndSettle(old(State()), i)
    {
      hide ProcessSpec.CloseChannels, S.ReportSettlement, S.CurrentReceipt, GI.Inv;
      var closed := process.CloseChannels(i.controlClose, i.eventClose);
      if closed {
        var receipt := CurrentReceipt();
        if !evidenceError && receipt.Some? && receipt.value.settlement.None? {
          var time := Now();
          ReportSettlement(time);
        }
      }
    }

    method Finish(i: HostInput)
      requires Sound() && process != null && authority.Some? && request.Some?
      modifies `sequence, `wrapped, `evidenceError, `result, `outcomeReported, `now, `readings, gate, process
      ensures Sound() && State() == S.Finish(old(State()), i)
    {
      hide S.ReportOutcome, S.CloseAndSettle, GI.Inv;
      if process.exit.None? || !process.eof || process.ownershipLost { return; }
      if !outcomeReported { ReportOutcome(i); }
      if authority.Some? { CloseAndSettle(i); }
    }

    method UpdateShutdown()
      requires Sound()
      modifies `shutdown
      ensures Sound() && State() == S.UpdateShutdown(old(State()))
    {
      hide S.CurrentReceipt, GI.Inv;
      if shutdown == ShutdownOpen { return; }
      var receipt := CurrentReceipt();
      var settled := authority.None? || (receipt.Some? && receipt.value.settlement.Some?);
      var clear := process == null || !process.launched || process.channelsClosed;
      if evidenceError
         || (process != null
             && (process.ownershipLost || (!clear
                                           && (process.ioError != 0 || process.stopping.terminationError != 0)))) {
        shutdown := ShutdownUnresolved;
      } else if settled && clear {
        shutdown := ShutdownClosed;
      }
    }

    method CheckSupport(i: HostInput)
      requires Sound()
      modifies `sequence, `wrapped, `evidenceError, `now, `readings, gate, process
      ensures Sound() && State() == S.CheckSupport(old(State()), i)
    {
      hide S.Withdraw, GS.SupportsExecution, GI.Inv;
      var time := Now();
      if shutdown != ShutdownOpen || gate.phase != Active || request.None? { return; }
      time := Now();
      var needed := ExecutionRequirements(request.value.profileId, request.value.iterations);
      if !GS.SupportsExecution(gate.State(), needed, time) {
        var active := gate.config.binding;
        var _ := Withdraw(active, i);
      }
    }

    method PollProcess(i: HostInput)
      requires Sound()
      modifies `now, `readings, process, if process == null then {} else {process.frameBuffer}
      ensures Sound() && State() == S.PollProcess(old(State()), i)
    {
      hide ProcessSpec.Poll, GI.Inv;
      var time := Now();
      if process != null { var _ := process.Poll(time, i.pipe, i.poll); }
    }

    /** What troubles the child revokes the operation. */
    method CancelTroubled(i: HostInput)
      requires Sound() && process != null && authority.Some?
      modifies `sequence, `wrapped, `evidenceError, `now, `readings, gate, process
      ensures Sound()
      ensures var s := old(State());
        State() == if IsTroubled(s.process.value) then CancelFor(s, s.authority.value, i).0 else s
    {
      hide CancelFor, GI.Inv;
      if process.view.malformed || process.ioError != 0 || process.ownershipLost {
        var _ := Cancel(authority.value, i);
      }
    }

    method ReportEvents()
      requires Sound() && process != null && authority.Some?
      modifies `sequence, `wrapped, `evidenceError, `now, `readings, `stopReported, gate
      ensures Sound()
      ensures var t := S.ReportStarted(old(State())); t.process.Some? && t.authority.Some? && State() == S.ReportStop(t)
    {
      hide S.ReportStarted, S.ReportStop, GI.Inv;
      ReportStarted();
      ReportStop();
    }

    method Respond(i: HostInput)
      requires Sound() && process != null && authority.Some? && request.Some?
      modifies `sequence, `wrapped, `evidenceError, `result, `outcomeReported, `stopReported, `now, `readings, gate,
               process
      ensures Sound() && State() == S.Respond(old(State()), i)
    {
      hide CancelFor, IsTroubled, S.ReportStarted, S.ReportStop, S.Finish, GI.Inv, GS.Asked, GS.AnswerOf;
      CancelTroubled(i);
      if process == null || authority.None? || request.None? { return; }
      ReportEvents();
      if process == null || authority.None? || request.None? { return; }
      Finish(i);
    }

    method Attend(i: HostInput)
      requires Sound()
      modifies this, gate, process, if process == null then {} else {process.frameBuffer}
      ensures Sound() && process == old(process) && State() == S.Attend(old(State()), i)
    {
      hide S.CheckSupport, S.PollProcess, S.Respond, GI.Inv, GS.Asked, GS.AnswerOf;
      CheckSupport(i);
      PollProcess(i);
      if process == null || authority.None? || request.None? { return; }
      Respond(i);
    }

    method ExpirePrepared(i: HostInput)
      requires Sound()
      modifies `sequence, `wrapped, `evidenceError, `now, `readings, gate, process
      ensures Sound() && State() == S.ExpirePrepared(old(State()), i)
    {
      hide S.Expire, S.SettleUnsubmitted, S.CurrentReceipt, GI.Inv;
      var time := Now();
      Expire(time, i);
      if authority.Some? && process == null {
        var receipt := CurrentReceipt();
        if receipt.Some? && receipt.value.dispatch.status == DispatchPending && receipt.value.disposition == Revoked {
          SettleUnsubmitted(true);
        }
      }
    }

    method Refresh(i: HostInput)
      requires Sound()
      modifies `sequence, `wrapped, `evidenceError, `now, `readings, gate, process
      ensures Sound() && State() == Refreshed(old(State()), i)
    {
      hide S.ObserveLaunchable, GI.Inv;
      if shutdown == ShutdownOpen && initialized {
        var time := Now();
        var _ := ObserveLaunchable(time, i);
      }
    }

    method PollAll(i: HostInput)
      requires Sound()
      modifies this, gate, process, if process == null then {} else {process.frameBuffer}
      ensures Sound() && process == old(process) && State() == PollHost(old(State()), i)
    {
      hide Refreshed, S.ExpirePrepared, S.Attend, S.UpdateShutdown, GI.Inv;
      if shutdown == ShutdownClosed { return; }
      Refresh(i);
      ExpirePrepared(i);
      if process != null && process.launched && !process.channelsClosed { Attend(i); }
      UpdateShutdown();
    }

    method Close(i: HostInput)
      requires Sound()
      modifies `shutdown, `sequence, `wrapped, `evidenceError, `now, `readings, gate, process
      ensures Sound() && State() == Closing(old(State()), i)
    {
      hide CancelFor, GS.CloseAdmission, GI.Inv, GS.Asked, GS.AnswerOf;
      shutdown := ShutdownClosing;
      GateCalls.ClosingAsked(gate.State());
      gate.CloseAdmission();
      if authority.Some? { var _ := Cancel(authority.value, i); }
    }

    method ShutDown(i: HostInput)
      requires Sound()
      modifies this, gate, process, if process == null then {} else {process.frameBuffer}
      ensures Sound() && process == old(process) && State() == S.BeginShutdown(old(State()), i)
    {
      hide Closing, PollHost, GI.Inv;
      if shutdown != ShutdownOpen { return; }
      Close(i);
      PollAll(i);
    }

    // ---------- Starting and rebinding ----------

    method Declare(time: U64, ready: bool)
      requires Sound()
      modifies `sequence, `wrapped, `evidenceError, gate
      ensures Sound() && State() == S.Declare(old(State()), time, ready)
    {
      hide StartupFor, GI.Inv;
      ReportStartup(BindingIdleAndSettled, OBSERVER, time, true);
      ReportStartup(AdapterReady, OBSERVER, time, ready);
      ReportStartup(ResultSinkReady, RESULT_SINK, time, true);
    }

    method DeclareOnce(time: U64, ready: bool)
      requires Sound()
      modifies `sequence, `wrapped, `evidenceError, `initialized, gate
      ensures Sound() && State() == S.DeclareOnce(old(State()), time, ready)
    {
      hide S.Declare, GI.Inv, GS.Asked, GS.AnswerOf;
      if initialized { return; }
      Declare(time, ready);
      initialized := ready && !evidenceError;
    }

    method Start(i: HostInput)
      requires Sound()
      modifies `sequence, `wrapped, `evidenceError, `now, `readings, `initialized, gate, process
      ensures Sound() && State() == S.Initialize(old(State()), i)
    {
      hide S.ObserveLaunchable, S.DeclareOnce, GI.Inv, GS.Asked, GS.AnswerOf;
      var time := Now();
      if shutdown != ShutdownOpen || gate.phase != Active { return; }
      var ready := ObserveLaunchable(time, i);
      DeclareOnce(time, ready);
    }

    /** Whether nothing is left of the old scope. */
    method OldScopeIsClear() returns (clear: bool)
      requires Sound()
      ensures clear == S.OldScopeIsClear(State())
    {
      hide S.CurrentReceipt, GI.Inv;
      if evidenceError { return false; }
      if authority.Some? {
        var receipt := CurrentReceipt();
        if receipt.None? || receipt.value.disposition != Released { return false; }
      }
      if process == null { return true; }
      if process.ownershipLost { return false; }
      return if process.launched then process.exit.Some? && process.eof && process.channelsClosed
      else process.ioError == 0;
    }

    method Offer(b: BindingIdentity, kind: StartupEvidenceKind, source: string, time: U64, observed: bool)
      requires Sound()
      modifies `sequence, `wrapped, gate
      ensures Sound() && State() == OfferFor(old(State()), b, kind, source, time, observed)
    {
      hide GS.ObserveReadiness, GI.Inv, Expiry, GS.Asked, GS.AnswerOf;
      var record := Record(source, time);
      var e := BindingReadinessEvidence(kind, b, record, observed, Expiry(time));
      GateCalls.ReadinessAsked(gate.State(), e);
      var _ := gate.ObserveRebindReadiness(e);
    }

    method OfferCapabilities(b: BindingIdentity, time: U64, ready: bool)
      requires Sound()
      modifies `sequence, `wrapped, gate
      ensures Sound()
      ensures var s := old(State());
        State() == Ask(Numbered(s), GS.CallObserveCapabilities(
                         ExecutionCapabilities(b, COMPUTE_CAPABILITY, PROFILE, s.maximumIterations, ready,
                                               RecordBy(s, OBSERVER, time), Expiry(time))))
    {
      hide GS.ObserveCapabilities, GI.Inv, Expiry, GS.Asked, GS.AnswerOf;
      var record := Record(OBSERVER, time);
      var e := ExecutionCapabilities(b, COMPUTE_CAPABILITY, PROFILE, maximumIterations, ready, record, Expiry(time));
      GateCalls.CapabilitiesAsked(gate.State(), e);
      var _ := gate.ObserveExecutionCapabilities(e);
    }

    method OfferAll(b: BindingIdentity, ready: bool)
      requires Sound()
      modifies `sequence, `wrapped, gate
      ensures Sound() && State() == S.OfferAll(old(State()), b, ready)
    {
      hide OfferFor, GI.Inv, GS.Asked, Expiry;
      OffersKeepTime(State(), b, ready);
      Offer(b, BindingIdleAndSettled, OBSERVER, now, true);
      Offer(b, AdapterReady, OBSERVER, now, ready);
      Offer(b, ResultSinkReady, RESULT_SINK, now, true);
      OfferCapabilities(b, now, ready);
    }

    method CommitOrAbandon(b: BindingIdentity, executable: string) returns (d: BindingDecision)
      requires Sound()
      modifies `worker, `initialized, `now, `readings, gate
      ensures Sound() && (State(), d) == S.CommitOrAbandon(old(State()), b, executable)
    {
      hide GS.CommitRebind, GS.WithdrawBinding, GI.Inv, GS.Asked, GS.AnswerOf;
      GateCalls.CommitAsked(gate.State(), b, now);
      d := gate.CommitRebind(b, now);
      if d.status != Applied {
        var time := Now();
        GateCalls.WithdrawAsked(gate.State(), b, time);
        var _ := gate.WithdrawBinding(b, time);
        return;
      }
      worker, initialized := executable, true;
    }

    method Begin(expected: BindingIdentity, provider: string) returns (d: BindingDecision)
      requires Sound()
      modifies `sequence, `wrapped, gate
      ensures Sound()
      ensures var s := old(State());
        State() == Ask(Numbered(s), BeginFor(s, expected, provider))
        && GS.Binding(d) == GS.AnswerOf(s.gate, BeginFor(s, expected, provider))
    {
      hide GS.BeginRebind, GI.Inv, Expiry, GS.Asked, GS.AnswerOf;
      var record := Record(OBSERVER, now);
      GateCalls.BeginAsked(gate.State(), expected, provider,
                            BindingReadinessEvidence(BindingIdleAndSettled, expected, record, true, Expiry(now)), now);
      d := gate.BeginRebind(expected, provider,
                            BindingReadinessEvidence(BindingIdleAndSettled, expected, record, true, Expiry(now)), now);
    }

    method RebindClear(expected: BindingIdentity, provider: string, executable: string, i: HostInput)
      returns (d: BindingDecision)
      requires Sound()
      modifies `worker, `initialized, `sequence, `wrapped, `now, `readings, gate
      ensures Sound() && (State(), d) == RebindFrom(old(State()), expected, provider, executable, i)
    {
      hide S.OfferAll, S.CommitOrAbandon, BeginFor, GI.Inv, GS.Asked, GS.AnswerOf;
      d := Begin(expected, provider);
      if d.status != Applied || d.candidate.None? { return; }
      var b := d.candidate.value;
      var time := Now();
      OfferAll(b, i.canLaunch);
      time := Now();
      d := CommitOrAbandon(b, executable);
    }

    method Rebind(expected: BindingIdentity, provider: string, executable: string, i: HostInput)
      returns (d: BindingDecision)
      requires Sound()
      modifies `worker, `initialized, `sequence, `wrapped, `now, `readings, gate
      ensures Sound() && (State(), d) == S.Rebind(old(State()), expected, provider, executable, i)
    {
      hide RebindFrom, S.OldScopeIsClear, GI.Inv;
      var time := Now();
      if shutdown != ShutdownOpen { return BindingDecision(BindingClosed, None, None); }
      if expected != gate.config.binding { return BindingDecision(StaleIdentity, None, None); }
      if gate.phase != Withdrawn { return BindingDecision(WrongPhase, None, None); }
      var clear := OldScopeIsClear();
      if !clear { return BindingDecision(UnresolvedWork, None, None); }
      if provider == "" || executable == "" || executable[0] != '/' {
        return BindingDecision(InvalidProvider, None, None);
      }
      time := Now();
      d := RebindClear(expected, provider, executable, i);
    }

    // ---------- The public calls ----------

    method Initialize(i: HostInput, clock: seq<U64>)
      requires Valid()
      modifies Repr()
      ensures Valid() && State() == HR.HostNext(old(State()), HR.HostCall(HR.DoInitialize, i, clock))
      ensures old(shutdown) == ShutdownClosed ==> shutdown == ShutdownClosed
      ensures shutdown == ShutdownClosed ==> HasNoChild()
    {
      hide HR.Rests, S.Initialize, S.Prepare, S.Dispatch, CancelFor, PollHost, S.BeginShutdown, S.Withdraw, S.Rebind,
           GI.Inv;
      HR.WhatCallsKeep(State(), HR.HostCall(HR.DoInitialize, i, clock));
      readings := clock;
      Start(i);
    }

    method Prepare(q: ComputeRequest, i: HostInput, clock: seq<U64>) returns (d: ComputeSubmission)
      requires Valid()
      modifies Repr()
      ensures Valid() && (process == null || process == old(process))
      ensures State() == HR.HostNext(old(State()), HR.HostCall(HR.DoPrepare(q), i, clock))
      ensures d == S.Prepare(old(State()).(readings := clock), q, i).1
      ensures d.authority.Some? ==> old(HasNoChild()) && authority == d.authority
      ensures old(shutdown) == ShutdownClosed ==> shutdown == ShutdownClosed
      ensures shutdown == ShutdownClosed ==> HasNoChild()
    {
      hide HR.Rests, S.Initialize, S.Prepare, S.Dispatch, CancelFor, PollHost, S.BeginShutdown, S.Withdraw, S.Rebind,
           GI.Inv;
      HR.WhatCallsKeep(State(), HR.HostCall(HR.DoPrepare(q), i, clock));
      HR.SameAfterReadings(State(), clock);
      if S.Prepare(State().(readings := clock), q, i).1.authority.Some? {
        HR.PreparedHadNoChild(State().(readings := clock), q, i);
      }
      readings := clock;
      d := PrepareRequest(q, i);
    }

    method DispatchPrepared(a: OperationAuthority, i: HostInput, clock: seq<U64>) returns (sent: bool)
      requires Valid()
      modifies Repr()
      ensures Valid() && (process == old(process) || (process != null && fresh(process) && fresh(process.frameBuffer)))
      ensures State() == HR.HostNext(old(State()), HR.HostCall(HR.DoDispatch(a), i, clock))
      ensures sent == S.Dispatch(old(State()).(readings := clock), a, i).1
      ensures old(shutdown) == ShutdownClosed ==> shutdown == ShutdownClosed
      ensures shutdown == ShutdownClosed ==> HasNoChild()
    {
      hide HR.Rests, S.Initialize, S.Prepare, S.Dispatch, CancelFor, PollHost, S.BeginShutdown, S.Withdraw, S.Rebind,
           GI.Inv;
      HR.WhatCallsKeep(State(), HR.HostCall(HR.DoDispatch(a), i, clock));
      readings := clock;
      sent := Dispatch(a, i);
    }

    /** A request prepared and dispatched at once. */
    method Submit(q: ComputeRequest, i: HostInput, j: HostInput, clock: seq<U64>, rest: seq<U64>)
      returns (d: ComputeSubmission)
      requires Valid()
      modifies Repr()
      ensures Valid() && fresh(Repr() - old(Repr()))
      ensures var s := old(State());
        var t := HR.HostNext(s, HR.HostCall(HR.DoPrepare(q), i, clock));
        var p := S.Prepare(s.(readings := clock), q, i).1;
        if p.authority.None? then State() == t && d == p
        else
          && State() == HR.HostNext(t, HR.HostCall(HR.DoDispatch(p.authority.value), j, rest))
          && d == p.(status := if S.Dispatch(t.(readings := rest), p.authority.value, j).1 then SubmittedWork
                     else NotSubmittedWork)
    {
      hide HR.Rests, HR.HostNext, S.Prepare, S.Dispatch, GI.Inv;
      d := Prepare(q, i, clock);
      if d.authority.Some? {
        var sent := DispatchPrepared(d.authority.value, j, rest);
        d := d.(status := if sent then SubmittedWork else NotSubmittedWork);
      }
    }

    method RequestCancel(a: OperationAuthority, i: HostInput, clock: seq<U64>) returns (d: ControlDecision)
      requires Valid()
      modifies Repr()
      ensures Valid() && process == old(process)
      ensures State() == HR.HostNext(old(State()), HR.HostCall(HR.DoCancel(a), i, clock))
      ensures GS.Control(d) == CancelFor(old(State()).(readings := clock), a, i).1
      ensures old(shutdown) == ShutdownClosed ==> shutdown == ShutdownClosed
      ensures shutdown == ShutdownClosed ==> HasNoChild()
    {
      hide HR.Rests, S.Initialize, S.Prepare, S.Dispatch, CancelFor, PollHost, S.BeginShutdown, S.Withdraw, S.Rebind,
           GI.Inv;
      HR.WhatCallsKeep(State(), HR.HostCall(HR.DoCancel(a), i, clock));
      readings := clock;
      d := Cancel(a, i);
    }

    method Poll(i: HostInput, clock: seq<U64>)
      requires Valid()
      modifies Repr()
      ensures Valid() && process == old(process)
      ensures State() == HR.HostNext(old(State()), HR.HostCall(HR.DoPoll, i, clock))
      ensures old(shutdown) == ShutdownClosed ==> shutdown == ShutdownClosed
      ensures shutdown == ShutdownClosed ==> HasNoChild()
      ensures old(HasOverdueChild(i.poll.wait)) ==> process.stopping.terminationAttempted
    {
      hide HR.Rests, S.Initialize, S.Prepare, S.Dispatch, CancelFor, PollHost, S.BeginShutdown, S.Withdraw, S.Rebind,
           GI.Inv;
      HR.WhatCallsKeep(State(), HR.HostCall(HR.DoPoll, i, clock));
      if HasOverdueChild(i.poll.wait) { HL.OverdueChildIsKilledByCall(State(), i, clock); }
      readings := clock;
      PollAll(i);
    }

    method BeginShutdown(i: HostInput, clock: seq<U64>)
      requires Valid()
      modifies Repr()
      ensures Valid() && process == old(process)
      ensures State() == HR.HostNext(old(State()), HR.HostCall(HR.DoBeginShutdown, i, clock))
      ensures old(shutdown) == ShutdownClosed ==> shutdown == ShutdownClosed
      ensures shutdown == ShutdownClosed ==> HasNoChild()
    {
      hide HR.Rests, S.Initialize, S.Prepare, S.Dispatch, CancelFor, PollHost, S.BeginShutdown, S.Withdraw, S.Rebind,
           GI.Inv;
      HR.WhatCallsKeep(State(), HR.HostCall(HR.DoBeginShutdown, i, clock));
      readings := clock;
      ShutDown(i);
    }

    method WithdrawBinding(b: BindingIdentity, i: HostInput, clock: seq<U64>) returns (d: BindingDecision)
      requires Valid()
      modifies Repr()
      ensures Valid() && process == old(process)
      ensures State() == HR.HostNext(old(State()), HR.HostCall(HR.DoWithdraw(b), i, clock))
      ensures d == S.Withdraw(old(State()).(readings := clock), b, i).1
      ensures old(shutdown) == ShutdownClosed ==> shutdown == ShutdownClosed
      ensures shutdown == ShutdownClosed ==> HasNoChild()
    {
      hide HR.Rests, S.Initialize, S.Prepare, S.Dispatch, CancelFor, PollHost, S.BeginShutdown, S.Withdraw, S.Rebind,
           GI.Inv;
      HR.WhatCallsKeep(State(), HR.HostCall(HR.DoWithdraw(b), i, clock));
      readings := clock;
      d := Withdraw(b, i);
    }

    method RebindProvider(expected: BindingIdentity, provider: string, executable: string, i: HostInput,
                          clock: seq<U64>)
      returns (d: BindingDecision)
      requires Valid()
      modifies Repr()
      ensures Valid() && process == old(process)
      ensures State() == HR.HostNext(old(State()), HR.HostCall(HR.DoRebind(expected, provider, executable), i, clock))
      ensures d == S.Rebind(old(State()).(readings := clock), expected, provider, executable, i).1
      ensures d.status == Applied ==>
                old(HasNoChild()) && worker == executable && gate.phase == Active
                  && gate.config.binding.providerId == provider
      ensures old(shutdown) == ShutdownClosed ==> shutdown == ShutdownClosed
      ensures shutdown == ShutdownClosed ==> HasNoChild()
    {
      hide HR.Rests, S.Initialize, S.Prepare, S.Dispatch, CancelFor, PollHost, S.BeginShutdown, S.Withdraw, S.Rebind,
           GI.Inv;
      HR.WhatCallsKeep(State(), HR.HostCall(HR.DoRebind(expected, provider, executable), i, clock));
      HR.SameAfterReadings(State(), clock);
      if S.Rebind(State().(readings := clock), expected, provider, executable, i).1.status == Applied {
        HR.ReboundHadNoChild(State().(readings := clock), expected, provider, executable, i);
      }
      readings := clock;
      d := Rebind(expected, provider, executable, i);
    }
  }

  lemma OffersKeepTime(s: HostState, b: BindingIdentity, ready: bool)
    ensures var s1 := OfferFor(s, b, BindingIdleAndSettled, OBSERVER, s.now, true);
      var s2 := OfferFor(s1, b, AdapterReady, OBSERVER, s.now, ready);
      var s3 := OfferFor(s2, b, ResultSinkReady, RESULT_SINK, s.now, true);
      s1.now == s2.now == s3.now == s.now
  {
    hide GS.Asked, Expiry;
  }

  lemma ExpireKeepsWork(s: HostState, time: U64, i: HostInput)
    ensures var t := S.Expire(s, time, i);
      t.authority == s.authority && t.request == s.request && (t.process.Some? <==> s.process.Some?)
  {
    hide GS.Asked, GS.AnswerOf, ProcessSpec.RequestStop;
  }

  lemma NewHostIsNew(maximum: U64, stopGrace: U64, worker: string, domain: string, generation: U64, time: U64)
    requires domain != "" && generation > 0
    ensures HR.IsNew(NewHost(maximum, stopGrace, worker, domain, generation, time))
  {
  }

  lemma PendingHasAuthority(s: HostState)
    requires S.CurrentReceipt(s).Some?
    ensures s.authority.Some?
  {
  }

  lemma LaunchKeepsAuthority(s: HostState, i: HostInput)
    requires s.request.Some?
    ensures LaunchProcess(s, i).0.authority == s.authority && LaunchProcess(s, i).0.process.Some?
  {
    hide ProcessSpec.Launch;
  }

  lemma NonSubmissionKeepsAuthority(s: HostState)
    requires s.authority.Some?
    ensures var t := Read(s);
      Report(Numbered(t), GS.CallObserveNonSubmission(NonSubmissionEvidence(t.authority.value,
                                                                            RecordBy(t, OBSERVER, t.now)))).authority
        == s.authority
  {
  }
}
