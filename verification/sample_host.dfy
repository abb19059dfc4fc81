/**
 The sample execution host: fields updated in place around a real gate, refining SampleSpec call by call.
 The adapter's fields are kept as one record; what its callbacks bring in is staged in the order it came.
 */
module SampleExecutionHosts {
  import opened Machine
  import opened GateTypes
  import GS = GateSpec
  import GI = GateInvariant
  import GateCalls
  import opened AuthorityGates
  import S = SampleSpec
  import opened SampleSpec
  import SI = SampleInvariant
  import SS = SampleSteps
  import SR = SampleRuns

  class SampleExecutionHost {
    const gate: AuthorityGate
    var adapter: AdapterState
    var staged: seq<Staged>
    var current: Option<OperationAuthority>
    var prepared: Option<OperationAuthority>
    var request: Option<SampleRequest>
    var numbers: Numbers
    var isShutdown: bool
    var now: U64
    var readings: seq<U64>
    ghost var history: map<U64, SampleRequest>

    ghost function Repr(): set<object>
      reads this
    {
      {this, gate}
    }

    ghost function State(): SampleState
      reads Repr()
    {
      SampleState(gate.State(), adapter, staged, current, prepared, request, numbers, isShutdown, now, readings,
                  history)
    }

    ghost predicate Valid()
      reads Repr()
    {
      gate.Valid() && SR.Rests(State())
    }

    constructor (deferred: bool, time: U64)
      ensures Valid() && fresh(Repr()) && State() == NewSample(deferred, time)
    {
      hide SI.SampleInv, GI.Inv;
      gate := new AuthorityGate(ConfigAt(time));
      adapter, staged := NewAdapter(deferred), [];
      current, prepared, request, numbers, isShutdown := None, None, None, Numbers(0, 0, 0), false;
      now, readings, history := time, [], map[];
      new;
      SI.NewSampleIsValid(deferred, time);
    }

    method Read() returns (time: U64)
      modifies `now, `readings
      ensures State() == S.Read(old(State())) && time == now
    {
      if readings != [] { now, readings := Max(now, readings[0]), readings[1..]; }
      time := now;
    }

    // ---------- The adapter ----------

    method Emit(w: WorkItem, kind: CallbackKind, sequence: U64, result: Option<SampleResult>)
      modifies `adapter, `staged, `now, `readings
      ensures State() == S.Emit(old(State()), w, kind, sequence, result)
    {
      if kind == SettledCallback && !adapter.settlementReporting { return; }
      if adapter.listening {
        var c := Callback(kind, w.authority, w.identity, sequence, result);
        if kind == ResultCallback && adapter.replayEnabled && adapter.replay.None? {
          adapter := adapter.(replay := Some(c));
        }
        var at := Read();
        staged := staged + [Staged(c, at)];
      }
    }

    method EmitUnsubmitted(w: WorkItem)
      modifies `adapter, `staged, `now, `readings
      ensures State() == S.EmitUnsubmitted(old(State()), w)
    {
      hide S.Emit;
      Emit(w, NotSubmittedCallback, 1, None);
      Emit(w, NoOutputCallback, 2, None);
      Emit(w, SettledCallback, 3, None);
    }

    method EmitWithoutOutput(w: WorkItem, kind: CallbackKind, sequence: U64)
      modifies `adapter, `staged, `now, `readings
      ensures State() == S.EmitWithoutOutput(old(State()), w, kind, sequence)
    {
      hide S.Emit;
      Emit(w, kind, sequence, None);
      Emit(w, NoOutputCallback, 1, None);
      Emit(w, SettledCallback, 2, None);
    }

    /** The values squared one after another, and summed up on the way. */
    static method Square(operationId: U64, q: SampleRequest) returns (r: SampleResult)
      ensures r == ResultOf(operationId, q)
      ensures r.operationId == operationId && r.reference == q.reference && |r.squares| == |q.values|
      ensures forall k :: 0 <= k < |q.values| ==> r.squares[k] == q.values[k] * q.values[k]
      ensures r.sum == SumOf(r.squares)
    {
      var squares: seq<int>, sum := [], 0;
      for k := 0 to |q.values|
        invariant squares == Squares(q.values[..k]) && sum == SumOf(squares)
      {
        var square := q.values[k] * q.values[k];
        SquaresExtend(q.values, k);
        squares, sum := squares + [square], sum + square;
      }
      assert q.values[..|q.values|] == q.values;
      r := SampleResult(operationId, q.reference, squares, sum);
    }

    method Finish(w: WorkItem)
      modifies `adapter, `staged, `now, `readings
      ensures State() == FinishWork(old(State()), w)
    {
      hide S.Emit, S.EmitWithoutOutput, EmitResult, ResultOf;
      if w.cancelled {
        EmitWithoutOutput(w, CancelledCallback, 2);
        return;
      }
      adapter := adapter.(counts := adapter.counts.(executions := adapter.counts.executions + 1));
      Emit(w, StartedCallback, 2, None);
      if adapter.failNext {
        adapter := adapter.(failNext := false);
        EmitWithoutOutput(w, FailedCallback, 3);
        return;
      }
      Succeed(w);
    }

    method Succeed(w: WorkItem)
      modifies `adapter, `staged, `now, `readings
      ensures State() == EmitResult(old(State()), w)
    {
      hide S.Emit, ResultOf;
      var r := Square(w.authority.operationId, w.request);
      Emit(w, SucceededCallback, 3, None);
      Emit(w, ResultCallback, 4, Some(r));
      Emit(w, SettledCallback, 5, None);
    }

    method FinishPendingWork()
      modifies `adapter, `staged, `now, `readings
      ensures State() == FinishPending(old(State()))
    {
      hide FinishWork;
      if adapter.pending.Some? {
        var w := adapter.pending.value;
        adapter := adapter.(pending := None);
        Finish(w);
      }
    }

    /** A stop as the adapter takes it: acknowledged, refused or ignored, and the work cancelled if it cooperates. */
    method RequestStop(authority: OperationAuthority) returns (acknowledgement: Option<StopAcknowledgement>)
      modifies `adapter
      ensures State() == old(State()).(adapter := Stopped(old(adapter), authority))
      ensures acknowledgement == StopAnswer(old(adapter), authority)
    {
      adapter := adapter.(counts := adapter.counts.(stops := adapter.counts.stops + 1));
      if adapter.pending.None? || adapter.pending.value.authority != authority { return Some(Unavailable); }
      match adapter.cancellation
      case Cooperative =>
        adapter := adapter.(pending := Some(adapter.pending.value.(cancelled := true)));
        return Some(Acknowledged);
      case Ignoring => return Some(Acknowledged);
      case Refusing => return Some(Refused);
      case NotAvailable => return Some(Unavailable);
      case Silent => return None;
    }

    // ---------- Control ----------

    method DiscardPrepared()
      modifies `adapter, `staged, `now, `readings, `prepared, `request
      ensures State() == S.DiscardPrepared(old(State()))
    {
      hide S.EmitUnsubmitted;
      if prepared.None? { return; }
      var authority := prepared.value;
      prepared, request := None, None;
      EmitUnsubmitted(WorkItem(authority, NO_REQUEST, "", false));
    }

    method StopWork(authority: OperationAuthority)
      requires gate.Valid()
      modifies `adapter, `now, `readings, gate
      ensures gate.Valid() && State() == S.StopWork(old(State()), authority)
    {
      hide GS.ObserveStopAcknowledgement, GI.Inv, Stopped, StopAnswer, GS.Asked, GS.AnswerOf;
      var acknowledgement := RequestStop(authority);
      if acknowledgement.Some? {
        var time := Read();
        var e := StopAcknowledgementEvidence(authority, acknowledgement.value, EvidenceRecord(STOP, time, 1));
        GateCalls.StopAsked(gate.State(), e);
        var _ := gate.ObserveStopAcknowledgement(e);
      }
    }

    method ApplyControl(authority: OperationAuthority, d: ControlDecision)
      requires gate.Valid()
      modifies `adapter, `staged, `now, `readings, `prepared, `request, gate
      ensures gate.Valid() && State() == S.ApplyControl(old(State()), authority, d)
    {
      hide S.DiscardPrepared, S.StopWork, GI.Inv;
      if d.status != ControlApplied { return; }
      if prepared.Some? && prepared.value.operationId == authority.operationId { DiscardPrepared(); }
      if d.shouldRequestNativeStop { StopWork(authority); }
    }

    method ObserveTime(time: U64)
      requires gate.Valid()
      modifies `adapter, `staged, `now, `readings, `prepared, `request, gate
      ensures gate.Valid() && State() == ObserveAt(old(State()), time)
    {
      hide GS.ObserveTime, S.ApplyControl, GI.Inv, GS.Asked, GS.AnswerOf;
      if current.None? { return; }
      GateCalls.TimeAsked(gate.State(), current.value, time);
      var d := gate.ObserveTime(current.value, time);
      ApplyControl(current.value, d);
    }

    method Look() returns (time: U64)
      requires gate.Valid()
      modifies `adapter, `staged, `now, `readings, `prepared, `request, gate
      ensures gate.Valid() && (State(), time) == S.Look(old(State()))
    {
      hide ObserveAt, GI.Inv;
      time := Read();
      ObserveTime(time);
    }

    method WithdrawNow(expected: BindingIdentity) returns (d: BindingDecision)
      requires gate.Valid()
      modifies `adapter, `staged, `now, `readings, `prepared, `request, gate
      ensures gate.Valid() && (State(), d) == S.Withdraw(old(State()), expected)
    {
      hide GS.WithdrawBinding, S.DiscardPrepared, S.ApplyControl, GI.Inv, GS.Asked, GS.AnswerOf;
      var time := Read();
      GateCalls.WithdrawAsked(gate.State(), expected, time);
      d := gate.WithdrawBinding(expected, time);
      if d.status == Applied {
        DiscardPrepared();
        if d.nativeStopAuthority.Some? {
          ApplyControl(d.nativeStopAuthority.value, ControlDecision(ControlApplied, true));
        }
      }
    }

    method PollNow()
      requires gate.Valid()
      modifies `adapter, `staged, `now, `readings, `prepared, `request, gate
      ensures gate.Valid() && State() == PollSample(old(State()))
    {
      hide S.Withdraw, ObserveAt, GI.Inv;
      var time := Read();
      if gate.initialization == Ready && !(adapter.workerReady && !adapter.closed && adapter.sinkReady) {
        var active := gate.config.binding;
        var _ := WithdrawNow(active);
      }
      ObserveTime(now);
    }

    // ---------- Delivering ----------

    /** The adapter's side of a result: into the sink, if the gate permits and the sink is there. */
    method AcceptResult(authority: OperationAuthority, r: SampleResult) returns (acceptance: Acceptance)
      requires gate.Valid()
      modifies `adapter
      ensures acceptance == AcceptanceOf(old(State()), authority, r)
      ensures State() == Store(old(State()), r, acceptance)
    {
      hide GS.CanDeliverResult, GI.Inv;
      if r.operationId != authority.operationId { return InvalidResult; }
      if !GS.CanDeliverResult(gate.State(), authority) {
        adapter := adapter.(counts := adapter.counts.(denials := adapter.counts.denials + 1));
        return PermissionDenied;
      }
      if !adapter.sinkReady || adapter.closed { return SinkUnavailable; }
      adapter := adapter.(results := adapter.results + [r]);
      return ResultAccepted;
    }

    method ReportAcceptance(authority: OperationAuthority, acceptance: Acceptance, time: U64)
      requires gate.Valid()
      modifies gate
      ensures gate.Valid() && State() == S.ReportAcceptance(old(State()), authority, acceptance, time)
    {
      hide GS.ObserveOutputAccepted, GS.ObserveOutputNotDelivered, GI.Inv, Decimal, GS.Asked, GS.AnswerOf;
      var reference, record := ResultReference(authority.operationId), EvidenceRecord(SINK, time, 1);
      if acceptance == ResultAccepted {
        var e := OutputEvidence(authority, reference, record);
        GateCalls.OutputAsked(gate.State(), e);
        var _ := gate.ObserveOutputAccepted(e);
      } else if acceptance != InvalidResult {
        var reason := if acceptance == PermissionDenied then AuthorityRevoked else SinkRejected;
        var e := NonDeliveryEvidence(authority, reason, reference, record);
        GateCalls.NonDeliveryAsked(gate.State(), e);
        var _ := gate.ObserveOutputNotDelivered(e);
      }
    }

    method TakeResult(c: Callback)
      requires gate.Valid()
      modifies `adapter, `staged, `now, `readings, `prepared, `request, gate
      ensures gate.Valid() && State() == S.TakeResult(old(State()), c)
    {
      hide ObserveAt, Store, AcceptanceOf, S.ReportAcceptance, GI.Inv;
      if c.result.None? { return; }
      var time := Look();
      var acceptance := AcceptResult(c.authority, c.result.value);
      ReportAcceptance(c.authority, acceptance, time);
    }

    method TakeSettlement(c: Callback)
      requires gate.Valid()
      modifies `adapter, `staged, `now, `readings, `prepared, `request, gate
      ensures gate.Valid() && State() == S.TakeSettlement(old(State()), c)
    {
      hide S.Look, GS.ObserveSettlement, GI.Inv, GS.Asked, GS.AnswerOf;
      var time := Look();
      var e := SettlementEvidence(c.authority, SCOPE, true, EvidenceRecord(ADAPTER, time, c.sequence));
      GateCalls.SettlementAsked(gate.State(), e);
      var _ := gate.ObserveSettlement(e);
    }

    method TakeNative(c: Callback, at: U64)
      requires gate.Valid() && NativeKind(c.kind).Some?
      modifies gate
      ensures gate.Valid()
      ensures State() == Ask(old(State()), GS.CallObserveNative(
                               NativeEvidence(c.authority, c.identity, NativeKind(c.kind).value,
                                              EvidenceRecord(WORKER, at, c.sequence))))
    {
      hide GS.ObserveNative, GI.Inv, GS.Asked, GS.AnswerOf;
      var e := NativeEvidence(c.authority, c.identity, NativeKind(c.kind).value,
                              EvidenceRecord(WORKER, at, c.sequence));
      GateCalls.NativeAsked(gate.State(), e);
      var _ := gate.ObserveNative(e);
    }

    method TakeAbsence(c: Callback, at: U64)
      requires gate.Valid() && (c.kind == NotSubmittedCallback || c.kind == NoOutputCallback)
      modifies gate
      ensures gate.Valid() && State() == S.TakeEvent(old(State()), Staged(c, at))
    {
      hide GS.ObserveNonSubmission, GS.ObserveOutputNotDelivered, GI.Inv, GS.Asked, GS.AnswerOf;
      var record := EvidenceRecord(ADAPTER, at, c.sequence);
      if c.kind == NotSubmittedCallback {
        var e := NonSubmissionEvidence(c.authority, record);
        GateCalls.NonSubmissionAsked(gate.State(), e);
        var _ := gate.ObserveNonSubmission(e);
      } else {
        var e := NonDeliveryEvidence(c.authority, NoOutputProduced, "", record);
        GateCalls.NonDeliveryAsked(gate.State(), e);
        var _ := gate.ObserveOutputNotDelivered(e);
      }
    }

    method TakeEvent(e: Staged)
      requires gate.Valid()
      modifies `adapter, `staged, `now, `readings, `prepared, `request, gate
      ensures gate.Valid() && State() == S.TakeEvent(old(State()), e)
    {
      hide S.TakeResult, S.TakeSettlement, GI.Inv, GS.Asked;
      var c := e.callback;
      match c.kind
      case NotSubmittedCallback => TakeAbsence(c, e.at);
      case NoOutputCallback => TakeAbsence(c, e.at);
      case ResultCallback => TakeResult(c);
      case SettledCallback => TakeSettlement(c);
      case _ => TakeNative(c, e.at);
    }

    method ProcessNextEvent() returns (took: bool)
      requires gate.Valid()
      modifies `adapter, `staged, `now, `readings, `prepared, `request, gate
      ensures gate.Valid() && (State(), took) == ProcessNext(old(State()))
    {
      hide PollSample, S.TakeEvent, GI.Inv;
      PollNow();
      if staged == [] { return false; }
      var e := staged[0];
      staged := staged[1..];
      TakeEvent(e);
      return true;
    }

    /** Events are taken until none is left; each one taken lightens what is left. */
    method ProcessAllEvents()
      requires gate.Valid() && SI.SampleInv(State())
      modifies `adapter, `staged, `now, `readings, `prepared, `request, gate
      ensures gate.Valid() && State() == SS.ProcessAll(old(State()))
    {
      hide ProcessNext, GI.Inv, SI.SampleInv, SI.Stays;
      var more := true;
      while more
        invariant gate.Valid() && SI.SampleInv(State())
        invariant if more then SS.ProcessAll(State()) == SS.ProcessAll(old(State()))
                  else State() == SS.ProcessAll(old(State()))
        decreases if more then 1 else 0, SI.Weight(State())
      {
        SS.ProcessNextKeeps(State());
        more := ProcessNextEvent();
      }
    }

    // ---------- Preparing and dispatching ----------

    method TakeUp(a: OperationAuthority, q: SampleRequest)
      modifies `current, `prepared, `request, `history
      ensures State() == S.TakeUp(old(State()), a, q)
    {
      current, prepared, request, history := Some(a), Some(a), Some(q), history[a.operationId := q];
    }

    method Offer(q: SampleRequest) returns (d: SampleSubmission)
      requires gate.Valid()
      modifies `adapter, `staged, `now, `readings, `current, `prepared, `request, `history, gate
      ensures gate.Valid() && (State(), d) == S.Offer(old(State()), q)
    {
      hide S.Look, GS.Admit, S.TakeUp, GI.Inv, GS.Asked, GS.AnswerOf;
      var time := Look();
      var operation := OperationRequest(CAPABILITY, BINDING.effectDomain, q.reference, SINK, time, q.deadline, None);
      GateCalls.AdmitAsked(gate.State(), operation);
      var admission := gate.Admit(operation);
      if admission.authority.None? { return SampleSubmission(SampleBlocked, admission.status, None); }
      TakeUp(admission.authority.value, q);
      return SampleSubmission(SamplePrepared, admission.status, admission.authority);
    }

    /** A request is valid if it is named and its values are few and small. */
    static method IsValid(q: SampleRequest) returns (valid: bool)
      ensures valid <==> IsRequest(q)
    {
      if q.reference == "" || q.values == [] || |q.values| > MAXIMUM_VALUES { return false; }
      for k := 0 to |q.values|
        invariant forall v :: v in q.values[..k] ==> -MAXIMUM_VALUE <= v <= MAXIMUM_VALUE
      {
        assert q.values[k] in q.values && q.values[..k + 1] == q.values[..k] + [q.values[k]];
        if q.values[k] < -MAXIMUM_VALUE || q.values[k] > MAXIMUM_VALUE { return false; }
      }
      assert q.values[..|q.values|] == q.values;
      return true;
    }

    method PrepareNow(q: SampleRequest) returns (d: SampleSubmission)
      requires gate.Valid()
      modifies `adapter, `staged, `now, `readings, `current, `prepared, `request, `history, gate
      ensures gate.Valid() && (State(), d) == S.Prepare(old(State()), q)
    {
      hide PollSample, S.Offer, IsRequest, GI.Inv;
      PollNow();
      var valid := IsValid(q);
      if !valid { return SampleSubmission(SampleInvalid, InvalidRequest, None); }
      d := Offer(q);
    }

    method Permit(a: OperationAuthority) returns (granted: bool)
      requires gate.Valid()
      modifies `adapter, `staged, `now, `readings, `prepared, `request, gate
      ensures gate.Valid() && (State(), granted) == S.Permit(old(State()), a)
    {
      hide S.Look, GS.ClaimDispatch, GI.Inv, GS.Asked, GS.AnswerOf;
      var time := Look();
      GateCalls.ClaimAsked(gate.State(), a, time);
      granted := gate.ClaimDispatch(a, time);
    }

    method Start(w: WorkItem)
      modifies `adapter, `staged, `now, `readings
      ensures State() == StartWork(old(State()), w)
    {
      hide S.Emit, S.EmitWithoutOutput, FinishWork;
      adapter := adapter.(counts := adapter.counts.(submissions := adapter.counts.submissions + 1));
      if adapter.rejectNext {
        adapter := adapter.(rejectNext := false);
        EmitWithoutOutput(w, RejectedCallback, 1);
        return;
      }
      Emit(w, AcceptedCallback, 1, None);
      if adapter.deferred {
        adapter := adapter.(pending := Some(w));
      } else {
        Finish(w);
      }
    }

    method DispatchWork(a: OperationAuthority, q: SampleRequest) returns (sent: bool)
      requires gate.Valid()
      modifies `adapter, `staged, `now, `readings, `prepared, `request, gate
      ensures gate.Valid() && (State(), sent) == S.DispatchWork(old(State()), a, q)
    {
      hide S.EmitUnsubmitted, S.Permit, StartWork, GI.Inv, Decimal;
      var w := WorkFor(a, q);
      if !adapter.workerReady || adapter.closed || !adapter.sinkReady || adapter.pending.Some? {
        EmitUnsubmitted(w);
        return false;
      }
      var granted := Permit(a);
      if !granted {
        EmitUnsubmitted(w);
        return false;
      }
      Start(w);
      return true;
    }

    method TakeEvents()
      requires gate.Valid() && SI.SampleInv(State())
      modifies `adapter, `staged, `now, `readings, `prepared, `request, gate
      ensures gate.Valid() && State() == SR.TakeEvents(old(State()))
    {
      hide ProcessNext, GI.Inv, SI.SampleInv;
      if adapter.deferred {
        var _ := ProcessNextEvent();
      } else {
        ProcessAllEvents();
      }
    }

    method DispatchNow(a: OperationAuthority) returns (sent: bool)
      requires gate.Valid() && SI.SampleInv(State())
      modifies `adapter, `staged, `now, `readings, `prepared, `request, gate
      ensures gate.Valid() && (State(), sent) == SR.DispatchPrepared(old(State()), a)
    {
      hide PollSample, S.DispatchWork, SR.TakeEvents, GI.Inv, SI.SampleInv, SI.Stays, SI.WorkAnswers;
      ghost var before := State();
      SI.PollKeeps(before);
      var wasPrepared := prepared == Some(a);
      PollNow();
      SI.WhatLeads(before, State());
      if wasPrepared && prepared.None? {
        TakeEvents();
        return false;
      }
      if prepared != Some(a) || request.None? || isShutdown { return false; }
      ghost var polled := State();
      SI.ForgetPrepared(polled);
      SR.PreparedAnswers(polled);
      var q := request.value;
      prepared, request := None, None;
      SI.WhatLeads(polled, State());
      SS.DispatchWorkKeeps(State(), a, q);
      ghost var cleared := State();
      sent := DispatchWork(a, q);
      SI.WhatLeads(cleared, State());
      TakeEvents();
    }

    method CompleteNow() returns (completed: bool)
      requires gate.Valid()
      modifies `adapter, `staged, `now, `readings, `prepared, `request, gate
      ensures gate.Valid() && (State(), completed) == SR.CompleteDeferred(old(State()))
    {
      hide PollSample, FinishPending, GI.Inv;
      PollNow();
      if adapter.pending.None? || adapter.closed { return false; }
      FinishPendingWork();
      return true;
    }

    method CancelNow(a: OperationAuthority) returns (d: ControlDecision)
      requires gate.Valid()
      modifies `adapter, `staged, `now, `readings, `prepared, `request, gate
      ensures gate.Valid() && (State(), d) == S.Cancel(old(State()), a)
    {
      hide PollSample, GS.RequestCancel, S.ApplyControl, GI.Inv, GS.Asked, GS.AnswerOf;
      PollNow();
      var time := Read();
      GateCalls.CancelAsked(gate.State(), a, time);
      d := gate.RequestCancel(a, time);
      ApplyControl(a, d);
    }

    // ---------- Starting, rebinding, shutting down ----------

    method Startup(kind: StartupEvidenceKind, source: string, observed: bool, sequence: U64)
      requires gate.Valid()
      modifies `now, `readings, gate
      ensures gate.Valid() && State() == StartupFor(old(State()), kind, source, observed, sequence)
    {
      hide GS.ObserveStartup, GI.Inv, GS.Asked, GS.AnswerOf;
      var binding := gate.config.binding;
      var time := Read();
      var e := StartupEvidence(kind, binding, EvidenceRecord(source, time, sequence), observed);
      GateCalls.StartupAsked(gate.State(), e);
      var _ := gate.ObserveStartup(e);
    }

    method CountUp(b: bool, w: bool, k: bool)
      modifies `numbers
      ensures numbers == Numbers(if b then Increment(old(numbers.binding)) else old(numbers.binding),
                                 if w then Increment(old(numbers.worker)) else old(numbers.worker),
                                 if k then Increment(old(numbers.sink)) else old(numbers.sink))
    {
      if b { numbers := numbers.(binding := Increment(numbers.binding)); }
      if w { numbers := numbers.(worker := Increment(numbers.worker)); }
      if k { numbers := numbers.(sink := Increment(numbers.sink)); }
    }

    method DeclareBinding()
      requires gate.Valid()
      modifies `now, `readings, `numbers, gate
      ensures gate.Valid() && State() == S.DeclareBinding(old(State()))
    {
      hide StartupFor, GI.Inv;
      CountUp(true, false, false);
      Startup(BindingIdleAndSettled, ADAPTER, adapter.pending.None?, numbers.binding);
    }

    method DeclareWorker()
      requires gate.Valid()
      modifies `now, `readings, `numbers, gate
      ensures gate.Valid() && State() == S.DeclareWorker(old(State()))
    {
      hide StartupFor, GI.Inv;
      CountUp(false, true, false);
      Startup(WorkerReady, WORKER, adapter.workerReady && !adapter.closed, numbers.worker);
    }

    method DeclareSink()
      requires gate.Valid()
      modifies `now, `readings, `numbers, gate
      ensures gate.Valid() && State() == S.DeclareSink(old(State()))
    {
      hide StartupFor, GI.Inv;
      CountUp(false, false, true);
      Startup(ResultSinkReady, SINK, adapter.sinkReady && !adapter.closed, numbers.sink);
    }

    method InitializeNow()
      requires gate.Valid()
      modifies `adapter, `staged, `now, `readings, `prepared, `request, `numbers, gate
      ensures gate.Valid() && State() == S.Initialize(old(State()))
    {
      hide PollSample, S.DeclareBinding, S.DeclareWorker, S.DeclareSink, GI.Inv;
      if gate.initialization == Ready && !(adapter.workerReady && !adapter.closed && adapter.sinkReady) { PollNow(); }
      DeclareBinding();
      DeclareWorker();
      DeclareSink();
    }

    method OfferReadiness(b: BindingIdentity, kind: StartupEvidenceKind, source: string, at: U64, sequence: U64)
      requires gate.Valid() && at < MAX_U64
      modifies gate
      ensures gate.Valid() && State() == OfferFor(old(State()), b, kind, source, at, sequence)
    {
      hide GS.ObserveReadiness, GI.Inv, GS.Asked, GS.AnswerOf;
      var e := BindingReadinessEvidence(kind, b, EvidenceRecord(source, at, sequence), true, at + 1);
      GateCalls.ReadinessAsked(gate.State(), e);
      var _ := gate.ObserveRebindReadiness(e);
    }

    method OfferAll(b: BindingIdentity, at: U64)
      requires gate.Valid() && at < MAX_U64
      modifies `numbers, gate
      ensures gate.Valid() && State() == S.OfferAll(old(State()), b, at)
    {
      hide OfferFor, GI.Inv;
      CountUp(true, false, false);
      OfferReadiness(b, BindingIdleAndSettled, ADAPTER, at, numbers.binding);
      CountUp(false, true, false);
      OfferReadiness(b, WorkerReady, WORKER, at, numbers.worker);
      CountUp(false, false, true);
      OfferReadiness(b, ResultSinkReady, SINK, at, numbers.sink);
    }

    method CommitOrAbandon(b: BindingIdentity, deferred: bool, at: U64) returns (d: BindingDecision)
      requires gate.Valid()
      modifies `adapter, gate
      ensures gate.Valid() && (State(), d) == S.CommitOrAbandon(old(State()), b, deferred, at)
    {
      hide GS.CommitRebind, GS.WithdrawBinding, GI.Inv, GS.Asked, GS.AnswerOf;
      GateCalls.CommitAsked(gate.State(), b, at);
      d := gate.CommitRebind(b, at);
      if d.status != Applied {
        GateCalls.WithdrawAsked(gate.State(), b, at);
        var _ := gate.WithdrawBinding(b, at);
        return;
      }
      adapter := NewAdapter(deferred).(results := adapter.results, replay := adapter.replay,
                                       replayEnabled := adapter.replayEnabled, counts := adapter.counts);
    }

    method Begin(expected: BindingIdentity, provider: string, at: U64) returns (d: BindingDecision)
      requires gate.Valid() && at < MAX_U64
      modifies gate
      ensures gate.Valid()
      ensures var s := old(State());
        State() == Ask(s, BeginFor(s, expected, provider, at))
        && GS.Binding(d) == GS.AnswerOf(s.gate, BeginFor(s, expected, provider, at))
    {
      hide GS.BeginRebind, GI.Inv, GS.Asked, GS.AnswerOf;
      GateCalls.BeginAsked(gate.State(), expected, provider,
                            BindingReadinessEvidence(BindingIdleAndSettled, expected,
                                                     EvidenceRecord(ADAPTER, at, numbers.binding), true, at + 1),
                            at);
      d := gate.BeginRebind(expected, provider,
                            BindingReadinessEvidence(BindingIdleAndSettled, expected,
                                                     EvidenceRecord(ADAPTER, at, numbers.binding), true, at + 1),
                            at);
    }

    method RebindIdle(expected: BindingIdentity, provider: string, deferred: bool) returns (d: BindingDecision)
      requires gate.Valid() && now < MAX_U64
      modifies `adapter, `numbers, gate
      ensures gate.Valid() && (State(), d) == RebindFrom(old(State()), expected, provider, deferred)
    {
      hide S.OfferAll, S.CommitOrAbandon, BeginFor, GI.Inv, GS.Asked, GS.AnswerOf;
      CountUp(true, false, false);
      d := Begin(expected, provider, now);
      if d.status != Applied || d.candidate.None? { return; }
      var b := d.candidate.value;
      OfferAll(b, now);
      d := CommitOrAbandon(b, deferred, now);
    }

    method RebindNow(expected: BindingIdentity, provider: string, deferred: bool) returns (d: BindingDecision)
      requires gate.Valid()
      modifies `adapter, `staged, `now, `readings, `prepared, `request, `numbers, gate
      ensures gate.Valid() && (State(), d) == S.Rebind(old(State()), expected, provider, deferred)
    {
      hide PollSample, RebindFrom, GI.Inv;
      PollNow();
      var time := Read();
      if isShutdown { return BindingDecision(BindingClosed, None, None); }
      if adapter.pending.Some? || prepared.Some? || staged != [] { return BindingDecision(UnresolvedWork, None, None); }
      if time == MAX_U64 { return BindingDecision(InvalidTime, None, None); }
      d := RebindIdle(expected, provider, deferred);
    }

    method WindDown()
      requires gate.Valid()
      modifies `adapter, `staged, `now, `readings, `prepared, `request, gate
      ensures gate.Valid() && State() == SR.WindDown(old(State()))
    {
      hide PollSample, S.DiscardPrepared, FinishPending, GS.CloseAdmission, GI.Inv, GS.Asked, GS.AnswerOf;
      PollNow();
      GateCalls.ClosingAsked(gate.State());
      gate.CloseAdmission();
      DiscardPrepared();
      FinishPendingWork();
    }

    method CloseAdapter()
      modifies `adapter
      ensures adapter == SR.Closed(old(adapter))
    {
      if !adapter.closed {
        adapter := adapter.(workerReady := false, sinkReady := false, replay := None, replayEnabled := false,
                            closed := true);
      }
      adapter := adapter.(listening := false);
    }

    method ShutdownNow()
      requires gate.Valid() && SI.SampleInv(State())
      modifies `adapter, `staged, `now, `readings, `prepared, `request, `isShutdown, gate
      ensures gate.Valid() && State() == SR.Shutdown(old(State()))
    {
      hide SR.WindDown, GI.Inv, SI.SampleInv, SI.Stays, SR.Closed;
      if isShutdown { return; }
      ghost var before := State();
      SR.WindDownKeeps(before);
      WindDown();
      SI.WhatLeads(before, State());
      ProcessAllEvents();
      CloseAdapter();
      isShutdown := true;
    }

    method ReplayNow() returns (replayed: bool)
      modifies `staged, `now, `readings
      ensures (State(), replayed) == S.Replay(old(State()))
    {
      if adapter.closed || adapter.replay.None? { return false; }
      var c := adapter.replay.value;
      var at := Read();
      staged := [Staged(c, at)] + staged;
      return true;
    }

    method Configure(setting: SR.Setting)
      modifies `adapter
      ensures State() == SR.Configure(old(State()), setting)
    {
      match setting
      case WorkerReadiness(ready) => adapter := adapter.(workerReady := ready);
      case SinkReadiness(ready) => adapter := adapter.(sinkReady := ready);
      case RejectNext => adapter := adapter.(rejectNext := true);
      case FailNext => adapter := adapter.(failNext := true);
      case CancellationIs(mode) => adapter := adapter.(cancellation := mode);
      case SettlementReporting(enabled) => adapter := adapter.(settlementReporting := enabled);
      case ResultReplay(enabled) => adapter := adapter.(replayEnabled := enabled, replay := None);
    }

    // ---------- The public calls ----------

    /** Any public call, under a clock that will show `clock`: its state is the next of a run. */
    method Call(a: SR.Action, clock: seq<U64>)
      requires Valid()
      modifies Repr()
      ensures Valid() && State() == SR.SampleNext(old(State()), SR.SampleCall(a, clock))
      ensures old(adapter.results) <= adapter.results && |adapter.results| <= |old(adapter.results)| + 1
      ensures old(isShutdown) ==> isShutdown && adapter.results == old(adapter.results)
    {
      hide SR.Rests, SR.Moves, SI.SampleInv, GI.Inv, SR.Act;
      ghost var before := State();
      SR.RestsIsSound(before);
      SR.CallMoves(before, SR.SampleCall(a, clock));
      SR.MovesRests(before, SR.SampleNext(before, SR.SampleCall(a, clock)));
      SR.MovesKeepSink(before, SR.SampleNext(before, SR.SampleCall(a, clock)));
      SR.ReadingsKeep(before, clock);
      readings := clock;
      if SR.IsWork(a) {
        DoWork(a);
      } else if SR.IsSetup(a) {
        DoSetup(a);
      } else {
        DoEvent(a);
      }
    }

    method DoWork(a: SR.Action)
      requires gate.Valid() && SI.SampleInv(State()) && SR.IsWork(a)
      modifies Repr()
      ensures gate.Valid() && State() == SR.Act(old(State()), a)
    {
      hide SI.SampleInv, GI.Inv, S.Initialize, S.Prepare, SR.DispatchPrepared;
      match a
      case DoInitialize => InitializeNow();
      case DoPrepare(q) => var _ := PrepareNow(q);
      case DoDispatch(authority) => var _ := DispatchNow(authority);
    }

    method DoSetup(a: SR.Action)
      requires gate.Valid() && SI.SampleInv(State()) && SR.IsSetup(a)
      modifies Repr()
      ensures gate.Valid() && State() == SR.Act(old(State()), a)
    {
      hide SI.SampleInv, GI.Inv, S.Rebind, SR.Shutdown, SR.Configure;
      match a
      case DoRebind(b, provider, deferred) => var _ := RebindNow(b, provider, deferred);
      case DoShutdown => ShutdownNow();
      case DoConfigure(setting) => Configure(setting);
    }

    method DoEvent(a: SR.Action)
      requires gate.Valid() && SI.SampleInv(State()) && !SR.IsWork(a) && !SR.IsSetup(a)
      modifies Repr()
      ensures gate.Valid() && State() == SR.Act(old(State()), a)
    {
      hide SI.SampleInv, GI.Inv, S.Cancel, PollSample, SR.CompleteDeferred, ProcessNext, SS.ProcessAll, S.Replay,
           S.Withdraw;
      match a
      case DoCancel(authority) => var _ := CancelNow(authority);
      case DoPoll => PollNow();
      case DoComplete => var _ := CompleteNow();
      case DoProcessNext => var _ := ProcessNextEvent();
      case DoProcessAll => ProcessAllEvents();
      case DoReplay => var _ := ReplayNow();
      case DoWithdraw(b) => var _ := WithdrawNow(b);
    }
  }

  lemma SquaresExtend(values: seq<int>, k: nat)
    requires k < |values|
    ensures var square := values[k] * values[k];
      && Squares(values[..k + 1]) == Squares(values[..k]) + [square]
      && SumOf(Squares(values[..k + 1])) == SumOf(Squares(values[..k])) + square
  {
    var before, after := Squares(values[..k]), Squares(values[..k + 1]);
    assert after[..|after| - 1] == before;
    assert after == before + [values[k] * values[k]];
  }
}
