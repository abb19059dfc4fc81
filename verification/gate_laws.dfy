/**
 What the gate answers to each of its calls, in terms of what its receipt, its facts and its records say,
 and not of how it decides: when a stop is asked for, when work is admitted, dispatched and released, and
 which evidence is taken.
 */
module GateLaws {
  import opened Machine
  import opened GateTypes
  import opened GateSpec
  import opened GateInvariant
  import opened GateEffects
  import opened GateRuns

  // ---------- Revocation and the native stop ----------

  /** Something that was not recorded before is recorded, with this time. */
  predicate IsNew(before: Option<U64>, after: Option<U64>, time: U64) {
    before.None? && after == Some(time)
  }

  /** The operation in hand is cancelled, expires or is withdrawn. */
  predicate Revokes(before: OperationReceipt, after: OperationReceipt, time: U64) {
    && before.authority == after.authority
    && (|| IsNew(before.control.cancelledAt, after.control.cancelledAt, time)
        || IsNew(before.control.expiredAt, after.control.expiredAt, time)
        || IsNew(before.control.withdrawnAt, after.control.withdrawnAt, time))
  }

  /** Submitted, with no outcome yet, and never asked to stop. */
  predicate IsRunning(r: OperationReceipt) {
    && r.dispatch.status == Submitted && r.native.outcome == OutcomePending
    && r.control.stopRequestedAt.None? && r.control.stopAcknowledgement != StopPending
  }

  /** A stop is asked for and remembered, or neither. */
  predicate StopsAsDue(s: GateState, c: Call, time: U64)
    requires Callable(s) && s.receipt.Some? && Next(s, c).receipt.Some?
  {
    var before, after := s.receipt.value, Next(s, c).receipt.value;
    if IsRunning(before) then
      && StopOf(s, c) == Some(before.authority.operationId)
      && after.control.stopRequestedAt == Some(time) && after.control.stopAcknowledgement == StopPending
    else
      && StopOf(s, c) == None
      && after.control.stopRequestedAt == before.control.stopRequestedAt
      && after.control.stopAcknowledgement == before.control.stopAcknowledgement
  }

  lemma CancelStops(s: GateState, a: OperationAuthority, at: U64, time: U64)
    requires Inv(s) && s.receipt.Some? && RequestCancel(s, a, at).0.receipt.Some?
    requires Revokes(s.receipt.value, RequestCancel(s, a, at).0.receipt.value, time)
    ensures Callable(s) && StopsAsDue(s, CallRequestCancel(a, at), time) && time == at
  {
    hide LatestTime, DispositionOf;
  }

  lemma ExpiryStops(s: GateState, a: OperationAuthority, at: U64, time: U64)
    requires Inv(s) && s.receipt.Some? && GateSpec.ObserveTime(s, a, at).0.receipt.Some?
    requires Revokes(s.receipt.value, GateSpec.ObserveTime(s, a, at).0.receipt.value, time)
    ensures Callable(s) && StopsAsDue(s, CallObserveTime(a, at), time) && time == at
  {
    hide LatestTime, DispositionOf;
  }

  lemma WithdrawalStops(s: GateState, b: BindingIdentity, now: U64, time: U64)
    requires Inv(s) && s.receipt.Some? && GateSpec.WithdrawBinding(s, b, now).0.receipt.Some?
    requires Revokes(s.receipt.value, GateSpec.WithdrawBinding(s, b, now).0.receipt.value, time)
    ensures Callable(s) && StopsAsDue(s, CallWithdraw(b, now), time) && time == now
  {
    hide LatestBindingTime, DispositionOf, HasResolvedClosure;
  }

  predicate IsControlCall(c: Call) {
    c.CallRequestCancel? || c.CallObserveTime? || c.CallWithdraw?
  }

  lemma BindingKeepsReceipt(s: GateState, c: Call)
    requires Callable(s) && IsBindingCall(c) && !c.CallWithdraw?
    ensures Next(s, c).receipt == s.receipt && StopOf(s, c) == None
  {
    hide GateSpec.WithdrawBinding, LatestBindingTime, CanCommit, ClosesOldScope, OldWorkClosed, FoldReadiness, RoleOf,
         IsReady,
         ObserveCandidateCapabilities, IsWellFormed, AreUsable, SameOffer, Admit, ClaimDispatch, RequestCancel,
         GateSpec.ObserveTime, ObserveStopAcknowledgement, ObserveNonSubmission, ObserveNative, ObserveOutputAccepted,
         ObserveOutputNotDelivered, ObserveSettlement;
  }

  lemma EvidenceKeepsControl(s: GateState, c: Call)
    requires Callable(s) && !IsBindingCall(c) && !IsControlCall(c) && !c.CallAdmit?
    ensures StopOf(s, c) == None
    ensures s.receipt.Some? && Next(s, c).receipt.Some? ==>
              var before, after := s.receipt.value.control, Next(s, c).receipt.value.control;
              after.cancelledAt == before.cancelledAt && after.expiredAt == before.expiredAt
                && after.withdrawnAt == before.withdrawnAt
  {
    hide DispositionOf, IsWellFormed, AfterNative, RecordNative, ContradictsNative, NonDeliveryPrerequisite,
         CanDeliverResult,
         LatestEffectTime, HasResolvedEffects, FollowsSameSource, MayDispatch, Admit, RequestCancel,
           GateSpec.ObserveTime,
         GateSpec.WithdrawBinding, BeginRebind, CommitRebind, ObserveReadiness, ObserveCapabilities,
           GateSpec.ObserveStartup;
  }

  lemma OnlyControlRevokes(s: GateState, c: Call, time: U64)
    requires Inv(s) && !IsControlCall(c) && s.receipt.Some? && Callable(s) && Next(s, c).receipt.Some?
    ensures !Revokes(s.receipt.value, Next(s, c).receipt.value, time)
  {
    hide Inv, StopOf, BeginRebind, CommitRebind, ObserveReadiness, ObserveCapabilities, GateSpec.ObserveStartup,
         ObserveNative,
         ObserveStopAcknowledgement, ObserveNonSubmission, ObserveOutputAccepted, ObserveOutputNotDelivered,
         ObserveSettlement, GateSpec.Admit, ClaimDispatch, CloseAdmission;
    if c.CallAdmit? { AdmissionIsNew(s, c.request); }
    else if IsBindingCall(c) { BindingKeepsReceipt(s, c); }
    else { EvidenceKeepsControl(s, c); }
  }

  lemma AdmissionIsNew(s: GateState, q: OperationRequest)
    requires Inv(s) && s.receipt.Some? && GateSpec.Admit(s, q).0.receipt.Some?
    ensures GateSpec.Admit(s, q).0 == s || GateSpec.Admit(s, q).0.receipt.value.authority != s.receipt.value.authority
  {
    hide AdmissionRefusal;
  }

  lemma RevocationStops(s: GateState, c: Call, time: U64)
    requires Inv(s) && s.receipt.Some? && Callable(s) && Next(s, c).receipt.Some?
    requires Revokes(s.receipt.value, Next(s, c).receipt.value, time)
    ensures StopsAsDue(s, c, time) && IsControlCall(c) && TimeOf(c) == time
  {
    hide Inv, StopsAsDue, Revokes, GateSpec.RequestCancel, GateSpec.ObserveTime, GateSpec.WithdrawBinding, BeginRebind,
         CommitRebind,
         ObserveReadiness, ObserveCapabilities, GateSpec.ObserveStartup, ObserveNative, ObserveStopAcknowledgement,
         ObserveNonSubmission, ObserveOutputAccepted, ObserveOutputNotDelivered, ObserveSettlement, GateSpec.Admit,
         ClaimDispatch, CloseAdmission;
    if !IsControlCall(c) { OnlyControlRevokes(s, c, time); }
    match c
    case CallRequestCancel(a, at) => CancelStops(s, a, at, time);
    case CallObserveTime(a, at) => ExpiryStops(s, a, at, time);
    case CallWithdraw(b, now) => WithdrawalStops(s, b, now, time);
    case _ =>
  }

  /** Nothing asks for a stop but a revocation that starts with it. */
  lemma StopIsRevocation(s: GateState, c: Call)
    requires Inv(s) && Callable(s) && StopOf(s, c).Some?
    ensures s.receipt.Some? && Next(s, c).receipt.Some?
    ensures Revokes(s.receipt.value, Next(s, c).receipt.value, TimeOf(c))
  {
    hide LatestTime, LatestBindingTime, DispositionOf, HasResolvedClosure, BeginRebind, CommitRebind, ObserveReadiness,
         ObserveCapabilities, GateSpec.ObserveStartup, ObserveNative, ObserveStopAcknowledgement, ObserveNonSubmission,
         ObserveOutputAccepted, ObserveOutputNotDelivered, ObserveSettlement, GateSpec.Admit, ClaimDispatch,
           CloseAdmission;
    if !IsControlCall(c) {
      if IsBindingCall(c) { BindingKeepsReceipt(s, c); } else if !c.CallAdmit? { EvidenceKeepsControl(s, c); }
    }
  }

  /** The operation in hand, of the live binding. */
  predicate Holds(s: GateState, a: OperationAuthority) {
    s.receipt.Some? && s.receipt.value.authority == a && a.binding == s.config.binding
  }

  /** Cancelling: refused where there is nothing to cancel, where the time is past, or where it was done before. */
  lemma CancelIsExact(s: GateState, a: OperationAuthority, at: U64)
    requires Inv(s)
    ensures var (t, d) := GateSpec.RequestCancel(s, a, at);
      if !Holds(s, a) || s.receipt.value.disposition == Released then d.status == NoActiveOperation && t == s
      else if !EndsBy(s.receipt.value, at) then d.status == ControlRejected && t == s
      else if s.receipt.value.control.cancelledAt.Some? then d.status == AlreadyRequested && t == s
      else d.status == ControlApplied && t.receipt.Some? && t.receipt.value.control.cancelledAt == Some(at)
           && Revokes(s.receipt.value, t.receipt.value, at)
  {
    hide EndsBy, LatestTime, DispositionOf;
    if s.receipt.Some? { LatestTimeIsLeast(s.receipt.value, at); }
  }

  /** Expiry: likewise, and only once the deadline is reached. */
  lemma ExpiryIsExact(s: GateState, a: OperationAuthority, at: U64)
    requires Inv(s)
    ensures var (t, d) := GateSpec.ObserveTime(s, a, at);
      if !Holds(s, a) || s.receipt.value.disposition == Released then d.status == NoActiveOperation && t == s
      else if !EndsBy(s.receipt.value, at) then d.status == ControlRejected && t == s
      else if s.receipt.value.control.expiredAt.Some? then d.status == AlreadyRequested && t == s
      else if s.receipt.value.deadline.None? || at < s.receipt.value.deadline.value then d.status == NotDue && t == s
      else d.status == ControlApplied && t.receipt.Some? && t.receipt.value.control.expiredAt == Some(at)
           && Revokes(s.receipt.value, t.receipt.value, at)
  {
    hide EndsBy, LatestTime, DispositionOf;
    if s.receipt.Some? { LatestTimeIsLeast(s.receipt.value, at); }
  }

  /**
   Withdrawing: of the live binding or of a candidate, by its name and not in the past. Of the live binding, work of
   its own that is not yet released is revoked.
   */
  lemma WithdrawalIsExact(s: GateState, b: BindingIdentity, now: U64)
    requires Inv(s)
    ensures var (t, d) := GateSpec.WithdrawBinding(s, b, now);
      var named := if s.candidate.Some? then s.candidate.value.binding else s.config.binding;
      if s.phase == Closed || s.phase == Withdrawn || b != named || !GateEndsBy(s, now) then
        d.status != Applied && t == s && d.nativeStopAuthority.None?
      else
        && d.status == Applied && t.phase == Withdrawn && t.initialization == RecoveryRequired && t.candidate.None?
        && t.config == s.config && t.lastBindingControlAt == now
        && (s.candidate.Some? ==> t.receipt == s.receipt && t.withdrawnAt == s.withdrawnAt)
        && (s.candidate.None? ==> t.withdrawnAt == Some(now))
        && (s.candidate.None? && s.receipt.Some? ==>
              if s.receipt.value.disposition != Released then
                t.receipt.Some? && Revokes(s.receipt.value, t.receipt.value, now)
              else t.receipt == s.receipt)
  {
    hide LatestBindingTime, GateEndsBy, HasResolvedEffects;
    LatestIsLeast(s, now);
  }

  /**
   In every run: whenever the operation in hand is cancelled, expires or is withdrawn, a native stop of it is asked
   for if and only if it is submitted, has no outcome and was not asked to stop before; the receipt then says so.
   Nothing else ever asks for a stop.
   */
  lemma StopIsAskedExactly(config: GateConfig, calls: seq<Call>, i: nat)
    requires config.Valid() && i < |calls|
    ensures var s, t := At(config, calls, i), At(config, calls, i + 1);
      if s.receipt.Some? && t.receipt.Some? && Revokes(s.receipt.value, t.receipt.value, TimeOf(calls[i])) then
        var r, u := s.receipt.value, t.receipt.value;
        if r.dispatch.status == Submitted && r.native.outcome == OutcomePending && r.control.stopRequestedAt.None? then
          && StopOf(s, calls[i]) == Some(r.authority.operationId)
          && u.control.stopRequestedAt == Some(TimeOf(calls[i])) && u.control.stopAcknowledgement == StopPending
        else
          StopOf(s, calls[i]) == None && u.control.stopRequestedAt == r.control.stopRequestedAt
      else StopOf(s, calls[i]) == None
  {
    hide At, Inv, Next, StopOf, Revokes;
    AtIsValid(config, calls, i);
    NextState(config, calls, i);
    var s, c := At(config, calls, i), calls[i];
    NotStopped(s);
    if s.receipt.Some? && Next(s, c).receipt.Some? && Revokes(s.receipt.value, Next(s, c).receipt.value, TimeOf(c)) {
      RevocationStops(s, c, TimeOf(c));
    } else if StopOf(s, c).Some? {
      StopIsRevocation(s, c);
    }
  }

  lemma NotStopped(s: GateState)
    requires Inv(s)
    ensures s.receipt.Some? && s.receipt.value.control.stopRequestedAt.None? ==>
              s.receipt.value.control.stopAcknowledgement != StopPending
  {
  }

  // ---------- Readiness and admission ----------

  /** Binding, worker and sink were each observed to be ready. */
  predicate IsFullyObserved(s: GateState) {
    s.idle.record.Some? && s.idle.value && s.worker.record.Some? && s.worker.value && s.sink.record.Some?
      && s.sink.value
  }

  predicate ReadyAsObserved(s: GateState) {
    s.phase == Active ==> (s.initialization == Ready <==> IsFullyObserved(s))
  }

  lemma ReadinessFollows(s: GateState, c: Call)
    requires Inv(s) && Callable(s) && Inv(Next(s, c)) && ReadyAsObserved(s)
    ensures ReadyAsObserved(Next(s, c))
  {
    hide LatestBindingTime, LatestTime, LatestEffectTime, DispositionOf, IsWellFormed, HasResolvedClosure,
         ClosesOldScope, RoleOf,
         OldWorkClosed, FoldReadiness, ObserveCandidateCapabilities, AreUsable, AfterNative, RecordNative,
           ContradictsNative,
         NonDeliveryPrerequisite, CanDeliverResult, HasResolvedEffects, FollowsSameSource, AdmissionRefusal,
           MayDispatch,
         ReceiptValid, CandidateIsValid, Revoke, CanCommit;
    if c.CallCommit? { CommitIsObserved(s, c.expected, c.now); }
  }

  lemma CommitIsObserved(s: GateState, b: BindingIdentity, now: U64)
    requires Inv(s)
    ensures var t := CommitRebind(s, b, now).0; t == s || (t.initialization == Ready && IsFullyObserved(t))
  {
    hide LatestBindingTime, OldWorkClosed, ReceiptValid;
  }

  /** In every run, an active gate is ready if and only if all three were observed to be ready. */
  lemma {:induction false} ReadyIsExact(config: GateConfig, calls: seq<Call>, i: nat)
    requires config.Valid() && i <= |calls|
    ensures ReadyAsObserved(At(config, calls, i))
  {
    hide Inv, Next, ReadyAsObserved;
    AtIsValid(config, calls, i);
    if i == 0 {
      StartsUnobserved(config, calls);
    } else {
      hide At;
      ReadyIsExact(config, calls, i - 1);
      AtIsValid(config, calls, i - 1);
      NextState(config, calls, i - 1);
      ReadinessFollows(At(config, calls, i - 1), calls[i - 1]);
    }
  }

  lemma StartsUnobserved(config: GateConfig, calls: seq<Call>)
    requires config.Valid()
    ensures ReadyAsObserved(At(config, calls, 0))
  {
  }

  /** What is offered supports what is asked for, at a time. */
  predicate Supports(offered: Option<ExecutionCapabilities>, q: ExecutionRequirements, at: U64) {
    && offered.Some? && offered.value.available && offered.value.profileId == q.profileId != ""
    && 0 < q.workUnits <= offered.value.maximumWorkUnits
    && offered.value.record.observedAt <= at < offered.value.validUntil
  }

  /** The request is for this gate, complete, and not past its deadline. */
  predicate IsForGate(s: GateState, q: OperationRequest) {
    && q.capabilityId == s.config.capabilityId && q.effectDomain == s.config.binding.effectDomain
    && q.requestReference != "" && q.targetReference != "" && (q.deadline.Some? ==> q.requestedAt < q.deadline.value)
  }

  /** Nothing of the binding, and nothing of earlier work, is later than the request; earlier work is released. */
  predicate FollowsAll(s: GateState, at: U64) {
    && s.lastBindingControlAt <= at && AtMost(s.idle.record, at) && AtMost(s.worker.record, at)
      && AtMost(s.sink.record, at)
    && (s.receipt.Some? ==> s.receipt.value.disposition == Released && EndsBy(s.receipt.value, at))
  }

  /** What is offered must support what is asked for, and something must be asked for where offers are observed. */
  predicate IsSupported(s: GateState, q: OperationRequest) {
    && (s.config.capabilityObserver != "" ==> q.requirements.Some?)
    && (q.requirements.Some? ==> Supports(s.capabilities, q.requirements.value, q.requestedAt))
  }

  lemma SupportIsExact(s: GateState, q: ExecutionRequirements, at: U64)
    requires s.phase == Active && s.initialization == Ready
    ensures SupportsExecution(s, q, at) <==> Supports(s.capabilities, q, at)
  {
  }

  lemma AdmissionChecks(s: GateState, q: OperationRequest)
    requires Inv(s)
    ensures AdmissionRefusal(s, q).None? <==>
            && s.phase == Active && s.initialization == Ready && s.nextOperationId != 0
            && IsForGate(s, q) && FollowsAll(s, q.requestedAt) && IsSupported(s, q)
  {
    hide EndsBy, LatestTime, HasResolvedEffects, SupportsExecution, Supports;
    if s.receipt.Some? { LatestTimeIsLeast(s.receipt.value, q.requestedAt); }
    if s.phase == Active && s.initialization == Ready && q.requirements.Some? {
      SupportIsExact(s, q.requirements.value, q.requestedAt);
    }
  }

  /**
   In every run a request is admitted if and only if the binding is active and was observed to be ready in all three
   respects, identities are left, the request is for this gate and in time, earlier work is released and ended before
   it, and what is offered supports it. It then is the operation in hand, pending dispatch.
   */
  lemma AdmissionIsExact(config: GateConfig, calls: seq<Call>, i: nat)
    requires config.Valid() && i < |calls| && calls[i].CallAdmit?
    ensures var s, t, q := At(config, calls, i), At(config, calls, i + 1), calls[i].request;
      var a := OperationAuthority(s.nextOperationId, s.config.binding, q.requestedAt);
      if && s.phase == Active && IsFullyObserved(s) && s.nextOperationId != 0
         && IsForGate(s, q) && FollowsAll(s, q.requestedAt) && IsSupported(s, q) then
        && AnswerAt(config, calls, i) == Admission(AdmissionDecision(Admitted, Some(a)))
        && t.receipt.Some? && IsFresh(t.receipt.value, a, q)
      else
        && AnswerAt(config, calls, i).Admission? && AnswerAt(config, calls, i).admission.status != Admitted
        && AnswerAt(config, calls, i).admission.authority.None? && t == s
  {
    hide At, Inv, AdmissionRefusal, IsForGate, FollowsAll, IsSupported;
    AtIsValid(config, calls, i);
    NextState(config, calls, i);
    ReadyIsExact(config, calls, i);
    AdmissionChecks(At(config, calls, i), calls[i].request);
    RefusalIsNoAdmission(At(config, calls, i), calls[i].request);
  }

  lemma RefusalIsNoAdmission(s: GateState, q: OperationRequest)
    ensures AdmissionRefusal(s, q) != Some(Admitted)
  {
  }

  /** A receipt of which nothing has happened yet, for what was asked. */
  predicate IsFresh(r: OperationReceipt, a: OperationAuthority, q: OperationRequest) {
    && r.authority == a && r.deadline == q.deadline && r.requirements == q.requirements
    && r.dispatch == DispatchFacts(DispatchPending, None, None) && r.settlement.None? && r.disposition == Current
    && r.native.outcome == OutcomePending && r.native.acceptance == AcceptancePending && r.native.identity == ""
    && r.output.disposition == OutputPending && r.control == ControlFacts(None, None, None, None, NotRequested, None)
  }

  /** What is refused is refused for its reason. */
  lemma RefusalSaysWhy(s: GateState, q: OperationRequest)
    requires Inv(s)
    ensures var status := GateSpec.Admit(s, q).1.status;
      && (status == AdmissionClosed <==> s.initialization == InitializationClosed)
      && (status == Expired ==> q.deadline.Some? && q.requestedAt >= q.deadline.value)
      && (status == AdmissionRecoveryRequired ==> s.phase != Active || s.initialization != Ready)
      && (status == DomainOccupied ==> s.receipt.Some? && s.receipt.value.disposition != Released)
      && (status == CapabilitiesUnavailable ==> s.phase == Active && s.initialization == Ready && !IsSupported(s, q))
      && (status == InvalidRequest ==> s.nextOperationId == 0 || !IsForGate(s, q) || !FollowsAll(s, q.requestedAt))
  {
    hide EndsBy, LatestTime, HasResolvedEffects, SupportsExecution, Supports;
    if s.receipt.Some? { LatestTimeIsLeast(s.receipt.value, q.requestedAt); }
    if s.phase == Active && s.initialization == Ready && q.requirements.Some? {
      SupportIsExact(s, q.requirements.value, q.requestedAt);
    }
  }

  /**
   In every run a claim is granted if and only if it names the pending operation in hand, of the live, active and ready
   binding, is not before its admission, the operation is neither revoked nor past its deadline, and what is offered
   still supports it. It is then submitted, at that time.
   */
  lemma DispatchIsExact(config: GateConfig, calls: seq<Call>, i: nat)
    requires config.Valid() && i < |calls| && calls[i].CallClaimDispatch?
    ensures var s, t, a, at := At(config, calls, i), At(config, calls, i + 1), calls[i].authority, calls[i].at;
      if && s.phase == Active && IsFullyObserved(s) && Holds(s, a) && s.receipt.value.dispatch.status == DispatchPending
         && a.admittedAt <= at && (s.receipt.value.deadline.Some? ==> at < s.receipt.value.deadline.value)
         && s.receipt.value.control.cancelledAt.None? && s.receipt.value.control.expiredAt.None?
         && s.receipt.value.control.withdrawnAt.None?
         && (s.receipt.value.requirements.Some? ==>
             Supports(s.capabilities, s.receipt.value.requirements.value, at)) then
        && AnswerAt(config, calls, i) == GateSpec.Dispatch(true)
        && t.receipt == Some(s.receipt.value.(dispatch := DispatchFacts(Submitted, Some(at), None)))
      else AnswerAt(config, calls, i) == GateSpec.Dispatch(false) && t == s
  {
    hide At, Inv, SupportsExecution, Supports;
    AtIsValid(config, calls, i);
    NextState(config, calls, i);
    ReadyIsExact(config, calls, i);
    var s := At(config, calls, i);
    PendingIsUnsubmitted(s);
    if s.phase == Active && s.initialization == Ready && s.receipt.Some? && s.receipt.value.requirements.Some? {
      SupportIsExact(s, s.receipt.value.requirements.value, calls[i].at);
    }
  }

  lemma PendingIsUnsubmitted(s: GateState)
    requires Inv(s)
    ensures s.receipt.Some? && s.receipt.value.dispatch.status == DispatchPending ==>
              s.receipt.value.dispatch == DispatchFacts(DispatchPending, None, None)
  {
  }
}
