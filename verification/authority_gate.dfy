/**
 The authority gate as it is built: an object whose public calls check and update its fields in
 place, in the order of the source. Each method is proved to do exactly what its function in
 `GateSpec` says, and to keep the invariant, so every theorem of `GateRuns` and `GateRebind`
 holds of the object.
 */
module AuthorityGates {
  import opened Machine
  import opened GateTypes
  import opened GateSpec
  import opened GateInvariant

  lemma CommitHasEvidence(s: GateState, now: U64)
    requires CanCommit(s, now)
    ensures
      var c := s.candidate.value;
      c.idle.evidence.Some? && c.worker.evidence.Some? && c.sink.evidence.Some?
  {
  }

  lemma RevokedIsMarked(r: OperationReceipt, marked: ControlFacts, now: U64)
    requires marked.cancelledAt.Some? || marked.expiredAt.Some? || marked.withdrawnAt.Some?
    ensures Revoke(r, marked, now).authority == r.authority && Revoke(r, marked, now).disposition != Current
    ensures ShouldStop(r) <==> r.dispatch.status == Submitted && r.native.outcome == OutcomePending
                               && r.control.stopRequestedAt.None?
    ensures ShouldStop(r) ==> Revoke(r, marked, now).control.stopRequestedAt == Some(now)
                              && Revoke(r, marked, now).control.stopAcknowledgement == StopPending
  {
    hide HasResolvedClosure;
  }

  lemma ReleasedIsReleasable(s: GateState)
    requires Inv(s) && s.receipt.Some?
    ensures IsReleasable(s.receipt.value) <==> s.receipt.value.disposition == Released
  {
    hide HasResolvedEffects, CandidateIsValid;
  }

  class AuthorityGate {
    var config: GateConfig
    var initialization: InitializationState
    var idle: StartupFact
    var worker: StartupFact
    var sink: StartupFact
    var phase: BindingPhase
    var generationHighWater: U64
    var lastBindingControlAt: U64
    var withdrawnAt: Option<U64>
    var lastOldScope: Option<EvidenceRecord>
    var candidate: Option<Candidate>
    var nextOperationId: U64
    var currentReceipt: Option<OperationReceipt>
    var lastNativeRecord: Option<EvidenceRecord>
    var lastNativeKind: Option<NativeEventKind>
    var capabilities: Option<ExecutionCapabilities>

    /** The abstract state the specification functions speak of. */
    function State(): GateState
      reads this
    {
      GateState(config, initialization, idle, worker, sink, phase, generationHighWater, lastBindingControlAt,
                withdrawnAt, lastOldScope, candidate, nextOperationId, currentReceipt, lastNativeRecord,
                lastNativeKind, capabilities)
    }

    ghost predicate Valid()
      reads this
    {
      Inv(State())
    }

    constructor (config: GateConfig)
      requires config.Valid()
      ensures Valid() && State() == InitialGate(config)
    {
      this.config := config;
      initialization := RecoveryRequired;
      idle, worker, sink := NO_FACT, NO_FACT, NO_FACT;
      phase := Active;
      generationHighWater := config.binding.providerGeneration;
      lastBindingControlAt := config.startedAt;
      withdrawnAt, lastOldScope, candidate := None, None, None;
      nextOperationId := 1;
      currentReceipt, lastNativeRecord, lastNativeKind, capabilities := None, None, None, None;
      new;
      InitialGateIsValid(config);
    }

    /** Construction as callers see it: a configuration without static identities makes no gate. */
    static method Create(config: GateConfig) returns (gate: AuthorityGate?)
      ensures gate == null <==> !config.Valid()
      ensures gate != null ==> fresh(gate) && gate.Valid() && gate.State() == InitialGate(config)
    {
      if !config.Valid() {
        return null;
      }
      gate := new AuthorityGate(config);
    }

    method ObserveStartup(e: StartupEvidence) returns (d: EvidenceDisposition)
      requires Valid()
      modifies this
      ensures Valid()
      ensures State() == GateSpec.ObserveStartup(old(State()), e).0
      ensures d == GateSpec.ObserveStartup(old(State()), e).1
      ensures d == Rejected ==> State() == old(State())
    {
      hide Inv, Evolves, LatestBindingTime, LatestTime, LatestEffectTime;
      StartupKeeps(State(), e);
      if phase != Active || initialization == InitializationClosed || currentReceipt.Some?
         || e.binding != config.binding {
        return Rejected;
      }
      var role := RoleOf(e.kind, config);
      if role.None? || !IsWellFormed(e.record, SourceOf(role.value, config), config.startedAt) {
        return Rejected;
      }
      var fact := State().Fact(role.value);
      if fact.record.Some? {
        if e.record.sequence < fact.record.value.sequence || e.record.observedAt < fact.record.value.observedAt {
          return Rejected;
        }
        if e.record.sequence == fact.record.value.sequence {
          return if e.record == fact.record.value && e.observed == fact.value then Duplicate else Rejected;
        }
      }
      fact := StartupFact(true, e.observed, Some(e.record));
      match role.value {
        case BindingRole => idle := fact;
        case WorkerRole => worker := fact;
        case SinkRole => sink := fact;
      }
      if idle.observed && idle.value && worker.observed && worker.value && sink.observed && sink.value {
        initialization := Ready;
      } else {
        initialization := RecoveryRequired;
      }
      return Accepted;
    }

    method ObserveExecutionCapabilities(e: ExecutionCapabilities) returns (d: EvidenceDisposition)
      requires Valid()
      modifies this
      ensures Valid()
      ensures State() == GateSpec.ObserveCapabilities(old(State()), e).0
      ensures d == GateSpec.ObserveCapabilities(old(State()), e).1
      ensures d == Rejected ==> State() == old(State()) || (candidate.Some? && candidate.value.capabilitiesConflicted)
    {
      hide Inv, Evolves, LatestBindingTime, LatestTime, LatestEffectTime;
      CapabilitiesKeep(State(), e);
      if candidate.Some? && e.binding == candidate.value.binding && phase == Preparing {
        d := ObserveCapabilitiesOfCandidate(e);
        return;
      }
      if initialization == InitializationClosed || config.capabilityObserver == "" || e.binding != config.binding
         || !AreUsable(e, config) || !IsWellFormed(e.record, config.capabilityObserver, config.startedAt) {
        return Rejected;
      }
      if capabilities.Some? {
        var previous := capabilities.value;
        if e.record.observedAt < previous.record.observedAt || e.record.sequence < previous.record.sequence {
          return Rejected;
        }
        if e.record.sequence == previous.record.sequence {
          return if SameOffer(e, previous) then Duplicate else Rejected;
        }
      }
      capabilities := Some(e);
      return Accepted;
    }

    method ObserveCapabilitiesOfCandidate(e: ExecutionCapabilities) returns (d: EvidenceDisposition)
      requires candidate.Some?
      modifies this`candidate
      ensures candidate.Some?
      ensures (candidate.value, d) == ObserveCandidateCapabilities(old(candidate.value), config, e)
    {
      var c := candidate.value;
      if config.capabilityObserver == "" || !IsWellFormed(e.record, config.capabilityObserver, c.preparedAt) {
        return Rejected;
      }
      if c.capabilities.Some? {
        var previous := c.capabilities.value;
        if e.record.sequence < previous.record.sequence {
          return Rejected;
        }
        if e.record.sequence == previous.record.sequence {
          var identical := SameOffer(e, previous) && e.capabilityId == previous.capabilityId;
          if !identical {
            var observedAt := Max(previous.record.observedAt, e.record.observedAt);
            previous := previous.(record := previous.record.(observedAt := observedAt));
            candidate := Some(c.(capabilities := Some(previous), capabilitiesConflicted := true));
          }
          return if identical && !candidate.value.capabilitiesConflicted then Duplicate else Rejected;
        }
        if e.record.observedAt < previous.record.observedAt {
          return Rejected;
        }
      }
      if !AreUsable(e, config) {
        return Rejected;
      }
      candidate := Some(c.(capabilities := Some(e), capabilitiesConflicted := false));
      return Accepted;
    }

    method WithdrawBinding(expected: BindingIdentity, now: U64) returns (d: BindingDecision)
      requires Valid()
      modifies this
      ensures Valid()
      ensures State() == GateSpec.WithdrawBinding(old(State()), expected, now).0
      ensures d == GateSpec.WithdrawBinding(old(State()), expected, now).1
      ensures d.status == Applied ==> phase == Withdrawn
      ensures d.nativeStopAuthority.Some? <==>
              && d.status == Applied && old(candidate).None? && old(currentReceipt).Some?
              && old(currentReceipt).value.authority.binding == config.binding
              && old(currentReceipt).value.disposition != Released
              && old(currentReceipt).value.dispatch.status == Submitted
              && old(currentReceipt).value.native.outcome == OutcomePending
              && old(currentReceipt).value.control.stopRequestedAt.None?
      ensures d.nativeStopAuthority.Some? ==>
                && currentReceipt.Some? && currentReceipt.value.authority == d.nativeStopAuthority.value
                && currentReceipt.value.disposition != Current
                && currentReceipt.value.control.stopRequestedAt == Some(now)
                && currentReceipt.value.control.stopAcknowledgement == StopPending
      ensures d.status != Applied ==> State() == old(State())
    {
      hide Inv, Evolves, LatestBindingTime, IsReleasable, Revoke, ShouldStop;
      if currentReceipt.Some? {
        RevokedIsMarked(currentReceipt.value, currentReceipt.value.control.(withdrawnAt := Some(now)), now);
        ReleasedIsReleasable(State());
      }
      WithdrawKeeps(State(), expected, now);
      if phase == Closed {
        return BindingDecision(BindingClosed, None, None);
      }
      if expected != (if candidate.Some? then candidate.value.binding else config.binding) {
        return BindingDecision(StaleIdentity, None, None);
      }
      if now < LatestBindingTime(State()) {
        return BindingDecision(InvalidTime, None, None);
      }
      if phase == Withdrawn {
        return BindingDecision(AlreadyInPhase, None, None);
      }
      var withdrawsCurrent := candidate.None? && currentReceipt.Some?
        && IsCurrent(State(), currentReceipt.value.authority) && !IsReleasable(currentReceipt.value);
      SuspendBinding(now);
      if candidate.Some? {
        candidate := None;
        return BindingDecision(Applied, None, None);
      }
      withdrawnAt := Some(now);
      d := BindingDecision(Applied, None, None);
      if withdrawsCurrent {
        var r := currentReceipt.value;
        var control := RevokeCurrent(r.control.(withdrawnAt := Some(now)), now);
        if control.shouldRequestNativeStop {
          d := d.(nativeStopAuthority := Some(r.authority));
        }
      }
    }

    method SuspendBinding(now: U64)
      modifies `lastBindingControlAt, `initialization, `phase
      ensures lastBindingControlAt == now && initialization == RecoveryRequired && phase == Withdrawn
    {
      lastBindingControlAt := now;
      initialization := RecoveryRequired;
      phase := Withdrawn;
    }

    /** The stop, if one is due, and the disposition that every revocation ends with. */
    method RevokeCurrent(marked: ControlFacts, now: U64) returns (d: ControlDecision)
      requires currentReceipt.Some?
      modifies this`currentReceipt
      ensures currentReceipt == Some(Revoke(old(currentReceipt.value), marked, now))
      ensures d == ControlDecision(ControlApplied, ShouldStop(old(currentReceipt.value)))
    {
      var r := currentReceipt.value;
      var shouldStop := ShouldStop(r);
      r := r.(control := marked);
      if shouldStop {
        r := r.(control := marked.(stopRequestedAt := Some(now), stopAcknowledgement := StopPending));
      }
      currentReceipt := Some(r);
      RefreshDisposition();
      d := ControlDecision(ControlApplied, shouldStop);
    }

    method RefreshDisposition()
      requires currentReceipt.Some?
      modifies this`currentReceipt
      ensures currentReceipt == Some(Refresh(old(currentReceipt.value)))
    {
      var r := currentReceipt.value;
      if r.native.outcome == Unknown {
        currentReceipt := Some(r.(disposition := BlockedUnknown));
      } else if HasResolvedClosure(r) {
        currentReceipt := Some(r.(disposition := Released));
      } else {
        currentReceipt := Some(r.(disposition := if IsRevoked(r.control) then Revoked else Current));
      }
    }

    method BeginRebind(expectedOld: BindingIdentity, providerId: string, closure: BindingReadinessEvidence, now: U64)
      returns (d: BindingDecision)
      requires Valid()
      modifies this
      ensures Valid()
      ensures State() == GateSpec.BeginRebind(old(State()), expectedOld, providerId, closure, now).0
      ensures d == GateSpec.BeginRebind(old(State()), expectedOld, providerId, closure, now).1
      ensures d.status == Applied ==>
              candidate.Some? && candidate.value.binding.providerGeneration == old(generationHighWater) + 1
      ensures d.status != Applied ==> State() == old(State())
    {
      hide Inv, Evolves, LatestBindingTime, OldWorkClosed, ClosesOldScope;
      InvIsCallable(State());
      BeginKeeps(State(), expectedOld, providerId, closure, now);
      if phase == Closed {
        return BindingDecision(BindingClosed, None, None);
      }
      if expectedOld != config.binding {
        return BindingDecision(StaleIdentity, None, None);
      }
      if now < LatestBindingTime(State()) {
        return BindingDecision(InvalidTime, None, None);
      }
      if candidate.Some? {
        return BindingDecision(AlreadyInPhase, Some(candidate.value.binding), None);
      }
      if phase != Withdrawn {
        return BindingDecision(WrongPhase, None, None);
      }
      if !OldWorkClosed(State()) {
        return BindingDecision(UnresolvedWork, None, None);
      }
      if providerId == "" {
        return BindingDecision(InvalidProvider, None, None);
      }
      if !ClosesOldScope(State(), closure, now) {
        return BindingDecision(InvalidEvidence, None, None);
      }
      if generationHighWater == MAX_U64 {
        return BindingDecision(IdentityExhausted, None, None);
      }
      var binding := config.binding.(providerId := providerId, providerGeneration := generationHighWater + 1);
      candidate := Some(Candidate(binding, now, closure, NO_READINESS, NO_READINESS, NO_READINESS, None, false));
      lastOldScope := Some(closure.record);
      generationHighWater := generationHighWater + 1;
      lastBindingControlAt := now;
      phase := Preparing;
      return BindingDecision(Applied, Some(binding), None);
    }

    method ObserveRebindReadiness(e: BindingReadinessEvidence) returns (d: EvidenceDisposition)
      requires Valid()
      modifies this
      ensures Valid()
      ensures State() == GateSpec.ObserveReadiness(old(State()), e).0
      ensures d == GateSpec.ObserveReadiness(old(State()), e).1
      ensures d == Rejected ==>
                State() == old(State())
                || (candidate.Some? && (candidate.value.idle.conflicted || candidate.value.worker.conflicted
                                        || candidate.value.sink.conflicted))
    {
      hide Inv, Evolves, LatestBindingTime, LatestTime, LatestEffectTime;
      ReadinessKeeps(State(), e);
      if phase != Preparing || candidate.None? || e.binding != candidate.value.binding {
        return Rejected;
      }
      var c := candidate.value;
      var role := RoleOf(e.kind, config);
      if role.None? || !IsWellFormed(e.record, SourceOf(role.value, config), c.preparedAt) {
        return Rejected;
      }
      var fact := c.Fact(role.value);
      if fact.evidence.Some? {
        var previous := fact.evidence.value;
        if e.record.sequence < previous.record.sequence {
          return Rejected;
        }
        if e.record.sequence == previous.record.sequence {
          var identical := SameReadiness(e, previous);
          if !identical {
            var observedAt := Max(previous.record.observedAt, e.record.observedAt);
            previous := previous.(record := previous.record.(observedAt := observedAt));
            fact := ReadinessFact(Some(previous), true);
            candidate := Some(c.WithFact(role.value, fact));
          }
          return if identical && !fact.conflicted then Duplicate else Rejected;
        }
        if e.record.observedAt < previous.record.observedAt {
          return Rejected;
        }
      }
      if e.validUntil <= e.record.observedAt {
        return Rejected;
      }
      candidate := Some(c.WithFact(role.value, ReadinessFact(Some(e), false)));
      return Accepted;
    }

    method CommitRebind(expected: BindingIdentity, now: U64) returns (d: BindingDecision)
      requires Valid()
      modifies this
      ensures Valid()
      ensures State() == GateSpec.CommitRebind(old(State()), expected, now).0
      ensures d == GateSpec.CommitRebind(old(State()), expected, now).1
      ensures d.status == Applied ==> phase == Active && initialization == Ready && config.binding == expected
      ensures d.status != Applied ==> State() == old(State())
    {
      hide Inv, Evolves, LatestBindingTime, OldWorkClosed, CanCommit, Installed;
      CommitKeeps(State(), expected, now);
      if phase == Closed {
        return BindingDecision(BindingClosed, None, None);
      }
      if now < LatestBindingTime(State()) {
        return BindingDecision(InvalidTime, None, None);
      }
      if candidate.None? {
        var already := phase == Active && withdrawnAt.Some? && expected == config.binding;
        return BindingDecision(if already then AlreadyInPhase else StaleIdentity, None, None);
      }
      if expected != candidate.value.binding {
        return BindingDecision(StaleIdentity, None, None);
      }
      if !OldWorkClosed(State()) {
        return BindingDecision(UnresolvedWork, None, None);
      }
      if !CanCommit(State(), now) {
        return BindingDecision(InvalidEvidence, None, None);
      }
      CommitHasEvidence(State(), now);
      TakeOver(candidate.value, now);
      return BindingDecision(Applied, None, None);
    }

    /** The candidate becomes the binding. */
    method TakeOver(c: Candidate, now: U64)
      requires c.idle.evidence.Some? && c.worker.evidence.Some? && c.sink.evidence.Some?
      modifies this
      ensures var s := old(State());
        State() == s.(config := s.config.(binding := c.binding),
                      idle := Installed(c.idle), worker := Installed(c.worker), sink := Installed(c.sink),
                      capabilities := c.capabilities, lastOldScope := None, candidate := None,
                      lastBindingControlAt := now, initialization := Ready, phase := Active)
    {
      InstallFacts(c);
      ActivateBinding(c.binding, now);
    }

    method ActivateBinding(binding: BindingIdentity, now: U64)
      modifies `config, `lastOldScope, `candidate, `lastBindingControlAt, `initialization, `phase
      ensures config == old(config).(binding := binding) && lastOldScope == None && candidate == None
      ensures lastBindingControlAt == now && initialization == Ready && phase == Active
    {
      config := config.(binding := binding);
      lastOldScope := None;
      candidate := None;
      lastBindingControlAt := now;
      initialization := Ready;
      phase := Active;
    }

    /** The candidate's evidence becomes what is known of the live binding. */
    method InstallFacts(c: Candidate)
      requires c.idle.evidence.Some? && c.worker.evidence.Some? && c.sink.evidence.Some?
      modifies `idle, `worker, `sink, `capabilities
      ensures idle == Installed(c.idle) && worker == Installed(c.worker) && sink == Installed(c.sink)
      ensures capabilities == c.capabilities
    {
      idle := StartupFact(true, true, Some(c.idle.evidence.value.record));
      worker := StartupFact(true, true, Some(c.worker.evidence.value.record));
      sink := StartupFact(true, true, Some(c.sink.evidence.value.record));
      capabilities := c.capabilities;
    }

    /** Why a request is refused, if it is; the checks in their order. */
    method Refusal(q: OperationRequest) returns (refusal: Option<AdmissionStatus>)
      requires Valid()
      ensures refusal == AdmissionRefusal(State(), q)
    {
      hide Inv, Evolves, LatestBindingTime, LatestTime, LatestEffectTime, IsReleasable, SupportsExecution;
      if initialization == InitializationClosed { return Some(AdmissionClosed); }
      if q.capabilityId != config.capabilityId || q.effectDomain != config.binding.effectDomain
         || q.requestReference == "" || q.targetReference == ""
         || q.requestedAt < lastBindingControlAt || nextOperationId == 0 {
        return Some(InvalidRequest);
      }
      if q.deadline.Some? && q.requestedAt >= q.deadline.value { return Some(Expired); }
      if phase != Active || initialization != Ready { return Some(AdmissionRecoveryRequired); }
      if currentReceipt.Some? && !IsReleasable(currentReceipt.value) { return Some(DomainOccupied); }
      if currentReceipt.Some? && q.requestedAt < LatestTime(currentReceipt.value) { return Some(InvalidRequest); }
      var startup := [idle.record, worker.record, sink.record];
      for i := 0 to |startup|
        invariant forall k :: 0 <= k < i ==> !IsBefore(q.requestedAt, startup[k])
      {
        if IsBefore(q.requestedAt, startup[i]) {
          assert startup[i] in [idle.record, worker.record, sink.record];
          return Some(InvalidRequest);
        }
      }
      assert !IsBefore(q.requestedAt, startup[0]) && !IsBefore(q.requestedAt, startup[1])
             && !IsBefore(q.requestedAt, startup[2]);
      if (config.capabilityObserver != "" && q.requirements.None?)
         || (q.requirements.Some? && !SupportsExecution(State(), q.requirements.value, q.requestedAt)) {
        return Some(CapabilitiesUnavailable);
      }
      return None;
    }

    method Admit(q: OperationRequest) returns (d: AdmissionDecision)
      requires Valid()
      modifies this
      ensures Valid()
      ensures State() == GateSpec.Admit(old(State()), q).0
      ensures d == GateSpec.Admit(old(State()), q).1
      ensures d.authority.Some? ==>
                && d.authority.value.operationId == old(nextOperationId) && currentReceipt.Some?
                && currentReceipt.value.authority == d.authority.value
                  && currentReceipt.value.dispatch.status == DispatchPending
      ensures d.authority.None? ==> State() == old(State())
    {
      hide Inv, Evolves, AdmissionRefusal;
      AdmitKeeps(State(), q);
      var refusal := Refusal(q);
      if refusal.Some? { return AdmissionDecision(refusal.value, None); }
      var authority := OperationAuthority(nextOperationId, config.binding, q.requestedAt);
      nextOperationId := Increment(nextOperationId);
      currentReceipt := Some(NewReceipt(authority, q));
      lastNativeRecord, lastNativeKind := None, None;
      return AdmissionDecision(Admitted, Some(authority));
    }

    method ClaimDispatch(authority: OperationAuthority, at: U64) returns (granted: bool)
      requires Valid()
      modifies this
      ensures Valid()
      ensures State() == GateSpec.ClaimDispatch(old(State()), authority, at).0
      ensures granted == GateSpec.ClaimDispatch(old(State()), authority, at).1
      ensures granted ==> old(currentReceipt).Some? && old(currentReceipt).value.dispatch.status == DispatchPending
      ensures granted ==>
              currentReceipt.Some? && currentReceipt.value.authority == authority
                && currentReceipt.value.dispatch.status == Submitted
      ensures !granted ==> State() == old(State())
    {
      hide Inv, Evolves, LatestBindingTime, LatestTime, LatestEffectTime;
      DispatchKeeps(State(), authority, at);
      if !MayDispatch(State(), authority, at) {
        return false;
      }
      var r := currentReceipt.value;
      currentReceipt := Some(r.(dispatch := r.dispatch.(status := Submitted, at := Some(at))));
      return true;
    }

    method RequestCancel(authority: OperationAuthority, at: U64) returns (d: ControlDecision)
      requires Valid()
      modifies this
      ensures Valid()
      ensures State() == GateSpec.RequestCancel(old(State()), authority, at).0
      ensures d == GateSpec.RequestCancel(old(State()), authority, at).1
      ensures d.status == ControlApplied ==>
                && old(currentReceipt).Some? && currentReceipt.Some? && currentReceipt.value.disposition != Current
                && currentReceipt.value.control.cancelledAt == Some(at)
      ensures d.shouldRequestNativeStop <==>
              && d.status == ControlApplied && old(currentReceipt).value.dispatch.status == Submitted
              && old(currentReceipt).value.native.outcome == OutcomePending
              && old(currentReceipt).value.control.stopRequestedAt.None?
      ensures d.shouldRequestNativeStop ==>
                && currentReceipt.value.control.stopRequestedAt == Some(at)
                && currentReceipt.value.control.stopAcknowledgement == StopPending
      ensures d.status != ControlApplied ==> State() == old(State())
    {
      hide Inv, Evolves, LatestBindingTime, LatestTime, LatestEffectTime;
      CancelKeeps(State(), authority, at);
      if !IsCurrent(State(), authority) {
        return ControlDecision(NoActiveOperation, false);
      }
      var r := currentReceipt.value;
      if r.disposition == Released {
        return ControlDecision(NoActiveOperation, false);
      }
      if at < LatestTime(r) {
        return ControlDecision(ControlRejected, false);
      }
      if r.control.cancelledAt.Some? {
        return ControlDecision(AlreadyRequested, false);
      }
      d := RevokeCurrent(r.control.(cancelledAt := Some(at)), at);
    }

    method ObserveTime(authority: OperationAuthority, at: U64) returns (d: ControlDecision)
      requires Valid()
      modifies this
      ensures Valid()
      ensures State() == GateSpec.ObserveTime(old(State()), authority, at).0
      ensures d == GateSpec.ObserveTime(old(State()), authority, at).1
      ensures d.status == ControlApplied ==>
                && old(currentReceipt).Some? && currentReceipt.Some? && currentReceipt.value.disposition != Current
                && currentReceipt.value.control.expiredAt == Some(at)
      ensures d.shouldRequestNativeStop <==>
              && d.status == ControlApplied && old(currentReceipt).value.dispatch.status == Submitted
              && old(currentReceipt).value.native.outcome == OutcomePending
              && old(currentReceipt).value.control.stopRequestedAt.None?
      ensures d.shouldRequestNativeStop ==>
                && currentReceipt.value.control.stopRequestedAt == Some(at)
                && currentReceipt.value.control.stopAcknowledgement == StopPending
      ensures d.status != ControlApplied ==> State() == old(State())
    {
      hide Inv, Evolves, LatestBindingTime, LatestTime, LatestEffectTime;
      TimeKeeps(State(), authority, at);
      if !IsCurrent(State(), authority) || currentReceipt.value.disposition == Released {
        return ControlDecision(NoActiveOperation, false);
      }
      var r := currentReceipt.value;
      if at < LatestTime(r) {
        return ControlDecision(ControlRejected, false);
      }
      if r.control.expiredAt.Some? {
        return ControlDecision(AlreadyRequested, false);
      }
      if !HasReachedDeadline(r, at) {
        return ControlDecision(NotDue, false);
      }
      d := RevokeCurrent(r.control.(expiredAt := Some(at)), at);
    }

    method ObserveStopAcknowledgement(e: StopAcknowledgementEvidence) returns (d: EvidenceDisposition)
      requires Valid()
      modifies this
      ensures Valid()
      ensures State() == GateSpec.ObserveStopAcknowledgement(old(State()), e).0
      ensures d == GateSpec.ObserveStopAcknowledgement(old(State()), e).1
      ensures d == Rejected ==> State() == old(State())
    {
      hide Inv, Evolves, LatestBindingTime, LatestTime, LatestEffectTime;
      StopKeeps(State(), e);
      if !IsCurrent(State(), e.authority) {
        return Rejected;
      }
      var r := currentReceipt.value;
      if r.control.stopRequestedAt.None?
         || !IsWellFormed(e.record, config.stopSource, r.control.stopRequestedAt.value) {
        return Rejected;
      }
      if e.acknowledgement == NotRequested || e.acknowledgement == StopPending {
        return Rejected;
      }
      if r.control.stop.Some? {
        return if r.control.stopAcknowledgement == e.acknowledgement && r.control.stop.value == e.record then Duplicate
               else Rejected;
      }
      if r.disposition == Released {
        return Rejected;
      }
      var control := r.control.(stopAcknowledgement := e.acknowledgement, stop := Some(e.record));
      currentReceipt := Some(r.(control := control));
      return Accepted;
    }

    method ObserveNonSubmission(e: NonSubmissionEvidence) returns (d: EvidenceDisposition)
      requires Valid()
      modifies this
      ensures Valid()
      ensures State() == GateSpec.ObserveNonSubmission(old(State()), e).0
      ensures d == GateSpec.ObserveNonSubmission(old(State()), e).1
      ensures d == Rejected ==> State() == old(State())
    {
      hide Inv, Evolves, LatestBindingTime, LatestTime, LatestEffectTime;
      NonSubmissionKeeps(State(), e);
      if !IsCurrent(State(), e.authority)
         || !IsWellFormed(e.record, config.settlementSource, e.authority.admittedAt) {
        return Rejected;
      }
      var r := currentReceipt.value;
      if r.dispatch.status == Submitted
         && (r.dispatch.at.None? || e.record.observedAt < r.dispatch.at.value) {
        return Rejected;
      }
      if r.dispatch.status == NotSubmitted {
        return if r.dispatch.notSubmitted == Some(e.record) then Duplicate else Rejected;
      }
      if HasNativeEvidence(r.native) {
        return Rejected;
      }
      currentReceipt := Some(r.(dispatch := r.dispatch.(status := NotSubmitted, notSubmitted := Some(e.record)),
                                native := r.native.(outcome := NotExecuted)));
      RefreshDisposition();
      return Accepted;
    }

    method ObserveNative(e: NativeEvidence) returns (d: EvidenceDisposition)
      requires Valid()
      modifies this
      ensures Valid()
      ensures State() == GateSpec.ObserveNative(old(State()), e).0
      ensures d == GateSpec.ObserveNative(old(State()), e).1
      ensures d == Rejected ==> State() == old(State())
    {
      hide Inv, Evolves, AfterNative, RecordNative, Refresh;
      InvIsCallable(State());
      NativeKeeps(State(), e);
      if !IsCurrent(State(), e.authority) || e.nativeIdentity == ""
         || currentReceipt.value.dispatch.status != Submitted
         || !IsWellFormed(e.record, config.nativeSource, currentReceipt.value.dispatch.at.value) {
        return Rejected;
      }
      var r := currentReceipt.value;
      var n := r.native;
      if lastNativeRecord.Some? {
        var last := lastNativeRecord.value;
        if e.record.sequence < last.sequence || e.record.observedAt < last.observedAt {
          return Rejected;
        }
        if e.record.sequence == last.sequence {
          return if e.record == last && e.kind == lastNativeKind.value && e.nativeIdentity == n.identity
                 then Duplicate else Rejected;
        }
      }
      if n.identity != "" && n.identity != e.nativeIdentity {
        return Rejected;
      }
      if n.identity == "" && e.kind != AcceptedEvent && e.kind != RejectedEvent {
        return Rejected;
      }
      if (n.acceptance == NativelyRejected && e.kind != RejectedEvent)
         || (n.acceptance == NativelyAccepted && e.kind == RejectedEvent) {
        return Rejected;
      }
      n, d := RecordNativeFact(n, e);
      if d == Rejected {
        return;
      }
      StoreNative(n, e);
    }

    method StoreNative(n: NativeFacts, e: NativeEvidence)
      requires currentReceipt.Some?
      modifies `currentReceipt, `lastNativeRecord, `lastNativeKind
      ensures currentReceipt == Some(Refresh(old(currentReceipt.value).(native := n)))
      ensures lastNativeRecord == Some(e.record) && lastNativeKind == Some(e.kind)
    {
      currentReceipt := Some(currentReceipt.value.(native := n));
      lastNativeRecord, lastNativeKind := Some(e.record), Some(e.kind);
      RefreshDisposition();
    }

    /** Records one native event and derives the outcome from the terminal facts seen so far. */
    static method RecordNativeFact(n: NativeFacts, e: NativeEvidence) returns (m: NativeFacts, d: EvidenceDisposition)
      requires n.acceptance == NativelyRejected ==> e.kind == RejectedEvent
      requires n.acceptance == NativelyAccepted ==> e.kind != RejectedEvent
      ensures d == Rejected <==> n.acceptance != NativelyAccepted && !OpensNative(e.kind)
      ensures d != Rejected ==> m == AfterNative(n, e)
      ensures d != Rejected ==> (d == Accepted <==> RecordNative(n, e).Some?)
    {
      m, d := n, Accepted;
      match e.kind {
        case AcceptedEvent =>
          if n.acceptance == NativelyAccepted {
            d := Duplicate;
          } else {
            m := n.(identity := e.nativeIdentity, acceptance := NativelyAccepted, accepted := Some(e.record));
          }
        case RejectedEvent =>
          if n.acceptance == NativelyRejected {
            d := Duplicate;
          } else {
            m := n.(identity := e.nativeIdentity, acceptance := NativelyRejected, outcome := NotExecuted,
                    rejected := Some(e.record));
          }
        case StartedEvent =>
          if n.acceptance != NativelyAccepted {
            d := Rejected;
            return;
          }
          if n.started.Some? { d := Duplicate; } else { m := n.(started := Some(e.record)); }
        case TerminalSucceeded =>
          if n.acceptance != NativelyAccepted {
            d := Rejected;
            return;
          }
          if n.succeeded.Some? { d := Duplicate; } else { m := n.(succeeded := Some(e.record)); }
        case TerminalFailed =>
          if n.acceptance != NativelyAccepted {
            d := Rejected;
            return;
          }
          if n.failed.Some? { d := Duplicate; } else { m := n.(failed := Some(e.record)); }
        case TerminalCancelled =>
          if n.acceptance != NativelyAccepted {
            d := Rejected;
            return;
          }
          if n.cancelled.Some? { d := Duplicate; } else { m := n.(cancelled := Some(e.record)); }
      }
      if TerminalCount(m) > 1 {
        m := m.(outcome := Unknown);
      } else if m.succeeded.Some? {
        m := m.(outcome := Succeeded);
      } else if m.failed.Some? {
        m := m.(outcome := Failed);
      } else if m.cancelled.Some? {
        m := m.(outcome := Cancelled);
      }
    }

    method ObserveOutputAccepted(e: OutputEvidence) returns (d: EvidenceDisposition)
      requires Valid()
      modifies this
      ensures Valid()
      ensures State() == GateSpec.ObserveOutputAccepted(old(State()), e).0
      ensures d == GateSpec.ObserveOutputAccepted(old(State()), e).1
      ensures d == Rejected ==> State() == old(State())
    {
      hide Inv, Evolves, LatestBindingTime, LatestTime, LatestEffectTime;
      OutputKeeps(State(), e);
      if !IsCurrent(State(), e.authority) || e.resultReference == ""
         || !IsWellFormed(e.record, config.resultSinkObserver, e.authority.admittedAt) {
        return Rejected;
      }
      var r := currentReceipt.value;
      if r.output.disposition == OutputAccepted {
        return if r.output.reference == e.resultReference && r.output.delivered == Some(e.record) then Duplicate
               else Rejected;
      }
      if !CanDeliverResult(State(), e.authority) || HasReachedDeadline(r, e.record.observedAt) {
        return Rejected;
      }
      if r.native.succeeded.None? || e.record.observedAt < r.native.succeeded.value.observedAt {
        return Rejected;
      }
      var output := r.output.(disposition := OutputAccepted, reference := e.resultReference,
                              delivered := Some(e.record));
      currentReceipt := Some(r.(output := output));
      RefreshDisposition();
      return Accepted;
    }

    method ObserveOutputNotDelivered(e: NonDeliveryEvidence) returns (d: EvidenceDisposition)
      requires Valid()
      modifies this
      ensures Valid()
      ensures State() == GateSpec.ObserveOutputNotDelivered(old(State()), e).0
      ensures d == GateSpec.ObserveOutputNotDelivered(old(State()), e).1
      ensures d == Rejected ==> State() == old(State())
    {
      hide Inv, Evolves, LatestBindingTime, LatestTime, LatestEffectTime;
      NonDeliveryKeeps(State(), e);
      if !IsCurrent(State(), e.authority) {
        return Rejected;
      }
      var r := currentReceipt.value;
      var prerequisite := NonDeliveryPrerequisite(r, e);
      if prerequisite.None?
         || !IsWellFormed(e.record, NonDeliverySource(e.reason, config), prerequisite.value.observedAt) {
        return Rejected;
      }
      if r.output.disposition == NotDelivered {
        return if r.output.reason == Some(e.reason) && r.output.reference == e.resultReference
                  && r.output.notDelivered == Some(e.record) then Duplicate else Rejected;
      }
      if r.output.disposition != OutputPending || !FollowsSameSource(e.record, r) {
        return Rejected;
      }
      var output := r.output.(disposition := NotDelivered, reason := Some(e.reason), reference := e.resultReference,
                              notDelivered := Some(e.record));
      currentReceipt := Some(r.(output := output));
      RefreshDisposition();
      return Accepted;
    }

    method ObserveSettlement(e: SettlementEvidence) returns (d: EvidenceDisposition)
      requires Valid()
      modifies this
      ensures Valid()
      ensures State() == GateSpec.ObserveSettlement(old(State()), e).0
      ensures d == GateSpec.ObserveSettlement(old(State()), e).1
      ensures d == Rejected ==> State() == old(State())
    {
      hide Inv, Evolves, LatestBindingTime, LatestTime, LatestEffectTime;
      SettlementKeeps(State(), e);
      if !IsCurrent(State(), e.authority) || e.scope != config.settlementScope
         || !IsWellFormed(e.record, config.settlementSource, e.authority.admittedAt) {
        return Rejected;
      }
      var r := currentReceipt.value;
      if r.settlement.Some? {
        return if r.settlement.value == e.record && e.permitsSameDomainAdmission then Duplicate else Rejected;
      }
      if !e.permitsSameDomainAdmission || r.output.disposition == OutputPending {
        return Rejected;
      }
      if e.record.observedAt < LatestEffectTime(r) || !FollowsSameSource(e.record, r) {
        return Rejected;
      }
      if !HasResolvedEffects(r.dispatch.status, r.native, r.output) {
        return Rejected;
      }
      currentReceipt := Some(r.(settlement := Some(e.record)));
      RefreshDisposition();
      return Accepted;
    }

    method CloseAdmission()
      requires Valid()
      modifies this
      ensures Valid()
      ensures State() == GateSpec.CloseAdmission(old(State()))
      ensures phase == Closed && currentReceipt == old(currentReceipt)
    {
      hide Inv, Evolves, LatestBindingTime, LatestTime, LatestEffectTime;
      CloseKeeps(State());
      initialization := InitializationClosed;
      phase := Closed;
      candidate := None;
    }
  }
}
