/**
 The authority gate as functions on its state: for every public call, the state it leaves
 behind and the answer it gives. `AuthorityGate` (authority_gate.dfy) is the class whose
 methods refine these functions; the theorems about whole runs are stated over them.
 */
module GateSpec {
  import opened Machine
  import opened GateTypes

  // ---------- State ----------

  /** The three observers whose evidence opens a binding. */
  datatype Role = BindingRole | WorkerRole | SinkRole

  datatype StartupFact = StartupFact(observed: bool, value: bool, record: Option<EvidenceRecord>)

  datatype ReadinessFact = ReadinessFact(evidence: Option<BindingReadinessEvidence>, conflicted: bool)

  datatype Candidate = Candidate(
    binding: BindingIdentity,
    preparedAt: U64,
    oldScope: BindingReadinessEvidence,
    idle: ReadinessFact,
    worker: ReadinessFact,
    sink: ReadinessFact,
    capabilities: Option<ExecutionCapabilities>,
    capabilitiesConflicted: bool)
  {
    function Fact(role: Role): ReadinessFact {
      match role
      case BindingRole => idle
      case WorkerRole => worker
      case SinkRole => sink
    }

    function WithFact(role: Role, fact: ReadinessFact): Candidate {
      match role
      case BindingRole => this.(idle := fact)
      case WorkerRole => this.(worker := fact)
      case SinkRole => this.(sink := fact)
    }
  }

  datatype GateState = GateState(
    config: GateConfig,
    initialization: InitializationState,
    idle: StartupFact,
    worker: StartupFact,
    sink: StartupFact,
    phase: BindingPhase,
    generationHighWater: U64,
    lastBindingControlAt: U64,
    withdrawnAt: Option<U64>,
    lastOldScope: Option<EvidenceRecord>,
    candidate: Option<Candidate>,
    nextOperationId: U64,
    receipt: Option<OperationReceipt>,
    lastNativeRecord: Option<EvidenceRecord>,
    lastNativeKind: Option<NativeEventKind>,
    capabilities: Option<ExecutionCapabilities>)
  {
    function Fact(role: Role): StartupFact {
      match role
      case BindingRole => idle
      case WorkerRole => worker
      case SinkRole => sink
    }

    function WithFact(role: Role, fact: StartupFact): GateState {
      match role
      case BindingRole => this.(idle := fact)
      case WorkerRole => this.(worker := fact)
      case SinkRole => this.(sink := fact)
    }
  }

  const NO_FACT := StartupFact(false, false, None)
  const NO_READINESS := ReadinessFact(None, false)

  function InitialGate(config: GateConfig): GateState {
    GateState(config, RecoveryRequired, NO_FACT, NO_FACT, NO_FACT, Active,
              config.binding.providerGeneration, config.startedAt, None, None, None, 1,
              None, None, None, None)
  }

  // ---------- What a receipt says ----------

  function Later(time: U64, record: Option<EvidenceRecord>): U64 {
    if record.Some? then Max(time, record.value.observedAt) else time
  }

  /** The latest of a time and the times of some records. */
  function LatestOf(time: U64, records: seq<Option<EvidenceRecord>>): U64
    decreases |records|
  {
    if records == [] then time else LatestOf(Later(time, records[0]), records[1..])
  }

  /** Every record of a receipt but the stop response, which completed cleanup does not wait for. */
  function EffectRecords(r: OperationReceipt): seq<Option<EvidenceRecord>> {
    [r.native.accepted, r.native.rejected, r.native.started, r.native.succeeded, r.native.failed,
     r.output.delivered, r.dispatch.notSubmitted, r.output.notDelivered, r.settlement, r.native.cancelled]
  }

  function LatestEffectTime(r: OperationReceipt): U64 {
    LatestOf(MaxOpt(r.authority.admittedAt, r.dispatch.at), EffectRecords(r))
  }

  function LatestTime(r: OperationReceipt): U64 {
    var t := Later(LatestEffectTime(r), r.control.stop);
    MaxOpt(MaxOpt(MaxOpt(t, r.control.cancelledAt), r.control.expiredAt), r.control.withdrawnAt)
  }

  predicate IsRevoked(c: ControlFacts) {
    c.cancelledAt.Some? || c.expiredAt.Some? || c.withdrawnAt.Some?
  }

  predicate HasReachedDeadline(r: OperationReceipt, time: U64) {
    r.deadline.Some? && time >= r.deadline.value
  }

  predicate RevocationPrecedes(c: ControlFacts, time: U64) {
    || (c.cancelledAt.Some? && time >= c.cancelledAt.value)
    || (c.expiredAt.Some? && time >= c.expiredAt.value)
    || (c.withdrawnAt.Some? && time >= c.withdrawnAt.value)
  }

  predicate IsWellFormed(record: EvidenceRecord, source: string, earliest: U64) {
    record.source != "" && record.source == source && record.sequence != 0 && record.observedAt >= earliest
  }

  predicate Follows(evidence: EvidenceRecord, previous: Option<EvidenceRecord>) {
    previous.Some? && previous.value.source == evidence.source ==> previous.value.sequence < evidence.sequence
  }

  predicate FollowsSameSource(e: EvidenceRecord, r: OperationReceipt) {
    && Follows(e, r.native.accepted) && Follows(e, r.native.rejected) && Follows(e, r.native.started)
    && Follows(e, r.native.succeeded) && Follows(e, r.native.failed) && Follows(e, r.output.delivered)
    && Follows(e, r.dispatch.notSubmitted) && Follows(e, r.output.notDelivered)
    && Follows(e, r.settlement) && Follows(e, r.native.cancelled) && Follows(e, r.control.stop)
  }

  predicate NoOutput(o: OutputFacts) {
    o.disposition == NotDelivered && o.reason == Some(NoOutputProduced)
  }

  predicate ResolvedOutput(o: OutputFacts) {
    || o.disposition == OutputAccepted
    || (o.disposition == NotDelivered && (o.reason == Some(SinkRejected) || o.reason == Some(AuthorityRevoked)))
  }

  predicate HasResolvedEffects(d: DispatchStatus, n: NativeFacts, o: OutputFacts) {
    match d
    case DispatchPending => false
    case NotSubmitted => n.outcome == NotExecuted && NoOutput(o)
    case Submitted =>
      match n.acceptance
      case AcceptancePending => false
      case NativelyRejected => n.outcome == NotExecuted && NoOutput(o)
      case NativelyAccepted =>
        match n.outcome
        case Failed => NoOutput(o)
        case Cancelled => NoOutput(o)
        case Succeeded => ResolvedOutput(o)
        case _ => false
  }

  predicate HasResolvedClosure(r: OperationReceipt) {
    r.settlement.Some? && HasResolvedEffects(r.dispatch.status, r.native, r.output)
  }

  /** The disposition as it follows from the rest of the receipt. */
  function DispositionOf(r: OperationReceipt): AuthorityDisposition {
    if r.native.outcome == Unknown then BlockedUnknown
    else if HasResolvedClosure(r) then Released
    else if IsRevoked(r.control) then Revoked
    else Current
  }

  function Refresh(r: OperationReceipt): OperationReceipt {
    r.(disposition := DispositionOf(r))
  }

  predicate IsReleasable(r: OperationReceipt) {
    HasResolvedClosure(r) && r.disposition == Released
  }

  // ---------- What the gate knows ----------

  predicate IsCurrent(s: GateState, authority: OperationAuthority) {
    s.receipt.Some? && authority.binding == s.config.binding && s.receipt.value.authority == authority
  }

  predicate OldWorkClosed(s: GateState) {
    s.receipt.Some? ==> IsReleasable(s.receipt.value)
  }

  function RoleOf(kind: StartupEvidenceKind, config: GateConfig): Option<Role> {
    if kind == BindingIdleAndSettled then Some(BindingRole)
    else if kind == config.readinessKind then Some(WorkerRole)
    else if kind == ResultSinkReady then Some(SinkRole)
    else None
  }

  function SourceOf(role: Role, config: GateConfig): string {
    match role
    case BindingRole => config.bindingObserver
    case WorkerRole => config.workerObserver
    case SinkRole => config.resultSinkObserver
  }

  function ReadinessRecord(fact: ReadinessFact): Option<EvidenceRecord> {
    if fact.evidence.Some? then Some(fact.evidence.value.record) else None
  }

  function CapabilitiesRecord(c: Option<ExecutionCapabilities>): Option<EvidenceRecord> {
    if c.Some? then Some(c.value.record) else None
  }

  function LiveRecords(s: GateState): seq<Option<EvidenceRecord>> {
    [s.idle.record, s.worker.record, s.sink.record, CapabilitiesRecord(s.capabilities)]
  }

  function CandidateRecords(c: Candidate): seq<Option<EvidenceRecord>> {
    [ReadinessRecord(c.idle), ReadinessRecord(c.worker), ReadinessRecord(c.sink), CapabilitiesRecord(c.capabilities)]
  }

  function LatestControlTime(s: GateState): U64 {
    if s.receipt.Some? then Max(s.lastBindingControlAt, LatestTime(s.receipt.value)) else s.lastBindingControlAt
  }

  /** The latest time at which anything that outlives the candidate was observed. */
  function LatestLiveTime(s: GateState): U64 {
    LatestOf(LatestControlTime(s), LiveRecords(s))
  }

  function LatestBindingTime(s: GateState): U64 {
    if s.candidate.Some? then LatestOf(LatestLiveTime(s), CandidateRecords(s.candidate.value)) else LatestLiveTime(s)
  }

  predicate IsOpenFact(fact: ReadinessFact, now: U64) {
    && fact.evidence.Some? && !fact.conflicted && fact.evidence.value.observed
    && fact.evidence.value.record.observedAt <= now < fact.evidence.value.validUntil
  }

  predicate IsOpenCapability(c: Candidate, now: U64) {
    && c.capabilities.Some? && !c.capabilitiesConflicted && c.capabilities.value.available
    && c.capabilities.value.record.observedAt <= now < c.capabilities.value.validUntil
  }

  predicate CanCommit(s: GateState, now: U64) {
    && s.phase == Preparing && s.candidate.Some? && now >= LatestBindingTime(s) && OldWorkClosed(s)
    && now < s.candidate.value.oldScope.validUntil
    && (s.receipt.Some? ==>
          s.candidate.value.oldScope.record.observedAt >= LatestEffectTime(s.receipt.value))
    && IsOpenFact(s.candidate.value.idle, now)
    && IsOpenFact(s.candidate.value.worker, now)
    && IsOpenFact(s.candidate.value.sink, now)
    && (s.config.capabilityObserver != "" ==> IsOpenCapability(s.candidate.value, now))
  }

  predicate SupportsExecution(s: GateState, q: ExecutionRequirements, at: U64) {
    && s.phase == Active && s.initialization != InitializationClosed && s.capabilities.Some?
    && q.profileId != "" && q.workUnits != 0
    && s.capabilities.value.available && s.capabilities.value.profileId == q.profileId
    && q.workUnits <= s.capabilities.value.maximumWorkUnits
    && s.capabilities.value.record.observedAt <= at < s.capabilities.value.validUntil
  }

  // ---------- Startup and capabilities ----------

  function ObserveStartup(s: GateState, e: StartupEvidence): (GateState, EvidenceDisposition) {
    var role := RoleOf(e.kind, s.config);
    if s.phase != Active || s.initialization == InitializationClosed || s.receipt.Some?
       || e.binding != s.config.binding || role.None?
       || !IsWellFormed(e.record, SourceOf(role.value, s.config), s.config.startedAt) then
      (s, Rejected)
    else
      var fact := s.Fact(role.value);
      if fact.record.Some? && (e.record.sequence < fact.record.value.sequence
                               || e.record.observedAt < fact.record.value.observedAt) then
        (s, Rejected)
      else if fact.record.Some? && e.record.sequence == fact.record.value.sequence then
        (s, if e.record == fact.record.value && e.observed == fact.value then Duplicate else Rejected)
      else
        var t := s.WithFact(role.value, StartupFact(true, e.observed, Some(e.record)));
        (t.(initialization := if IsReady(t) then Ready else RecoveryRequired), Accepted)
  }

  predicate IsReady(s: GateState) {
    && s.idle.observed && s.idle.value && s.worker.observed && s.worker.value
    && s.sink.observed && s.sink.value
  }

  predicate SameOffer(a: ExecutionCapabilities, b: ExecutionCapabilities) {
    && a.record == b.record && a.profileId == b.profileId && a.maximumWorkUnits == b.maximumWorkUnits
    && a.available == b.available && a.validUntil == b.validUntil
  }

  predicate AreUsable(c: ExecutionCapabilities, config: GateConfig) {
    && c.capabilityId == config.capabilityId && c.profileId != "" && c.maximumWorkUnits != 0
    && c.validUntil > c.record.observedAt
  }

  predicate IsForCandidate(s: GateState, binding: BindingIdentity) {
    s.candidate.Some? && binding == s.candidate.value.binding && s.phase == Preparing
  }

  function ObserveCandidateCapabilities(c: Candidate, config: GateConfig, e: ExecutionCapabilities)
    : (Candidate, EvidenceDisposition)
  {
    if config.capabilityObserver == "" || !IsWellFormed(e.record, config.capabilityObserver, c.preparedAt) then
      (c, Rejected)
    else if c.capabilities.Some? && e.record.sequence < c.capabilities.value.record.sequence then
      (c, Rejected)
    else if c.capabilities.Some? && e.record.sequence == c.capabilities.value.record.sequence then
      var previous := c.capabilities.value;
      if SameOffer(e, previous) && e.capabilityId == previous.capabilityId
      then (c, if c.capabilitiesConflicted then Rejected else Duplicate)
      else
        var raised := previous.record.(observedAt := Max(previous.record.observedAt, e.record.observedAt));
        (c.(capabilities := Some(previous.(record := raised)), capabilitiesConflicted := true), Rejected)
    else if c.capabilities.Some? && e.record.observedAt < c.capabilities.value.record.observedAt then
      (c, Rejected)
    else if !AreUsable(e, config) then
      (c, Rejected)
    else
      (c.(capabilities := Some(e), capabilitiesConflicted := false), Accepted)
  }

  function ObserveCapabilities(s: GateState, e: ExecutionCapabilities): (GateState, EvidenceDisposition) {
    if IsForCandidate(s, e.binding) then
      var (c, d) := ObserveCandidateCapabilities(s.candidate.value, s.config, e);
      (s.(candidate := Some(c)), d)
    else if s.initialization == InitializationClosed || s.config.capabilityObserver == ""
            || e.binding != s.config.binding || !AreUsable(e, s.config)
            || !IsWellFormed(e.record, s.config.capabilityObserver, s.config.startedAt) then
      (s, Rejected)
    else if s.capabilities.Some? && (e.record.observedAt < s.capabilities.value.record.observedAt
                                     || e.record.sequence < s.capabilities.value.record.sequence) then
      (s, Rejected)
    else if s.capabilities.Some? && e.record.sequence == s.capabilities.value.record.sequence then
      (s, if SameOffer(e, s.capabilities.value) then Duplicate else Rejected)
    else
      (s.(capabilities := Some(e)), Accepted)
  }

  // ---------- Withdrawal and rebinding ----------

  function Refuse(s: GateState, status: BindingControlStatus): (GateState, BindingDecision) {
    (s, BindingDecision(status, None, None))
  }

  predicate ShouldStop(r: OperationReceipt) {
    r.dispatch.status == Submitted && r.native.outcome == OutcomePending && r.control.stopRequestedAt.None?
  }

  /** What every revocation does, given the control facts with its own time recorded. */
  function Revoke(r: OperationReceipt, marked: ControlFacts, now: U64): OperationReceipt {
    Refresh(r.(control := if ShouldStop(r)
               then marked.(stopRequestedAt := Some(now), stopAcknowledgement := StopPending)
                          else marked))
  }

  function WithdrawBinding(s: GateState, expected: BindingIdentity, now: U64): (GateState, BindingDecision) {
    if s.phase == Closed then Refuse(s, BindingClosed)
    else if expected != (if s.candidate.Some? then s.candidate.value.binding else s.config.binding) then
      Refuse(s, StaleIdentity)
    else if now < LatestBindingTime(s) then Refuse(s, InvalidTime)
    else if s.phase == Withdrawn then Refuse(s, AlreadyInPhase)
    else
      var t := s.(lastBindingControlAt := now, initialization := RecoveryRequired, phase := Withdrawn);
      if s.candidate.Some? then (t.(candidate := None), BindingDecision(Applied, None, None))
      else
        var t := t.(withdrawnAt := Some(now));
        if s.receipt.Some? && IsCurrent(s, s.receipt.value.authority) && !IsReleasable(s.receipt.value) then
          var r := s.receipt.value;
          (t.(receipt := Some(Revoke(r, r.control.(withdrawnAt := Some(now)), now))),
           BindingDecision(Applied, None, if ShouldStop(r) then Some(r.authority) else None))
        else
          (t, BindingDecision(Applied, None, None))
  }

  predicate IsStaleScope(record: EvidenceRecord, previous: Option<EvidenceRecord>) {
    previous.Some? && (record.sequence <= previous.value.sequence || record.observedAt < previous.value.observedAt)
  }

  function EarliestClosure(s: GateState): U64
    requires s.withdrawnAt.Some?
  {
    if s.receipt.Some? then Max(s.withdrawnAt.value, LatestEffectTime(s.receipt.value)) else s.withdrawnAt.value
  }

  /** The evidence that the old scope is closed, as `begin_rebind` demands it. */
  predicate ClosesOldScope(s: GateState, e: BindingReadinessEvidence, now: U64)
    requires s.withdrawnAt.Some?
  {
    && e.binding == s.config.binding && e.kind == BindingIdleAndSettled && e.observed
    && IsWellFormed(e.record, s.config.bindingObserver, EarliestClosure(s))
    && e.record.observedAt <= now < e.validUntil
    && !IsStaleScope(e.record, s.idle.record) && !IsStaleScope(e.record, s.lastOldScope)
  }

  function NextBinding(s: GateState, providerId: string): BindingIdentity
    requires s.generationHighWater < MAX_U64
  {
    s.config.binding.(providerId := providerId, providerGeneration := s.generationHighWater + 1)
  }

  function BeginRebind(s: GateState, expectedOld: BindingIdentity, providerId: string,
                       closure: BindingReadinessEvidence, now: U64): (GateState, BindingDecision)
    requires s.phase == Withdrawn ==> s.withdrawnAt.Some?
  {
    if s.phase == Closed then Refuse(s, BindingClosed)
    else if expectedOld != s.config.binding then Refuse(s, StaleIdentity)
    else if now < LatestBindingTime(s) then Refuse(s, InvalidTime)
    else if s.candidate.Some? then
      (s, BindingDecision(AlreadyInPhase, Some(s.candidate.value.binding), None))
    else if s.phase != Withdrawn then Refuse(s, WrongPhase)
    else if !OldWorkClosed(s) then Refuse(s, UnresolvedWork)
    else if providerId == "" then Refuse(s, InvalidProvider)
    else if !ClosesOldScope(s, closure, now) then Refuse(s, InvalidEvidence)
    else if s.generationHighWater == MAX_U64 then Refuse(s, IdentityExhausted)
    else
      var binding := NextBinding(s, providerId);
      var c := Candidate(binding, now, closure, NO_READINESS, NO_READINESS, NO_READINESS, None, false);
      (s.(candidate := Some(c), lastOldScope := Some(closure.record),
          generationHighWater := s.generationHighWater + 1, lastBindingControlAt := now, phase := Preparing),
       BindingDecision(Applied, Some(binding), None))
  }

  predicate SameReadiness(a: BindingReadinessEvidence, b: BindingReadinessEvidence) {
    a.record == b.record && a.observed == b.observed && a.validUntil == b.validUntil
  }

  /** One evidence item folded into what is known of its kind. */
  function FoldReadiness(fact: ReadinessFact, e: BindingReadinessEvidence): (ReadinessFact, EvidenceDisposition) {
    if fact.evidence.Some? && e.record.sequence < fact.evidence.value.record.sequence then
      (fact, Rejected)
    else if fact.evidence.Some? && e.record.sequence == fact.evidence.value.record.sequence then
      var previous := fact.evidence.value;
      if SameReadiness(e, previous) then (fact, if fact.conflicted then Rejected else Duplicate)
      else
        var raised := previous.record.(observedAt := Max(previous.record.observedAt, e.record.observedAt));
        (ReadinessFact(Some(previous.(record := raised)), true), Rejected)
    else if fact.evidence.Some? && e.record.observedAt < fact.evidence.value.record.observedAt then
      (fact, Rejected)
    else if e.validUntil <= e.record.observedAt then
      (fact, Rejected)
    else
      (ReadinessFact(Some(e), false), Accepted)
  }

  /** Evidence addressed to the candidate, from the right observer, not older than the candidate. */
  predicate IsReadinessFor(c: Candidate, config: GateConfig, e: BindingReadinessEvidence) {
    var role := RoleOf(e.kind, config);
    && e.binding == c.binding && role.Some?
    && IsWellFormed(e.record, SourceOf(role.value, config), c.preparedAt)
  }

  function ObserveReadiness(s: GateState, e: BindingReadinessEvidence): (GateState, EvidenceDisposition) {
    if s.phase != Preparing || s.candidate.None? || !IsReadinessFor(s.candidate.value, s.config, e) then
      (s, Rejected)
    else
      var role := RoleOf(e.kind, s.config).value;
      var (fact, d) := FoldReadiness(s.candidate.value.Fact(role), e);
      (s.(candidate := Some(s.candidate.value.WithFact(role, fact))), d)
  }

  function Installed(fact: ReadinessFact): StartupFact
    requires fact.evidence.Some?
  {
    StartupFact(true, true, Some(fact.evidence.value.record))
  }

  function CommitRebind(s: GateState, expected: BindingIdentity, now: U64): (GateState, BindingDecision) {
    if s.phase == Closed then Refuse(s, BindingClosed)
    else if now < LatestBindingTime(s) then Refuse(s, InvalidTime)
    else if s.candidate.None? then
      Refuse(s, if s.phase == Active && s.withdrawnAt.Some? && expected == s.config.binding then AlreadyInPhase
                else StaleIdentity)
    else if expected != s.candidate.value.binding then Refuse(s, StaleIdentity)
    else if !OldWorkClosed(s) then Refuse(s, UnresolvedWork)
    else if !CanCommit(s, now) then Refuse(s, InvalidEvidence)
    else
      var c := s.candidate.value;
      (s.(config := s.config.(binding := c.binding),
          idle := Installed(c.idle), worker := Installed(c.worker), sink := Installed(c.sink),
          capabilities := c.capabilities, lastOldScope := None, candidate := None,
          lastBindingControlAt := now, initialization := Ready, phase := Active),
       BindingDecision(Applied, None, None))
  }

  // ---------- Operations ----------

  predicate IsBefore(time: U64, record: Option<EvidenceRecord>) {
    record.Some? && time < record.value.observedAt
  }

  function NewReceipt(authority: OperationAuthority, q: OperationRequest): OperationReceipt {
    OperationReceipt(
      authority, q.deadline, q.requirements,
      DispatchFacts(DispatchPending, None, None),
      NativeFacts("", AcceptancePending, OutcomePending, None, None, None, None, None, None),
      OutputFacts(OutputPending, "", None, None, None),
      ControlFacts(None, None, None, None, NotRequested, None),
      None, Current)
  }

  function AdmissionRefusal(s: GateState, q: OperationRequest): Option<AdmissionStatus> {
    if s.initialization == InitializationClosed then Some(AdmissionClosed)
    else if q.capabilityId != s.config.capabilityId || q.effectDomain != s.config.binding.effectDomain
            || q.requestReference == "" || q.targetReference == ""
            || q.requestedAt < s.lastBindingControlAt || s.nextOperationId == 0 then Some(InvalidRequest)
    else if q.deadline.Some? && q.requestedAt >= q.deadline.value then Some(Expired)
    else if s.phase != Active || s.initialization != Ready then Some(AdmissionRecoveryRequired)
    else if s.receipt.Some? && !IsReleasable(s.receipt.value) then Some(DomainOccupied)
    else if s.receipt.Some? && q.requestedAt < LatestTime(s.receipt.value) then Some(InvalidRequest)
    else if IsBefore(q.requestedAt, s.idle.record) || IsBefore(q.requestedAt, s.worker.record)
            || IsBefore(q.requestedAt, s.sink.record) then Some(InvalidRequest)
    else if (s.config.capabilityObserver != "" && q.requirements.None?)
            || (q.requirements.Some? && !SupportsExecution(s, q.requirements.value, q.requestedAt)) then
      Some(CapabilitiesUnavailable)
    else None
  }

  function Admit(s: GateState, q: OperationRequest): (GateState, AdmissionDecision) {
    var refusal := AdmissionRefusal(s, q);
    if refusal.Some? then (s, AdmissionDecision(refusal.value, None))
    else
      var authority := OperationAuthority(s.nextOperationId, s.config.binding, q.requestedAt);
      (s.(nextOperationId := Increment(s.nextOperationId), receipt := Some(NewReceipt(authority, q)),
          lastNativeRecord := None, lastNativeKind := None),
       AdmissionDecision(Admitted, Some(authority)))
  }

  predicate MayDispatch(s: GateState, authority: OperationAuthority, at: U64) {
    && s.phase == Active && s.initialization == Ready && IsCurrent(s, authority)
    && at >= authority.admittedAt && s.receipt.value.dispatch.status == DispatchPending
    && !IsRevoked(s.receipt.value.control) && !HasReachedDeadline(s.receipt.value, at)
    && (s.receipt.value.requirements.Some? ==> SupportsExecution(s, s.receipt.value.requirements.value, at))
  }

  function ClaimDispatch(s: GateState, authority: OperationAuthority, at: U64): (GateState, bool) {
    if MayDispatch(s, authority, at) then
      var r := s.receipt.value;
      (s.(receipt := Some(r.(dispatch := r.dispatch.(status := Submitted, at := Some(at))))), true)
    else (s, false)
  }

  function RequestCancel(s: GateState, authority: OperationAuthority, at: U64): (GateState, ControlDecision) {
    if !IsCurrent(s, authority) || s.receipt.value.disposition == Released then
      (s, ControlDecision(NoActiveOperation, false))
    else
      var r := s.receipt.value;
      if at < LatestTime(r) then (s, ControlDecision(ControlRejected, false))
      else if r.control.cancelledAt.Some? then (s, ControlDecision(AlreadyRequested, false))
      else (s.(receipt := Some(Revoke(r, r.control.(cancelledAt := Some(at)), at))),
            ControlDecision(ControlApplied, ShouldStop(r)))
  }

  function ObserveTime(s: GateState, authority: OperationAuthority, at: U64): (GateState, ControlDecision) {
    if !IsCurrent(s, authority) || s.receipt.value.disposition == Released then
      (s, ControlDecision(NoActiveOperation, false))
    else
      var r := s.receipt.value;
      if at < LatestTime(r) then (s, ControlDecision(ControlRejected, false))
      else if r.control.expiredAt.Some? then (s, ControlDecision(AlreadyRequested, false))
      else if !HasReachedDeadline(r, at) then (s, ControlDecision(NotDue, false))
      else (s.(receipt := Some(Revoke(r, r.control.(expiredAt := Some(at)), at))),
            ControlDecision(ControlApplied, ShouldStop(r)))
  }

  // ---------- Evidence about the current operation ----------

  function ObserveStopAcknowledgement(s: GateState, e: StopAcknowledgementEvidence)
    : (GateState, EvidenceDisposition)
  {
    if !IsCurrent(s, e.authority) || s.receipt.value.control.stopRequestedAt.None?
       || !IsWellFormed(e.record, s.config.stopSource, s.receipt.value.control.stopRequestedAt.value)
       || e.acknowledgement == NotRequested || e.acknowledgement == StopPending then
      (s, Rejected)
    else
      var r := s.receipt.value;
      if r.control.stop.Some? then
        (s, if r.control.stopAcknowledgement == e.acknowledgement && r.control.stop.value == e.record then Duplicate
            else Rejected)
      else if r.disposition == Released then (s, Rejected)
      else
        var control := r.control.(stopAcknowledgement := e.acknowledgement, stop := Some(e.record));
        (s.(receipt := Some(r.(control := control))), Accepted)
  }

  predicate HasNativeEvidence(n: NativeFacts) {
    n.accepted.Some? || n.rejected.Some? || n.started.Some? || n.succeeded.Some? || n.failed.Some?
  }

  function ObserveNonSubmission(s: GateState, e: NonSubmissionEvidence): (GateState, EvidenceDisposition) {
    if !IsCurrent(s, e.authority)
       || !IsWellFormed(e.record, s.config.settlementSource, e.authority.admittedAt) then
      (s, Rejected)
    else
      var r := s.receipt.value;
      var d := r.dispatch;
      if d.status == Submitted && (d.at.None? || e.record.observedAt < d.at.value) then
        (s, Rejected)
      else if d.status == NotSubmitted then
        (s, if d.notSubmitted == Some(e.record) then Duplicate else Rejected)
      else if HasNativeEvidence(r.native) then
        (s, Rejected)
      else
        (s.(receipt := Some(Refresh(r.(dispatch := d.(status := NotSubmitted, notSubmitted := Some(e.record)),
                                       native := r.native.(outcome := NotExecuted))))),
         Accepted)
  }

  function TerminalCount(n: NativeFacts): nat {
    (if n.succeeded.Some? then 1 else 0) + (if n.failed.Some? then 1 else 0) + (if n.cancelled.Some? then 1 else 0)
  }

  /** Contradicting terminal facts leave no outcome to believe. */
  function OutcomeOf(n: NativeFacts): NativeOutcome {
    if TerminalCount(n) > 1 then Unknown
    else if n.succeeded.Some? then Succeeded
    else if n.failed.Some? then Failed
    else if n.cancelled.Some? then Cancelled
    else n.outcome
  }

  /** The native fact recorded, or nothing where it repeats one already there. */
  function RecordNative(n: NativeFacts, e: NativeEvidence): Option<NativeFacts> {
    match e.kind
    case AcceptedEvent =>
      if n.acceptance == NativelyAccepted then None
      else Some(n.(identity := e.nativeIdentity, acceptance := NativelyAccepted, accepted := Some(e.record)))
    case RejectedEvent =>
      if n.acceptance == NativelyRejected then None
      else Some(n.(identity := e.nativeIdentity, acceptance := NativelyRejected, outcome := NotExecuted,
                   rejected := Some(e.record)))
    case StartedEvent => if n.started.Some? then None else Some(n.(started := Some(e.record)))
    case TerminalSucceeded => if n.succeeded.Some? then None else Some(n.(succeeded := Some(e.record)))
    case TerminalFailed => if n.failed.Some? then None else Some(n.(failed := Some(e.record)))
    case TerminalCancelled => if n.cancelled.Some? then None else Some(n.(cancelled := Some(e.record)))
  }

  function AfterNative(n: NativeFacts, e: NativeEvidence): NativeFacts {
    var recorded := RecordNative(n, e);
    var m := if recorded.Some? then recorded.value else n;
    m.(outcome := OutcomeOf(m))
  }

  predicate OpensNative(kind: NativeEventKind) {
    kind == AcceptedEvent || kind == RejectedEvent
  }

  /** Native evidence that does not fit what the receipt already says. */
  predicate ContradictsNative(n: NativeFacts, e: NativeEvidence) {
    || (n.identity != "" && n.identity != e.nativeIdentity)
    || (n.identity == "" && !OpensNative(e.kind))
    || (n.acceptance == NativelyRejected && e.kind != RejectedEvent)
    || (n.acceptance == NativelyAccepted && e.kind == RejectedEvent)
    || (n.acceptance != NativelyAccepted && !OpensNative(e.kind))
  }

  function ObserveNative(s: GateState, e: NativeEvidence): (GateState, EvidenceDisposition)
    requires s.receipt.Some? && s.receipt.value.dispatch.status == Submitted ==> s.receipt.value.dispatch.at.Some?
    requires s.lastNativeRecord.Some? ==> s.lastNativeKind.Some?
  {
    if !IsCurrent(s, e.authority) || e.nativeIdentity == "" || s.receipt.value.dispatch.status != Submitted
       || !IsWellFormed(e.record, s.config.nativeSource, s.receipt.value.dispatch.at.value) then
      (s, Rejected)
    else
      var r := s.receipt.value;
      var last := s.lastNativeRecord;
      if last.Some? && (e.record.sequence < last.value.sequence || e.record.observedAt < last.value.observedAt) then
        (s, Rejected)
      else if last.Some? && e.record.sequence == last.value.sequence then
        (s, if e.record == last.value && e.kind == s.lastNativeKind.value && e.nativeIdentity == r.native.identity
            then Duplicate else Rejected)
      else if ContradictsNative(r.native, e) then
        (s, Rejected)
      else
        (s.(receipt := Some(Refresh(r.(native := AfterNative(r.native, e)))),
            lastNativeRecord := Some(e.record), lastNativeKind := Some(e.kind)),
         if RecordNative(r.native, e).Some? then Accepted else Duplicate)
  }

  predicate CanDeliverResult(s: GateState, authority: OperationAuthority) {
    && s.phase != Withdrawn && s.phase != Preparing && IsCurrent(s, authority)
    && !IsRevoked(s.receipt.value.control) && s.receipt.value.native.outcome == Succeeded
    && s.receipt.value.output.disposition == OutputPending
  }

  function ObserveOutputAccepted(s: GateState, e: OutputEvidence): (GateState, EvidenceDisposition) {
    if !IsCurrent(s, e.authority) || e.resultReference == ""
       || !IsWellFormed(e.record, s.config.resultSinkObserver, e.authority.admittedAt) then
      (s, Rejected)
    else
      var r := s.receipt.value;
      var o := r.output;
      if o.disposition == OutputAccepted then
        (s, if o.reference == e.resultReference && o.delivered == Some(e.record) then Duplicate else Rejected)
      else if !CanDeliverResult(s, e.authority) || HasReachedDeadline(r, e.record.observedAt)
              || r.native.succeeded.None? || e.record.observedAt < r.native.succeeded.value.observedAt then
        (s, Rejected)
      else
        (s.(receipt := Some(Refresh(r.(output := o.(disposition := OutputAccepted, reference := e.resultReference,
                                                    delivered := Some(e.record)))))),
         Accepted)
  }

  function DeliverablePrerequisite(n: NativeFacts, e: NonDeliveryEvidence): Option<EvidenceRecord> {
    if e.resultReference == "" || n.acceptance != NativelyAccepted || n.outcome != Succeeded then None
    else n.succeeded
  }

  /** The evidence that must precede a report of missing output, and `None` where no report may come. */
  function NonDeliveryPrerequisite(r: OperationReceipt, e: NonDeliveryEvidence): Option<EvidenceRecord> {
    match e.reason
    case NoOutputProduced =>
      if e.resultReference != "" then None
      else if r.dispatch.status == NotSubmitted then r.dispatch.notSubmitted
      else if r.native.acceptance == NativelyRejected then r.native.rejected
      else if r.native.acceptance == NativelyAccepted && r.native.outcome == Failed then r.native.failed
      else if r.native.outcome == Cancelled then r.native.cancelled
      else None
    case AuthorityRevoked =>
      if RevocationPrecedes(r.control, e.record.observedAt) then DeliverablePrerequisite(r.native, e) else None
    case SinkRejected => DeliverablePrerequisite(r.native, e)
  }

  function NonDeliverySource(reason: NonDeliveryReason, config: GateConfig): string {
    if reason == NoOutputProduced then config.settlementSource else config.resultSinkObserver
  }

  function ObserveOutputNotDelivered(s: GateState, e: NonDeliveryEvidence): (GateState, EvidenceDisposition) {
    if !IsCurrent(s, e.authority) then (s, Rejected)
    else
      var r := s.receipt.value;
      var o := r.output;
      var prerequisite := NonDeliveryPrerequisite(r, e);
      if prerequisite.None?
         || !IsWellFormed(e.record, NonDeliverySource(e.reason, s.config), prerequisite.value.observedAt) then
        (s, Rejected)
      else if o.disposition == NotDelivered then
        (s, if o.reason == Some(e.reason) && o.reference == e.resultReference
               && o.notDelivered == Some(e.record) then Duplicate else Rejected)
      else if o.disposition != OutputPending || !FollowsSameSource(e.record, r) then
        (s, Rejected)
      else
        (s.(receipt := Some(Refresh(r.(output := o.(disposition := NotDelivered, reason := Some(e.reason),
                                                    reference := e.resultReference,
                                                    notDelivered := Some(e.record)))))),
         Accepted)
  }

  function ObserveSettlement(s: GateState, e: SettlementEvidence): (GateState, EvidenceDisposition) {
    if !IsCurrent(s, e.authority) || e.scope != s.config.settlementScope
       || !IsWellFormed(e.record, s.config.settlementSource, e.authority.admittedAt) then
      (s, Rejected)
    else
      var r := s.receipt.value;
      if r.settlement.Some? then
        (s, if r.settlement.value == e.record && e.permitsSameDomainAdmission then Duplicate else Rejected)
      else if !e.permitsSameDomainAdmission || r.output.disposition == OutputPending
              || e.record.observedAt < LatestEffectTime(r) || !FollowsSameSource(e.record, r)
              || !HasResolvedEffects(r.dispatch.status, r.native, r.output) then
        (s, Rejected)
      else
        (s.(receipt := Some(Refresh(r.(settlement := Some(e.record))))), Accepted)
  }

  function CloseAdmission(s: GateState): GateState {
    s.(initialization := InitializationClosed, phase := Closed, candidate := None)
  }

  // ---------- Calls and runs ----------

  datatype Call =
    | CallObserveStartup(startup: StartupEvidence)
    | CallObserveCapabilities(offered: ExecutionCapabilities)
    | CallWithdraw(expected: BindingIdentity, now: U64)
    | CallBeginRebind(expectedOld: BindingIdentity, providerId: string,
                      closure: BindingReadinessEvidence, now: U64)
    | CallObserveReadiness(readiness: BindingReadinessEvidence)
    | CallCommit(expected: BindingIdentity, now: U64)
    | CallAdmit(request: OperationRequest)
    | CallClaimDispatch(authority: OperationAuthority, at: U64)
    | CallRequestCancel(authority: OperationAuthority, at: U64)
    | CallObserveTime(authority: OperationAuthority, at: U64)
    | CallObserveStop(stop: StopAcknowledgementEvidence)
    | CallObserveNonSubmission(nonSubmission: NonSubmissionEvidence)
    | CallObserveNative(native: NativeEvidence)
    | CallObserveOutput(output: OutputEvidence)
    | CallObserveNonDelivery(nonDelivery: NonDeliveryEvidence)
    | CallObserveSettlement(settlement: SettlementEvidence)
    | CallCloseAdmission

  datatype Answer =
    | Evidence(disposition: EvidenceDisposition)
    | Binding(binding: BindingDecision)
    | Admission(admission: AdmissionDecision)
    | Dispatch(granted: bool)
    | Control(control: ControlDecision)
    | NoAnswer

  /** What the partial calls dereference without a check of their own. */
  predicate Callable(s: GateState) {
    && (s.phase == Withdrawn ==> s.withdrawnAt.Some?)
    && (s.receipt.Some? && s.receipt.value.dispatch.status == Submitted ==> s.receipt.value.dispatch.at.Some?)
    && (s.lastNativeRecord.Some? ==> s.lastNativeKind.Some?)
  }

  /** The state a call leaves behind. */
  function Next(s: GateState, c: Call): GateState
    requires Callable(s)
  {
    match c
    case CallObserveStartup(e) => ObserveStartup(s, e).0
    case CallObserveCapabilities(e) => ObserveCapabilities(s, e).0
    case CallWithdraw(b, now) => WithdrawBinding(s, b, now).0
    case CallBeginRebind(b, p, e, now) => BeginRebind(s, b, p, e, now).0
    case CallObserveReadiness(e) => ObserveReadiness(s, e).0
    case CallCommit(b, now) => CommitRebind(s, b, now).0
    case CallAdmit(q) => Admit(s, q).0
    case CallClaimDispatch(a, at) => ClaimDispatch(s, a, at).0
    case CallRequestCancel(a, at) => RequestCancel(s, a, at).0
    case CallObserveTime(a, at) => ObserveTime(s, a, at).0
    case CallObserveStop(e) => ObserveStopAcknowledgement(s, e).0
    case CallObserveNonSubmission(e) => ObserveNonSubmission(s, e).0
    case CallObserveNative(e) => ObserveNative(s, e).0
    case CallObserveOutput(e) => ObserveOutputAccepted(s, e).0
    case CallObserveNonDelivery(e) => ObserveOutputNotDelivered(s, e).0
    case CallObserveSettlement(e) => ObserveSettlement(s, e).0
    case CallCloseAdmission => CloseAdmission(s)
  }

  /** What a call answers. */
  function AnswerTo(s: GateState, c: Call): Answer
    requires Callable(s)
  {
    match c
    case CallObserveStartup(e) => Evidence(ObserveStartup(s, e).1)
    case CallObserveCapabilities(e) => Evidence(ObserveCapabilities(s, e).1)
    case CallWithdraw(b, now) => Binding(WithdrawBinding(s, b, now).1)
    case CallBeginRebind(b, p, e, now) => Binding(BeginRebind(s, b, p, e, now).1)
    case CallObserveReadiness(e) => Evidence(ObserveReadiness(s, e).1)
    case CallCommit(b, now) => Binding(CommitRebind(s, b, now).1)
    case CallAdmit(q) => Admission(Admit(s, q).1)
    case CallClaimDispatch(a, at) => Dispatch(ClaimDispatch(s, a, at).1)
    case CallRequestCancel(a, at) => Control(RequestCancel(s, a, at).1)
    case CallObserveTime(a, at) => Control(ObserveTime(s, a, at).1)
    case CallObserveStop(e) => Evidence(ObserveStopAcknowledgement(s, e).1)
    case CallObserveNonSubmission(e) => Evidence(ObserveNonSubmission(s, e).1)
    case CallObserveNative(e) => Evidence(ObserveNative(s, e).1)
    case CallObserveOutput(e) => Evidence(ObserveOutputAccepted(s, e).1)
    case CallObserveNonDelivery(e) => Evidence(ObserveOutputNotDelivered(s, e).1)
    case CallObserveSettlement(e) => Evidence(ObserveSettlement(s, e).1)
    case CallCloseAdmission => NoAnswer
  }

  /** As `Next` and `AnswerTo`, for a gate of which nothing is known. */
  function Asked(g: GateState, c: Call): GateState {
    if Callable(g) then Next(g, c) else g
  }

  function AnswerOf(g: GateState, c: Call): Answer {
    if Callable(g) then AnswerTo(g, c) else NoAnswer
  }
}
