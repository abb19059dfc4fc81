/** The value types of the authority gate's public interface. */
module GateTypes {
  import opened Machine

  datatype BindingIdentity = BindingIdentity(
    providerId: string,
    effectDomain: string,
    compositionRevision: U64,
    providerGeneration: U64)

  datatype EvidenceRecord = EvidenceRecord(source: string, observedAt: U64, sequence: U64)

  datatype InitializationState = RecoveryRequired | Ready | InitializationClosed

  datatype StartupEvidenceKind = BindingIdleAndSettled | WorkerReady | ResultSinkReady | AdapterReady

  datatype StartupEvidence = StartupEvidence(
    kind: StartupEvidenceKind,
    binding: BindingIdentity,
    record: EvidenceRecord,
    observed: bool)

  datatype ExecutionRequirements = ExecutionRequirements(profileId: string, workUnits: U64)

  datatype ExecutionCapabilities = ExecutionCapabilities(
    binding: BindingIdentity,
    capabilityId: string,
    profileId: string,
    maximumWorkUnits: U64,
    available: bool,
    record: EvidenceRecord,
    validUntil: U64)

  datatype OperationRequest = OperationRequest(
    capabilityId: string,
    effectDomain: string,
    requestReference: string,
    targetReference: string,
    requestedAt: U64,
    deadline: Option<U64>,
    requirements: Option<ExecutionRequirements>)

  datatype OperationAuthority = OperationAuthority(
    operationId: U64,
    binding: BindingIdentity,
    admittedAt: U64)

  datatype BindingPhase = Active | Withdrawn | Preparing | Closed

  datatype BindingControlStatus =
    | Applied
    | AlreadyInPhase
    | StaleIdentity
    | WrongPhase
    | UnresolvedWork
    | InvalidEvidence
    | InvalidTime
    | InvalidProvider
    | IdentityExhausted
    | BindingClosed

  datatype BindingReadinessEvidence = BindingReadinessEvidence(
    kind: StartupEvidenceKind,
    binding: BindingIdentity,
    record: EvidenceRecord,
    observed: bool,
    validUntil: U64)

  datatype BindingDecision = BindingDecision(
    status: BindingControlStatus,
    candidate: Option<BindingIdentity>,
    nativeStopAuthority: Option<OperationAuthority>)

  datatype AdmissionStatus =
    | Admitted
    | InvalidRequest
    | Expired
    | AdmissionRecoveryRequired
    | DomainOccupied
    | AdmissionClosed
    | CapabilitiesUnavailable

  datatype AdmissionDecision = AdmissionDecision(
    status: AdmissionStatus,
    authority: Option<OperationAuthority>)

  datatype EvidenceDisposition = Accepted | Duplicate | Rejected

  datatype NativeEventKind =
    | AcceptedEvent
    | RejectedEvent
    | StartedEvent
    | TerminalSucceeded
    | TerminalFailed
    | TerminalCancelled

  datatype NativeEvidence = NativeEvidence(
    authority: OperationAuthority,
    nativeIdentity: string,
    kind: NativeEventKind,
    record: EvidenceRecord)

  datatype OutputEvidence = OutputEvidence(
    authority: OperationAuthority,
    resultReference: string,
    record: EvidenceRecord)

  datatype NonSubmissionEvidence = NonSubmissionEvidence(
    authority: OperationAuthority,
    record: EvidenceRecord)

  datatype NonDeliveryReason = NoOutputProduced | SinkRejected | AuthorityRevoked

  datatype NonDeliveryEvidence = NonDeliveryEvidence(
    authority: OperationAuthority,
    reason: NonDeliveryReason,
    resultReference: string,
    record: EvidenceRecord)

  datatype SettlementEvidence = SettlementEvidence(
    authority: OperationAuthority,
    scope: string,
    permitsSameDomainAdmission: bool,
    record: EvidenceRecord)

  datatype DispatchStatus = DispatchPending | Submitted | NotSubmitted
  datatype NativeAcceptance = AcceptancePending | NativelyAccepted | NativelyRejected
  datatype NativeOutcome = OutcomePending | NotExecuted | Succeeded | Failed | Cancelled | Unknown
  datatype OutputDisposition = OutputPending | OutputAccepted | NotDelivered
  datatype AuthorityDisposition = Current | Revoked | Released | BlockedUnknown
  datatype ControlStatus = ControlApplied | AlreadyRequested | NoActiveOperation | NotDue | ControlRejected

  datatype ControlDecision = ControlDecision(status: ControlStatus, shouldRequestNativeStop: bool)

  datatype StopAcknowledgement = NotRequested | StopPending | Acknowledged | Refused | Unavailable

  datatype StopAcknowledgementEvidence = StopAcknowledgementEvidence(
    authority: OperationAuthority,
    acknowledgement: StopAcknowledgement,
    record: EvidenceRecord)

  // A receipt groups its facts by what reports them. The source's flags `native_started` and
  // `observed_native_*` and its settlement status are the presence of the matching record here.

  datatype DispatchFacts = DispatchFacts(
    status: DispatchStatus,
    at: Option<U64>,
    notSubmitted: Option<EvidenceRecord>)

  datatype NativeFacts = NativeFacts(
    identity: string,
    acceptance: NativeAcceptance,
    outcome: NativeOutcome,
    accepted: Option<EvidenceRecord>,
    rejected: Option<EvidenceRecord>,
    started: Option<EvidenceRecord>,
    succeeded: Option<EvidenceRecord>,
    failed: Option<EvidenceRecord>,
    cancelled: Option<EvidenceRecord>)

  datatype OutputFacts = OutputFacts(
    disposition: OutputDisposition,
    reference: string,
    reason: Option<NonDeliveryReason>,
    delivered: Option<EvidenceRecord>,
    notDelivered: Option<EvidenceRecord>)

  datatype ControlFacts = ControlFacts(
    cancelledAt: Option<U64>,
    expiredAt: Option<U64>,
    withdrawnAt: Option<U64>,
    stopRequestedAt: Option<U64>,
    stopAcknowledgement: StopAcknowledgement,
    stop: Option<EvidenceRecord>)

  datatype OperationReceipt = OperationReceipt(
    authority: OperationAuthority,
    deadline: Option<U64>,
    requirements: Option<ExecutionRequirements>,
    dispatch: DispatchFacts,
    native: NativeFacts,
    output: OutputFacts,
    control: ControlFacts,
    settlement: Option<EvidenceRecord>,
    disposition: AuthorityDisposition)

  datatype GateConfig = GateConfig(
    binding: BindingIdentity,
    capabilityId: string,
    bindingObserver: string,
    workerObserver: string,
    resultSinkObserver: string,
    nativeSource: string,
    settlementSource: string,
    settlementScope: string,
    startedAt: U64,
    stopSource: string,
    readinessKind: StartupEvidenceKind,
    capabilityObserver: string)
  {
    /** The configurations the constructor does not refuse. */
    predicate Valid() {
      && binding.providerId != "" && binding.effectDomain != ""
      && binding.compositionRevision != 0 && binding.providerGeneration != 0
      && capabilityId != "" && bindingObserver != "" && workerObserver != ""
      && resultSinkObserver != "" && nativeSource != "" && settlementSource != ""
      && settlementScope != "" && stopSource != ""
      && stopSource != nativeSource && stopSource != settlementSource && stopSource != resultSinkObserver
      && (readinessKind == WorkerReady || readinessKind == AdapterReady)
    }
  }
}
