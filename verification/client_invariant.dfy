/**
 The shape of the client's gate in every exchange, and that no call the client makes of it is
 refused: what the client does with the gate is right for every stream of messages.
 */
module ClientInvariant {
  import opened Machine
  import opened GateTypes
  import opened GateSpec
  import opened GateInvariant
  import opened RecoveryProtocol
  import opened ClientSpec

  // ---------- Shapes of the gate ----------

  function BindingOf(session: U64): BindingIdentity {
    BindingIdentity(OWNER, SCOPE, 1, session)
  }

  predicate IsConfigured(g: GateState, session: U64) {
    g.config == ConfigOf(session, g.config.startedAt)
  }

  /** No operation, no evidence: what precedes the first binding of the session. */
  predicate IsUntouched(g: GateState) {
    && g.receipt.None? && g.nextOperationId == 1 && g.capabilities.None?
    && g.idle == NO_FACT && g.worker == NO_FACT && g.sink == NO_FACT && g.lastNativeRecord.None?
    && g.initialization == RecoveryRequired
  }

  predicate IsBlockedGate(g: GateState, epoch: U64, now: U64) {
    && epoch >= 2 && IsConfigured(g, epoch - 1) && IsUntouched(g)
    && g.phase == Withdrawn && g.withdrawnAt.Some? && g.withdrawnAt.value <= now && g.candidate.None?
    && g.lastOldScope.None? && g.generationHighWater == epoch - 1 && g.lastBindingControlAt <= now
  }

  /** A candidate for this session; `offered` says how many kinds of evidence it has been given. */
  predicate IsPreparingGate(g: GateState, epoch: U64, now: U64, expires: U64, offered: nat) {
    && epoch >= 2 && IsConfigured(g, epoch - 1) && IsUntouched(g)
    && g.phase == Preparing && g.candidate.Some? && g.lastBindingControlAt <= now
    && IsCandidateFor(g.candidate.value, epoch, now, expires, offered)
  }

  predicate IsCandidateFor(c: Candidate, epoch: U64, now: U64, expires: U64, offered: nat) {
    && c.binding == BindingOf(epoch) && c.preparedAt <= now && c.capabilities.None? && !c.capabilitiesConflicted
    && c.oldScope.validUntil == expires && c.oldScope.record.observedAt <= now
    && (if offered > 0 then IsOffered(c.idle, now, expires) else c.idle == NO_READINESS)
    && (if offered > 1 then IsOffered(c.worker, now, expires) else c.worker == NO_READINESS)
    && (if offered > 2 then IsOffered(c.sink, now, expires) else c.sink == NO_READINESS)
  }

  predicate IsOffered(f: ReadinessFact, now: U64, expires: U64) {
    && f.evidence.Some? && !f.conflicted && f.evidence.value.observed
    && f.evidence.value.record.observedAt <= now && f.evidence.value.validUntil == expires
  }

  /** Bound to this session. */
  predicate IsBoundGate(g: GateState, epoch: U64, now: U64) {
    && epoch >= 2 && IsConfigured(g, epoch) && Callable(g)
    && g.phase == Active && g.initialization == Ready && IsReady(g) && g.candidate.None?
    && g.lastBindingControlAt <= now
    && AtMost(g.idle.record, now) && AtMost(g.worker.record, now) && AtMost(g.sink.record, now)
  }

  /** Nothing is in hand: no operation yet, or one entirely closed. */
  predicate IsFreeGate(g: GateState, epoch: U64, now: U64) {
    && IsBoundGate(g, epoch, now)
    && (g.receipt.Some? ==> IsReleasable(g.receipt.value) && EndsBy(g.receipt.value, now))
  }

  const NO_NATIVE := NativeFacts("", AcceptancePending, OutcomePending, None, None, None, None, None, None)
  const NO_OUTPUT := OutputFacts(OutputPending, "", None, None, None)
  const NO_CONTROL := ControlFacts(None, None, None, None, NotRequested, None)

  /** Dispatched, and nothing but native facts known since. */
  predicate IsDispatched(r: OperationReceipt, operation: OperationAuthority, now: U64) {
    && r.authority == operation && operation.admittedAt <= now
    && r.deadline.None? && r.requirements.None?
    && r.dispatch.status == Submitted && r.dispatch.at.Some? && r.dispatch.at.value <= now
    && r.dispatch.notSubmitted.None?
    && r.control == NO_CONTROL && r.settlement.None? && r.disposition == Current
  }

  /** One record of the owner, no later than `now` and numbered no higher than `sequence`. */
  predicate IsPastRecord(r: EvidenceRecord, source: string, now: U64, sequence: U64) {
    r.source == source && r.observedAt <= now && 0 < r.sequence <= sequence
  }

  predicate IsAcceptedNative(n: NativeFacts, id: string, now: U64, sequence: U64) {
    && n.accepted.Some? && IsPastRecord(n.accepted.value, OWNER, now, sequence)
    && n == NativeFacts(id, NativelyAccepted, OutcomePending, n.accepted, None, None, None, None, None)
  }

  /** An operation in hand; `accepted` says whether the owner has accepted it. */
  predicate IsWorkingGate(g: GateState, epoch: U64, now: U64, sequence: U64, operation: OperationAuthority,
                          accepted: bool)
  {
    && IsBoundGate(g, epoch, now) && operation.binding == g.config.binding
    && g.receipt.Some? && IsDispatched(g.receipt.value, operation, now) && g.receipt.value.output == NO_OUTPUT
    && if accepted then
         && IsAcceptedNative(g.receipt.value.native, NativeId(epoch, operation.operationId), now, sequence)
         && g.lastNativeRecord == g.receipt.value.native.accepted && g.lastNativeKind == Some(AcceptedEvent)
       else g.receipt.value.native == NO_NATIVE && g.lastNativeRecord.None?
  }

  // ---------- The gate calls of a recovery ----------

  lemma WithdrawalIsApplied(session: U64, now: U64)
    requires session >= 2
    ensures var config := ConfigOf(session - 1, now);
      var (g, d) := WithdrawBinding(InitialGate(config), config.binding, now);
      d.status == Applied && IsBlockedGate(g, session, now)
  {
    hide LatestOf;
    var g := InitialGate(ConfigOf(session - 1, now));
    LatestOfIsLeast(LatestControlTime(g), LiveRecords(g), now);
  }

  lemma BindingTimeIsPast(g: GateState, epoch: U64, now: U64)
    requires IsBlockedGate(g, epoch, now)
    ensures LatestBindingTime(g) <= now
  {
    hide LatestOf;
    LatestOfIsLeast(LatestControlTime(g), LiveRecords(g), now);
  }

  lemma RebindBegins(g: GateState, epoch: U64, now: U64, sequence: U64, expires: U64)
    requires IsBlockedGate(g, epoch, now) && sequence != 0 && now < expires
    ensures var closure := Closure(g, EvidenceRecord(OWNER, now, sequence), expires);
      var (h, d) := BeginRebind(g, g.config.binding, OWNER, closure, now);
      && d.status == Applied && d.candidate == Some(BindingOf(epoch))
      && IsPreparingGate(h, epoch, now, expires, 0) && h.candidate.value.binding == BindingOf(epoch)
  {
    hide LatestBindingTime;
    BindingTimeIsPast(g, epoch, now);
  }

  function KindAt(offered: nat): StartupEvidenceKind {
    if offered == 0 then BindingIdleAndSettled else if offered == 1 then GateTypes.AdapterReady else ResultSinkReady
  }

  lemma OfferIsAccepted(g: GateState, epoch: U64, now: U64, expires: U64, offered: nat, sequence: U64)
    requires IsPreparingGate(g, epoch, now, expires, offered) && offered < 3 && sequence != 0 && now < expires
    ensures var kind := KindAt(offered);
      var e := BindingReadinessEvidence(kind, BindingOf(epoch), EvidenceRecord(SourceFor(kind), now, sequence), true,
                                        expires);
      var (h, d) := ObserveReadiness(g, e);
      d == GateTypes.Accepted && IsPreparingGate(h, epoch, now, expires, offered + 1)
  {
  }

  lemma CommitIsApplied(g: GateState, epoch: U64, now: U64, expires: U64)
    requires IsPreparingGate(g, epoch, now, expires, 3) && now < expires
    ensures var (h, d) := CommitRebind(g, BindingOf(epoch), now);
      d.status == Applied && IsFreeGate(h, epoch, now) && h.receipt.None? && h.nextOperationId == 1
  {
    hide LatestOf;
    var c := g.candidate.value;
    LatestOfIsLeast(LatestControlTime(g), LiveRecords(g), now);
    LatestOfIsLeast(LatestLiveTime(g), CandidateRecords(c), now);
    assert CandidateRecords(c)[0] == ReadinessRecord(c.idle) && CandidateRecords(c)[1] == ReadinessRecord(c.worker)
      && CandidateRecords(c)[2] == ReadinessRecord(c.sink) && CandidateRecords(c)[3].None?;
  }

  // ---------- The gate calls of an operation ----------

  lemma SubmissionIsAdmitted(g: GateState, epoch: U64, c: ClientState, now: U64)
    requires IsFreeGate(g, epoch, now) && g.nextOperationId != 0
    ensures var (h, d) := Admit(g, RequestFor(c, now));
      && d.status == Admitted && d.authority == Some(OperationAuthority(g.nextOperationId, g.config.binding, now))
      && h.nextOperationId == Increment(g.nextOperationId)
      && ClaimDispatch(h, d.authority.value, now).1
      && ClaimDispatch(h, d.authority.value, now).0.nextOperationId == h.nextOperationId
      && IsWorkingGate(ClaimDispatch(h, d.authority.value, now).0, epoch, now, 0, d.authority.value, false)
  {
    hide LatestTime;
    if g.receipt.Some? { LatestTimeIsLeast(g.receipt.value, now); }
  }

  predicate IsTerminal(kind: NativeEventKind) {
    kind == TerminalSucceeded || kind == TerminalFailed || kind == TerminalCancelled
  }

  predicate IsPast(r: Option<EvidenceRecord>, source: string, now: U64, sequence: U64) {
    r.Some? && IsPastRecord(r.value, source, now, sequence)
  }

  /** The native facts after the outcome was reported. */
  predicate IsEndedNative(n: NativeFacts, kind: NativeEventKind, id: string, now: U64, sequence: U64) {
    match kind
    case RejectedEvent =>
      IsPast(n.rejected, OWNER, now, sequence)
      && n == NativeFacts(id, NativelyRejected, NotExecuted, None, n.rejected, None, None, None, None)
    case TerminalSucceeded =>
      IsPast(n.accepted, OWNER, now, sequence) && IsPast(n.succeeded, OWNER, now, sequence)
      && n == NativeFacts(id, NativelyAccepted, Succeeded, n.accepted, None, None, n.succeeded, None, None)
    case TerminalFailed =>
      IsPast(n.accepted, OWNER, now, sequence) && IsPast(n.failed, OWNER, now, sequence)
      && n == NativeFacts(id, NativelyAccepted, Failed, n.accepted, None, None, None, n.failed, None)
    case TerminalCancelled =>
      IsPast(n.accepted, OWNER, now, sequence) && IsPast(n.cancelled, OWNER, now, sequence)
      && n == NativeFacts(id, NativelyAccepted, GateTypes.Cancelled, n.accepted, None, None, None, None, n.cancelled)
    case _ => false
  }

  predicate IsResolvedOutput(o: OutputFacts, kind: NativeEventKind, id: string, now: U64, sequence: U64) {
    if kind == TerminalSucceeded then
      IsPast(o.delivered, SINK, now, sequence) && o == OutputFacts(OutputAccepted, id, None, o.delivered, None)
    else
      IsPast(o.notDelivered, OWNER, now, sequence)
      && o == OutputFacts(NotDelivered, "", Some(NoOutputProduced), None, o.notDelivered)
  }

  /** The outcome is known, and - where `answered` - so is what became of the output. */
  predicate IsEndedGate(g: GateState, epoch: U64, now: U64, sequence: U64, operation: OperationAuthority,
                        kind: NativeEventKind, answered: bool) {
    var id := NativeId(epoch, operation.operationId);
    && IsBoundGate(g, epoch, now) && operation.binding == g.config.binding
    && g.receipt.Some? && IsDispatched(g.receipt.value, operation, now)
    && IsEndedNative(g.receipt.value.native, kind, id, now, sequence)
    && if answered then IsResolvedOutput(g.receipt.value.output, kind, id, now, sequence)
       else g.receipt.value.output == NO_OUTPUT
  }

  lemma AcceptanceIsAccepted(g: GateState, epoch: U64, now: U64, sequence: U64, operation: OperationAuthority,
                             next: U64)
    requires IsWorkingGate(g, epoch, now, sequence, operation, false) && sequence < next
    ensures Callable(g)
    ensures var e := NativeEvidence(operation, NativeId(epoch, operation.operationId), AcceptedEvent,
                                    EvidenceRecord(OWNER, now, next));
      var (h, d) := ObserveNative(g, e);
      d == GateTypes.Accepted && IsWorkingGate(h, epoch, now, next, operation, true)
      && h.nextOperationId == g.nextOperationId
  {
    hide NativeId;
  }

  lemma OutcomeIsAccepted(g: GateState, epoch: U64, now: U64, sequence: U64, operation: OperationAuthority,
                          accepted: bool, kind: NativeEventKind, next: U64)
    requires IsWorkingGate(g, epoch, now, sequence, operation, accepted) && sequence < next
    requires if accepted then IsTerminal(kind) else kind == RejectedEvent
    ensures Callable(g)
    ensures var e := NativeEvidence(operation, NativeId(epoch, operation.operationId), kind,
                                    EvidenceRecord(OWNER, now, next));
      var (h, d) := ObserveNative(g, e);
      d == GateTypes.Accepted && IsEndedGate(h, epoch, now, next, operation, kind, false)
      && h.nextOperationId == g.nextOperationId
  {
    hide NativeId;
  }

  lemma DeliveryIsAccepted(g: GateState, epoch: U64, now: U64, sequence: U64, operation: OperationAuthority, next: U64)
    requires IsEndedGate(g, epoch, now, sequence, operation, TerminalSucceeded, false) && sequence < next
    ensures CanDeliverResult(g, operation)
    ensures var e := OutputEvidence(operation, NativeId(epoch, operation.operationId), EvidenceRecord(SINK, now, next));
      var (h, d) := ObserveOutputAccepted(g, e);
      d == GateTypes.Accepted && IsEndedGate(h, epoch, now, next, operation, TerminalSucceeded, true)
      && h.nextOperationId == g.nextOperationId
  {
    hide NativeId;
  }

  lemma NoOutputIsAccepted(g: GateState, epoch: U64, now: U64, sequence: U64, operation: OperationAuthority,
                           kind: NativeEventKind, next: U64)
    requires IsEndedGate(g, epoch, now, sequence, operation, kind, false) && kind != TerminalSucceeded
             && sequence < next
    ensures var e := NonDeliveryEvidence(operation, NoOutputProduced, "", EvidenceRecord(OWNER, now, next));
      var (h, d) := ObserveOutputNotDelivered(g, e);
      d == GateTypes.Accepted && IsEndedGate(h, epoch, now, next, operation, kind, true)
      && h.nextOperationId == g.nextOperationId
  {
    hide NativeId;
  }

  lemma SettlementIsAccepted(g: GateState, epoch: U64, now: U64, sequence: U64, operation: OperationAuthority,
                             kind: NativeEventKind, next: U64)
    requires IsEndedGate(g, epoch, now, sequence, operation, kind, true) && sequence < next
    ensures var e := SettlementEvidence(operation, SETTLEMENT, true, EvidenceRecord(OWNER, now, next));
      var (h, d) := ObserveSettlement(g, e);
      d == GateTypes.Accepted && IsFreeGate(h, epoch, now) && h.nextOperationId == g.nextOperationId
  {
    hide NativeId, LatestEffectTime, IsEndedNative, IsResolvedOutput, EndsBy;
    var r := g.receipt.value;
    EndedReceipt(r, kind, NativeId(epoch, operation.operationId), now, sequence, next);
    LatestEffectTimeIsLeast(r, now);
    SettledEndsBy(r, EvidenceRecord(OWNER, now, next), now);
  }

  lemma SettledEndsBy(r: OperationReceipt, record: EvidenceRecord, now: U64)
    requires EffectsEndBy(r, now) && r.control == NO_CONTROL && record.observedAt <= now
    ensures EndsBy(Refresh(r.(settlement := Some(record))), now)
  {
  }

  /** What settlement asks of a receipt whose output is resolved. */
  lemma EndedReceipt(r: OperationReceipt, kind: NativeEventKind, id: string, now: U64, sequence: U64, next: U64)
    requires IsDispatched(r, r.authority, now) && IsEndedNative(r.native, kind, id, now, sequence)
    requires IsResolvedOutput(r.output, kind, id, now, sequence) && sequence < next
    ensures HasResolvedEffects(r.dispatch.status, r.native, r.output) && r.native.outcome != Unknown
    ensures FollowsSameSource(EvidenceRecord(OWNER, now, next), r) && EffectsEndBy(r, now)
    ensures r.output.disposition != OutputPending
  {
  }
}
