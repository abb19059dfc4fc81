/**
 Which evidence the gate takes, exactly, and what its receipt then says: the receipt in hand is the history of
 the calls made since its operation was admitted.
 */
module GateEvidence {
  import opened Machine
  import opened GateTypes
  import opened GateSpec
  import opened GateInvariant
  import opened GateEffects
  import opened GateRuns
  import opened GateLaws

  // ---------- Starting and rebinding ----------

  /** A record of the right observer, numbered, and not before a time. */
  predicate IsFrom(record: EvidenceRecord, source: string, earliest: U64) {
    record.source == source && record.sequence > 0 && earliest <= record.observedAt
  }

  /** Later in number than what is known, and not earlier in time. */
  predicate Supersedes(record: EvidenceRecord, known: Option<EvidenceRecord>) {
    known.Some? ==> record.sequence > known.value.sequence && record.observedAt >= known.value.observedAt
  }

  /** The fact a kind of evidence is about, and who observes it. */
  predicate IsAbout(kind: StartupEvidenceKind, role: Role, config: GateConfig) {
    match role
    case BindingRole => kind == BindingIdleAndSettled
    case WorkerRole => kind == config.readinessKind
    case SinkRole => kind == ResultSinkReady
  }

  function Observer(role: Role, config: GateConfig): string {
    match role
    case BindingRole => config.bindingObserver
    case WorkerRole => config.workerObserver
    case SinkRole => config.resultSinkObserver
  }

  lemma RoleIsExact(kind: StartupEvidenceKind, config: GateConfig, role: Role)
    requires config.Valid()
    ensures RoleOf(kind, config) == Some(role) <==> IsAbout(kind, role, config)
    ensures SourceOf(role, config) == Observer(role, config)
  {
  }

  /**
   Startup evidence of a kind is taken if and only if the gate is active with no operation yet, and it is for the live
   binding, from that kind's observer, not before the start, and supersedes what is known. It then is what is known.
   */
  lemma StartupIsExact(s: GateState, e: StartupEvidence, role: Role)
    requires Inv(s) && IsAbout(e.kind, role, s.config)
    ensures var (t, d) := GateSpec.ObserveStartup(s, e);
      if && s.phase == Active && s.receipt.None? && e.binding == s.config.binding
         && IsFrom(e.record, Observer(role, s.config), s.config.startedAt)
           && Supersedes(e.record, s.Fact(role).record) then
        && d == Accepted && t.Fact(role) == StartupFact(true, e.observed, Some(e.record))
        && (forall other: Role :: other != role ==> t.Fact(other) == s.Fact(other))
      else d != Accepted && t == s
  {
    RoleIsExact(e.kind, s.config, role);
    hide RoleOf, SourceOf, IsReady, ReceiptValid, CandidateIsValid;
  }

  /** The old scope is closed, says its observer: positively, lately, and after all that happened in it. */
  predicate ProvesClosure(s: GateState, e: BindingReadinessEvidence, now: U64) {
    && e.kind == BindingIdleAndSettled && e.binding == s.config.binding && e.observed
    && IsFrom(e.record, s.config.bindingObserver, 0) && e.record.observedAt <= now < e.validUntil
    && (s.withdrawnAt.Some? ==> s.withdrawnAt.value <= e.record.observedAt)
    && (s.receipt.Some? ==> EffectsEndBy(s.receipt.value, e.record.observedAt))
    && Supersedes(e.record, s.idle.record) && Supersedes(e.record, s.lastOldScope)
  }

  lemma ClosureIsExact(s: GateState, e: BindingReadinessEvidence, now: U64)
    requires Inv(s) && s.phase == Withdrawn
    ensures s.withdrawnAt.Some? && (ClosesOldScope(s, e, now) <==> ProvesClosure(s, e, now))
  {
    hide EffectsEndBy, LatestEffectTime, ReceiptValid;
    if s.receipt.Some? { LatestEffectTimeIsLeast(s.receipt.value, e.record.observedAt); }
  }

  /**
   In every run a rebind is begun if and only if the binding is withdrawn, named, nothing remembered is later than the
   call, no work is open, a provider is named, the closure of the old scope is proved, and a generation is left.
   */
  lemma BeginIsExact(config: GateConfig, calls: seq<Call>, i: nat)
    requires config.Valid() && i < |calls| && calls[i].CallBeginRebind?
    ensures var s, t, c := At(config, calls, i), At(config, calls, i + 1), calls[i];
      && AnswerAt(config, calls, i).Binding?
      && var d := AnswerAt(config, calls, i).binding;
         if && s.phase == Withdrawn && c.expectedOld == s.config.binding && GateEndsBy(s, c.now)
            && (s.receipt.Some? ==> s.receipt.value.disposition == Released)
            && c.providerId != "" && s.generationHighWater < MAX_U64 && ProvesClosure(s, c.closure, c.now) then
           var b := s.config.binding.(providerId := c.providerId, providerGeneration := s.generationHighWater + 1);
           && d == BindingDecision(Applied, Some(b), None) && t.phase == Preparing
           && t.candidate.Some? && IsNewCandidate(t.candidate.value, b, c.closure, c.now)
         else d.status != Applied && t == s
  {
    hide At, Inv, GateEndsBy, ProvesClosure, LatestBindingTime, ClosesOldScope;
    AtIsValid(config, calls, i);
    NextState(config, calls, i);
    var s := At(config, calls, i);
    LatestIsLeast(s, calls[i].now);
    OpenWorkIsExact(s);
    if s.phase == Withdrawn { ClosureIsExact(s, calls[i].closure, calls[i].now); }
  }

  /** A candidate about which nothing has been observed. */
  predicate IsNewCandidate(c: Candidate, b: BindingIdentity, closure: BindingReadinessEvidence, now: U64) {
    && c.binding == b && c.preparedAt == now && c.oldScope == closure && c.idle.evidence.None?
      && c.worker.evidence.None?
    && c.sink.evidence.None? && c.capabilities.None?
  }

  lemma OpenWorkIsExact(s: GateState)
    requires Inv(s)
    ensures OldWorkClosed(s) <==> (s.receipt.Some? ==> s.receipt.value.disposition == Released)
    ensures s.candidate.Some? <==> s.phase == Preparing
  {
    hide HasResolvedEffects, CandidateIsValid;
  }

  // ---------- Release ----------

  /**
   Work that never ran, or ended without output, has said so; work that succeeded has its output accepted or
   refused.
   */
  predicate IsAccountedFor(r: OperationReceipt) {
    var o := r.output;
    var none := o.disposition == NotDelivered && o.reason == Some(NoOutputProduced);
    var given := o.disposition == OutputAccepted
      || (o.disposition == NotDelivered && (o.reason == Some(SinkRejected) || o.reason == Some(AuthorityRevoked)));
    || (r.dispatch.notSubmitted.Some? && none)
    || (r.dispatch.notSubmitted.None? && r.native.rejected.Some? && none)
    || (r.dispatch.notSubmitted.None? && r.native.accepted.Some? && (r.native.failed.Some? || r.native.cancelled.Some?)
        && none)
    || (r.dispatch.notSubmitted.None? && r.native.accepted.Some? && r.native.succeeded.Some? && given)
  }

  /** How many different ends were reported. */
  function Ends(n: NativeFacts): nat {
    (if n.succeeded.Some? then 1 else 0) + (if n.failed.Some? then 1 else 0) + (if n.cancelled.Some? then 1 else 0)
  }

  /**
   In every run: contradicting ends block for good; work is released if and only if settlement was proved and the work
   is accounted for; what is neither is revoked or current as its control facts say.
   */
  lemma DispositionTellsFacts(config: GateConfig, calls: seq<Call>, i: nat)
    requires config.Valid() && i <= |calls| && At(config, calls, i).receipt.Some?
    ensures var r := At(config, calls, i).receipt.value;
      var revoked := r.control.cancelledAt.Some? || r.control.expiredAt.Some? || r.control.withdrawnAt.Some?;
      r.disposition == if Ends(r.native) > 1 then BlockedUnknown
                       else if r.settlement.Some? && IsAccountedFor(r) then Released
                       else if revoked then Revoked else Current
  {
    hide At;
    AtIsValid(config, calls, i);
    FactsDecide(At(config, calls, i).receipt.value);
  }

  lemma FactsDecide(r: OperationReceipt)
    requires ReceiptValid(r)
    ensures var revoked := r.control.cancelledAt.Some? || r.control.expiredAt.Some? || r.control.withdrawnAt.Some?;
      r.disposition == if Ends(r.native) > 1 then BlockedUnknown
                       else if r.settlement.Some? && IsAccountedFor(r) then Released
                       else if revoked then Revoked else Current
  {
  }

  /** In every run the outcome is what the reported ends come to. */
  lemma OutcomeTellsEnds(config: GateConfig, calls: seq<Call>, i: nat)
    requires config.Valid() && i <= |calls| && At(config, calls, i).receipt.Some?
    ensures var r := At(config, calls, i).receipt.value;
      r.native.outcome == if Ends(r.native) > 1 then Unknown
                          else if r.native.succeeded.Some? then Succeeded
                          else if r.native.failed.Some? then Failed
                          else if r.native.cancelled.Some? then Cancelled
                          else if r.dispatch.notSubmitted.Some? || r.native.rejected.Some? then NotExecuted
                          else OutcomePending
  {
    hide At;
    AtIsValid(config, calls, i);
    EndsDecide(At(config, calls, i).receipt.value);
  }

  lemma EndsDecide(r: OperationReceipt)
    requires ReceiptValid(r)
    ensures r.native.outcome == if Ends(r.native) > 1 then Unknown
                                else if r.native.succeeded.Some? then Succeeded
                                else if r.native.failed.Some? then Failed
                                else if r.native.cancelled.Some? then Cancelled
                                else if r.dispatch.notSubmitted.Some? || r.native.rejected.Some? then NotExecuted
                                else OutcomePending
  {
  }

  // ---------- Evidence about the operation ----------

  /** The record of an event, once it was taken. */
  function EventRecord(n: NativeFacts, kind: NativeEventKind): Option<EvidenceRecord> {
    match kind
    case AcceptedEvent => n.accepted
    case RejectedEvent => n.rejected
    case StartedEvent => n.started
    case TerminalSucceeded => n.succeeded
    case TerminalFailed => n.failed
    case TerminalCancelled => n.cancelled
  }

  /** An event fits: the first acceptance or rejection, or of accepted work, of this identity, something new. */
  predicate IsNews(n: NativeFacts, e: NativeEvidence) {
    if e.kind == AcceptedEvent || e.kind == RejectedEvent then n.accepted.None? && n.rejected.None?
    else n.accepted.Some? && n.identity == e.nativeIdentity && EventRecord(n, e.kind).None?
  }

  /** One event more is recorded, and no other changes. */
  predicate RecordsEvent(n: NativeFacts, m: NativeFacts, e: NativeEvidence) {
    && m.identity == e.nativeIdentity && EventRecord(m, e.kind) == Some(e.record)
    && forall kind: NativeEventKind :: kind != e.kind ==> EventRecord(m, kind) == EventRecord(n, kind)
  }

  predicate IsNativeFor(s: GateState, e: NativeEvidence) {
    && Holds(s, e.authority) && e.nativeIdentity != "" && s.receipt.value.dispatch.at.Some?
    && s.receipt.value.dispatch.notSubmitted.None?
      && IsFrom(e.record, s.config.nativeSource, s.receipt.value.dispatch.at.value)
    && Supersedes(e.record, s.lastNativeRecord)
  }

  /** A native event is taken if and only if it is about the submitted operation in hand, in order, and news. */
  lemma NativeIsExact(s: GateState, e: NativeEvidence)
    requires Inv(s)
    ensures Callable(s)
    ensures var (t, d) := GateSpec.ObserveNative(s, e);
      if IsNativeFor(s, e) && IsNews(s.receipt.value.native, e) then
        && d == Accepted && t.receipt.Some? && t.lastNativeRecord == Some(e.record)
        && RecordsEvent(s.receipt.value.native, t.receipt.value.native, e)
      else d != Accepted && t.receipt == s.receipt
  {
    hide HasResolvedClosure, CandidateIsValid;
  }

  /** The output is still to come, of work that succeeded and nothing else, under a live binding and no revocation. */
  predicate AwaitsOutput(s: GateState, a: OperationAuthority) {
    && (s.phase == Active || s.phase == Closed) && Holds(s, a)
    && var r := s.receipt.value;
       && r.control.cancelledAt.None? && r.control.expiredAt.None? && r.control.withdrawnAt.None?
       && r.native.succeeded.Some? && r.native.failed.None? && r.native.cancelled.None?
       && r.output.delivered.None? && r.output.notDelivered.None?
  }

  lemma DeliverableIsExact(s: GateState, a: OperationAuthority)
    requires Inv(s)
    ensures CanDeliverResult(s, a) <==> AwaitsOutput(s, a)
  {
  }

  /** Output is accepted if and only if it is awaited, named, from the sink, in time and after the success. */
  lemma OutputIsExact(s: GateState, e: OutputEvidence)
    requires Inv(s)
    ensures var (t, d) := GateSpec.ObserveOutputAccepted(s, e);
      if && AwaitsOutput(s, e.authority) && e.resultReference != ""
         && IsFrom(e.record, s.config.resultSinkObserver, e.authority.admittedAt)
         && (s.receipt.value.deadline.Some? ==> e.record.observedAt < s.receipt.value.deadline.value)
         && s.receipt.value.native.succeeded.value.observedAt <= e.record.observedAt then
        && d == Accepted && t.receipt.Some?
        && t.receipt.value.output == OutputFacts(OutputAccepted, e.resultReference, None, Some(e.record), None)
      else d != Accepted && t == s
  {
    DeliverableIsExact(s, e.authority);
    hide HasResolvedEffects, CandidateIsValid;
    if s.receipt.Some? && s.receipt.value.output.disposition == OutputPending { UnreportedOutput(s.receipt.value); }
  }

  lemma UnreportedOutput(r: OperationReceipt)
    requires ReceiptValid(r) && r.output.disposition == OutputPending
    ensures r.output.reason.None? && r.output.delivered.None? && r.output.notDelivered.None?
  {
  }

  /** Every record of a receipt. */
  function RecordsOf(r: OperationReceipt): seq<Option<EvidenceRecord>> {
    [r.native.accepted, r.native.rejected, r.native.started, r.native.succeeded, r.native.failed, r.native.cancelled,
     r.dispatch.notSubmitted, r.output.delivered, r.output.notDelivered, r.settlement, r.control.stop]
  }

  /** Later in number than everything of the receipt from the same source. */
  predicate IsNewest(e: EvidenceRecord, r: OperationReceipt) {
    forall known :: known in RecordsOf(r) && known.Some? && known.value.source == e.source ==>
      e.sequence > known.value.sequence
  }

  lemma NewestIsExact(e: EvidenceRecord, r: OperationReceipt)
    ensures FollowsSameSource(e, r) <==> IsNewest(e, r)
  {
    var all := RecordsOf(r);
    assert all[0] == r.native.accepted && all[1] == r.native.rejected && all[2] == r.native.started
           && all[3] == r.native.succeeded && all[4] == r.native.failed && all[5] == r.native.cancelled
           && all[6] == r.dispatch.notSubmitted && all[7] == r.output.delivered && all[8] == r.output.notDelivered
           && all[9] == r.settlement && all[10] == r.control.stop;
  }

  /**
   Why no output comes, and the record that must precede saying so: it was never submitted, rejected, failed or was
   cancelled; or, of work that succeeded, it was revoked first, or the sink refused it.
   */
  function CauseOf(r: OperationReceipt, e: NonDeliveryEvidence): Option<EvidenceRecord> {
    var succeeded := r.native.succeeded.Some? && r.native.failed.None? && r.native.cancelled.None?;
    var revoked :=
      || (r.control.cancelledAt.Some? && r.control.cancelledAt.value <= e.record.observedAt)
      || (r.control.expiredAt.Some? && r.control.expiredAt.value <= e.record.observedAt)
      || (r.control.withdrawnAt.Some? && r.control.withdrawnAt.value <= e.record.observedAt);
    if e.reason == NoOutputProduced then
      if e.resultReference != "" || Ends(r.native) > 1 then None
      else if r.dispatch.notSubmitted.Some? then r.dispatch.notSubmitted
      else if r.native.rejected.Some? then r.native.rejected
      else if r.native.failed.Some? then r.native.failed
      else r.native.cancelled
    else if e.resultReference == "" || !succeeded || (e.reason == AuthorityRevoked && !revoked) then None
    else r.native.succeeded
  }

  lemma CauseIsExact(r: OperationReceipt, e: NonDeliveryEvidence)
    requires ReceiptValid(r)
    ensures NonDeliveryPrerequisite(r, e) == CauseOf(r, e)
  {
    hide HasResolvedEffects, RespectsDeadline, OutputIsConsistent, StartsAtAdmission, DispositionOf;
  }

  /** Missing output is reported if and only if it is awaited, its cause is on record, and the report is the newest. */
  lemma NonDeliveryIsExact(s: GateState, e: NonDeliveryEvidence)
    requires Inv(s)
    ensures var (t, d) := GateSpec.ObserveOutputNotDelivered(s, e);
      var source := if e.reason == NoOutputProduced then s.config.settlementSource else s.config.resultSinkObserver;
      if && Holds(s, e.authority) && s.receipt.value.output.delivered.None? && s.receipt.value.output.notDelivered.None?
         && CauseOf(s.receipt.value, e).Some?
         && IsFrom(e.record, source, CauseOf(s.receipt.value, e).value.observedAt)
           && IsNewest(e.record, s.receipt.value) then
        && d == Accepted && t.receipt.Some?
        && t.receipt.value.output == OutputFacts(NotDelivered, e.resultReference, Some(e.reason), None, Some(e.record))
      else d != Accepted && t == s
  {
    if s.receipt.Some? {
      ValidOf(s);
      CauseIsExact(s.receipt.value, e);
      NewestIsExact(e.record, s.receipt.value);
      ReportedOutput(s.receipt.value);
    }
    hide HasResolvedEffects, CandidateIsValid, CauseOf, NonDeliveryPrerequisite, IsNewest, FollowsSameSource,
         ReceiptValid;
  }

  lemma ValidOf(s: GateState)
    requires Inv(s) && s.receipt.Some?
    ensures ReceiptValid(s.receipt.value) && s.config.Valid()
  {
    hide ReceiptValid, GateConfig.Valid;
  }

  lemma ReportedOutput(r: OperationReceipt)
    requires ReceiptValid(r)
    ensures r.output.disposition == OutputPending <==> r.output.delivered.None? && r.output.notDelivered.None?
    ensures r.output.disposition == NotDelivered <==> r.output.notDelivered.Some?
    ensures r.output.disposition == OutputPending ==> r.output.reason.None?
  {
    hide HasResolvedEffects, RespectsDeadline, StartsAtAdmission, DispositionOf;
  }

  /**
   Settlement is taken once, if and only if it permits new work, comes after all effects and is the newest
   record, and the
   operation's end and output are accounted for.
   */
  lemma SettlementIsExact(s: GateState, e: SettlementEvidence)
    requires Inv(s)
    ensures var (t, d) := GateSpec.ObserveSettlement(s, e);
      if && Holds(s, e.authority) && e.scope == s.config.settlementScope && e.permitsSameDomainAdmission
         && IsFrom(e.record, s.config.settlementSource, e.authority.admittedAt) && s.receipt.value.settlement.None?
         && EffectsEndBy(s.receipt.value, e.record.observedAt) && IsNewest(e.record, s.receipt.value)
         && Ends(s.receipt.value.native) <= 1 && IsAccountedFor(s.receipt.value) then
        d == Accepted && t.receipt.Some? && t.receipt.value.settlement == Some(e.record)
      else d != Accepted && t == s
  {
    if s.receipt.Some? {
      ValidOf(s);
      NewestIsExact(e.record, s.receipt.value);
      LatestEffectTimeIsLeast(s.receipt.value, e.record.observedAt);
      AccountsAreExact(s.receipt.value);
    }
    hide HasResolvedEffects, CandidateIsValid, IsNewest, FollowsSameSource, ReceiptValid, IsAccountedFor,
         LatestEffectTime,
         EffectsEndBy;
  }

  lemma AccountsAreExact(r: OperationReceipt)
    requires ReceiptValid(r)
    ensures HasResolvedEffects(r.dispatch.status, r.native, r.output) <==> Ends(r.native) <= 1 && IsAccountedFor(r)
    ensures IsAccountedFor(r) ==> r.output.disposition != OutputPending
  {
  }

  /** A response to a stop is taken once, of the stop source, after the stop was asked for and before the release. */
  lemma StopResponseIsExact(s: GateState, e: StopAcknowledgementEvidence)
    requires Inv(s)
    ensures var (t, d) := GateSpec.ObserveStopAcknowledgement(s, e);
      if && Holds(s, e.authority) && s.receipt.value.control.stopRequestedAt.Some? && s.receipt.value.control.stop.None?
         && IsFrom(e.record, s.config.stopSource, s.receipt.value.control.stopRequestedAt.value)
         && e.acknowledgement in {Acknowledged, Refused, Unavailable} && s.receipt.value.disposition != Released then
        && d == Accepted && t.receipt.Some? && t.receipt.value.control.stop == Some(e.record)
        && t.receipt.value.control.stopAcknowledgement == e.acknowledgement
      else d != Accepted && t == s
  {
    hide ReceiptValid, CandidateIsValid;
  }

  /** That nothing was submitted is believed once, unless something was heard of it, and then the work never ran. */
  lemma NonSubmissionIsExact(s: GateState, e: NonSubmissionEvidence)
    requires Inv(s)
    ensures var (t, d) := GateSpec.ObserveNonSubmission(s, e);
      if && Holds(s, e.authority) && IsFrom(e.record, s.config.settlementSource, e.authority.admittedAt)
         && s.receipt.value.dispatch.notSubmitted.None?
         && (s.receipt.value.dispatch.at.Some? ==> s.receipt.value.dispatch.at.value <= e.record.observedAt)
         && s.receipt.value.native.accepted.None? && s.receipt.value.native.rejected.None? then
        && d == Accepted && t.receipt.Some?
        && t.receipt.value.dispatch == s.receipt.value.dispatch.(status := NotSubmitted, notSubmitted := Some(e.record))
        && t.receipt.value.native.outcome == NotExecuted
      else d != Accepted && t == s
  {
    hide HasResolvedEffects, CandidateIsValid, IsRevoked;
  }
}
