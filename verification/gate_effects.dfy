/**
 What the calls of a gate leave alone, call by call, and what their times do to its memory: the facts
 that whoever drives a gate needs about each step.
 */
module GateEffects {
  import opened Machine
  import opened GateTypes
  import opened GateSpec
  import opened GateInvariant

  // ---------- Times ----------

  function TimeOf(c: Call): U64 {
    match c
    case CallObserveStartup(e) => e.record.observedAt
    case CallObserveCapabilities(e) => e.record.observedAt
    case CallWithdraw(_, now) => now
    case CallBeginRebind(_, _, _, now) => now
    case CallObserveReadiness(e) => e.record.observedAt
    case CallCommit(_, now) => now
    case CallAdmit(q) => q.requestedAt
    case CallClaimDispatch(_, at) => at
    case CallRequestCancel(_, at) => at
    case CallObserveTime(_, at) => at
    case CallObserveStop(e) => e.record.observedAt
    case CallObserveNonSubmission(e) => e.record.observedAt
    case CallObserveNative(e) => e.record.observedAt
    case CallObserveOutput(e) => e.record.observedAt
    case CallObserveNonDelivery(e) => e.record.observedAt
    case CallObserveSettlement(e) => e.record.observedAt
    case CallCloseAdmission => 0
  }

  predicate ReceiptEndsBy(g: GateState, now: U64) {
    g.receipt.Some? ==> EndsBy(g.receipt.value, now)
  }

  predicate CandidateEndsBy(c: Candidate, now: U64) {
    && AtMost(ReadinessRecord(c.idle), now) && AtMost(ReadinessRecord(c.worker), now)
    && AtMost(ReadinessRecord(c.sink), now) && AtMost(CapabilitiesRecord(c.capabilities), now)
  }

  predicate BindingEndsBy(g: GateState, now: U64) {
    && g.lastBindingControlAt <= now && AtMost(g.idle.record, now) && AtMost(g.worker.record, now)
    && AtMost(g.sink.record, now) && AtMost(CapabilitiesRecord(g.capabilities), now)
    && (g.candidate.Some? ==> CandidateEndsBy(g.candidate.value, now))
  }

  /** Nothing the gate remembers is later than `now`. */
  predicate GateEndsBy(g: GateState, now: U64) {
    ReceiptEndsBy(g, now) && BindingEndsBy(g, now)
  }

  /** The latest binding time is no later than a time exactly when nothing the gate remembers is. */
  lemma LatestIsLeast(g: GateState, now: U64)
    ensures LatestBindingTime(g) <= now <==> GateEndsBy(g, now)
  {
    hide EndsBy, LatestTime, LatestEffectTime;
    if g.receipt.Some? { LatestTimeIsLeast(g.receipt.value, now); }
    var live := LiveRecords(g);
    LatestOfIsLeast(LatestControlTime(g), live, now);
    assert live[0] == g.idle.record && live[1] == g.worker.record && live[2] == g.sink.record
           && live[3] == CapabilitiesRecord(g.capabilities);
    if g.candidate.Some? {
      var c := g.candidate.value;
      var records := CandidateRecords(c);
      LatestOfIsLeast(LatestLiveTime(g), records, now);
      assert records[0] == ReadinessRecord(c.idle) && records[1] == ReadinessRecord(c.worker)
             && records[2] == ReadinessRecord(c.sink) && records[3] == CapabilitiesRecord(c.capabilities);
    }
  }

  lemma FoldEndsBy(fact: ReadinessFact, e: BindingReadinessEvidence, now: U64)
    requires AtMost(ReadinessRecord(fact), now) && e.record.observedAt <= now
    ensures AtMost(ReadinessRecord(FoldReadiness(fact, e).0), now)
  {
  }

  lemma CandidateOfferEndsBy(c: Candidate, config: GateConfig, e: ExecutionCapabilities, now: U64)
    requires CandidateEndsBy(c, now) && e.record.observedAt <= now
    ensures CandidateEndsBy(ObserveCandidateCapabilities(c, config, e).0, now)
  {
  }

  lemma ReadinessEndsBy(g: GateState, e: BindingReadinessEvidence, now: U64)
    requires BindingEndsBy(g, now) && e.record.observedAt <= now
    ensures BindingEndsBy(ObserveReadiness(g, e).0, now)
  {
    hide FoldReadiness, IsReadinessFor;
    if g.candidate.Some? {
      FoldEndsBy(g.candidate.value.idle, e, now);
      FoldEndsBy(g.candidate.value.worker, e, now);
      FoldEndsBy(g.candidate.value.sink, e, now);
    }
  }

  lemma OfferEndsBy(g: GateState, e: ExecutionCapabilities, now: U64)
    requires BindingEndsBy(g, now) && e.record.observedAt <= now
    ensures BindingEndsBy(ObserveCapabilities(g, e).0, now)
  {
    hide ObserveCandidateCapabilities, IsWellFormed, AreUsable, SameOffer, CandidateEndsBy;
    if g.candidate.Some? { CandidateOfferEndsBy(g.candidate.value, g.config, e, now); }
  }

  lemma CommitEndsBy(g: GateState, expected: BindingIdentity, at: U64, now: U64)
    requires BindingEndsBy(g, now) && at <= now
    ensures BindingEndsBy(CommitRebind(g, expected, at).0, now)
  {
    hide LatestBindingTime, OldWorkClosed;
  }

  lemma PhaseChangeEndsBy(g: GateState, c: Call, now: U64)
    requires Callable(g) && (c.CallWithdraw? || c.CallBeginRebind?) && BindingEndsBy(g, now) && TimeOf(c) <= now
    ensures BindingEndsBy(Next(g, c), now)
  {
    hide LatestBindingTime, Revoke, IsReleasable, OldWorkClosed, ClosesOldScope;
  }

  lemma StartupEndsBy(g: GateState, e: StartupEvidence, now: U64)
    requires BindingEndsBy(g, now) && e.record.observedAt <= now
    ensures BindingEndsBy(GateSpec.ObserveStartup(g, e).0, now)
  {
    hide IsWellFormed, RoleOf, SourceOf, IsReady, CandidateEndsBy;
  }

  lemma ClosingEndsBy(g: GateState, now: U64)
    requires BindingEndsBy(g, now)
    ensures BindingEndsBy(CloseAdmission(g), now)
  {
    hide IsWellFormed;
  }

  lemma BindingCallEndsBy(g: GateState, c: Call, now: U64)
    requires Callable(g) && IsBindingCall(c) && BindingEndsBy(g, now) && TimeOf(c) <= now
    ensures BindingEndsBy(Next(g, c), now)
  {
    hide BindingEndsBy, ObserveStartup, ObserveReadiness, ObserveCapabilities, CommitRebind, GateSpec.WithdrawBinding,
         BeginRebind, GateSpec.Admit, GateSpec.ClaimDispatch, GateSpec.RequestCancel, GateSpec.ObserveTime,
         ObserveStopAcknowledgement, ObserveNonSubmission, ObserveNative, ObserveOutputAccepted,
         ObserveOutputNotDelivered, ObserveSettlement, CloseAdmission;
    match c
    case CallObserveReadiness(e) => ReadinessEndsBy(g, e, now);
    case CallObserveCapabilities(e) => OfferEndsBy(g, e, now);
    case CallCommit(b, at) => CommitEndsBy(g, b, at, now);
    case CallObserveStartup(e) => StartupEndsBy(g, e, now);
    case CallCloseAdmission => ClosingEndsBy(g, now);
    case _ => PhaseChangeEndsBy(g, c, now);
  }

  /** Calls about the operation leave the binding's records alone. */
  lemma OperationCallEndsBy(g: GateState, c: Call, now: U64)
    requires Callable(g) && !IsBindingCall(c) && BindingEndsBy(g, now)
    ensures BindingEndsBy(Next(g, c), now)
  {
    hide LatestTime, DispositionOf, RecordNative, ContradictsNative, IsWellFormed, NonDeliveryPrerequisite,
         MayDispatch, AdmissionRefusal, CanDeliverResult, Revoke, CandidateEndsBy, HasResolvedEffects;
  }

  /** A call made at a time leaves no later time behind. */
  lemma CallEndsBy(g: GateState, c: Call, now: U64)
    requires Inv(g) && GateEndsBy(g, now) && TimeOf(c) <= now
    ensures GateEndsBy(Asked(g, c), now)
  {
    hide Inv, Next, BindingEndsBy, ReceiptEndsBy, Callable;
    InvIsCallable(g);
    ReceiptCallEndsBy(g, c, now);
    if IsBindingCall(c) { BindingCallEndsBy(g, c, now); } else { OperationCallEndsBy(g, c, now); }
  }

  lemma ReceiptCallEndsBy(g: GateState, c: Call, now: U64)
    requires ReceiptEndsBy(g, now) && TimeOf(c) <= now
    ensures ReceiptEndsBy(Asked(g, c), now)
  {
    hide LatestBindingTime, LatestTime, LatestEffectTime, DispositionOf, ObserveNative, IsWellFormed,
         NonDeliveryPrerequisite, AdmissionRefusal, CanDeliverResult, HasResolvedEffects, OldWorkClosed,
         ClosesOldScope, CanCommit, IsReady;
    if Callable(g) {
      match c
      case CallObserveNative(e) => NativeEndsBy(g, e, now);
      case _ =>
    }
  }

  predicate NativeFactsEndBy(n: NativeFacts, now: U64) {
    && AtMost(n.accepted, now) && AtMost(n.rejected, now) && AtMost(n.started, now)
    && AtMost(n.succeeded, now) && AtMost(n.failed, now) && AtMost(n.cancelled, now)
  }

  lemma RecordedEndsBy(n: NativeFacts, e: NativeEvidence, now: U64)
    requires NativeFactsEndBy(n, now) && e.record.observedAt <= now
    ensures RecordNative(n, e).Some? ==> NativeFactsEndBy(RecordNative(n, e).value, now)
  {
    match e.kind
    case AcceptedEvent =>
    case RejectedEvent =>
    case _ =>
  }

  lemma NativeFactEndsBy(n: NativeFacts, e: NativeEvidence, now: U64)
    requires NativeFactsEndBy(n, now) && e.record.observedAt <= now
    ensures NativeFactsEndBy(AfterNative(n, e), now)
  {
    hide RecordNative, GateSpec.OutcomeOf;
    RecordedEndsBy(n, e, now);
  }

  lemma NativeEndsBy(g: GateState, e: NativeEvidence, now: U64)
    requires ReceiptEndsBy(g, now) && e.record.observedAt <= now && Callable(g)
    ensures ReceiptEndsBy(ObserveNative(g, e).0, now)
  {
    hide DispositionOf, AfterNative, RecordNative, ContradictsNative, IsWellFormed;
    if g.receipt.Some? {
      NativeFactEndsBy(g.receipt.value.native, e, now);
    }
  }

  lemma ConfigStays(g: GateState, h: GateState)
    requires Evolves(g, h)
    ensures h.config == g.config.(binding := h.config.binding)
  {
  }

  lemma ReceiptEndsByLater(r: OperationReceipt, now: U64, later: U64)
    requires EndsBy(r, now) && now <= later
    ensures EndsBy(r, later)
  {
    assert EffectsEndBy(r, later);
    assert ControlEndsBy(r.control, later);
  }

  lemma EndsByLater(g: GateState, now: U64, later: U64)
    requires GateEndsBy(g, now) && now <= later
    ensures GateEndsBy(g, later)
  {
    hide EndsBy;
    if g.receipt.Some? { ReceiptEndsByLater(g.receipt.value, now, later); }
  }

  /** A gate that remembers nothing of the future. */
  ghost predicate InTime(g: GateState, now: U64) {
    Inv(g) && GateEndsBy(g, now)
  }

  /** Every call made in time keeps the gate in time. */
  lemma CallStaysInTime(g: GateState, c: Call, now: U64)
    requires InTime(g, now) && TimeOf(c) <= now
    ensures InTime(Asked(g, c), now) && Callable(g)
    ensures Asked(g, c).config == g.config.(binding := Asked(g, c).config.binding)
  {
    hide Inv, GateEndsBy, Next, Evolves, TimeOf, Callable;
    CallKeeps(g, c);
    CallEndsBy(g, c, now);
    InvIsCallable(g);
    ConfigStays(g, Next(g, c));
  }

  // ---------- What calls leave alone ----------

  /** An event that tells how the work ended. */
  predicate IsEnd(kind: NativeEventKind) {
    kind == TerminalSucceeded || kind == TerminalFailed || kind == TerminalCancelled
  }

  /** Calls that neither admit, nor settle, nor accept output, nor report an end, nor begin a rebind. */
  predicate IsPlain(c: Call) {
    && !c.CallAdmit? && !c.CallObserveSettlement? && !c.CallObserveOutput? && !c.CallBeginRebind?
    && (c.CallObserveNative? ==> !IsEnd(c.native.kind))
  }

  predicate SameEnds(n: NativeFacts, m: NativeFacts) {
    m.succeeded == n.succeeded && m.failed == n.failed && m.cancelled == n.cancelled
  }

  /** What most calls leave as it is. */
  predicate SameWork(r: OperationReceipt, t: OperationReceipt) {
    && t.authority == r.authority && t.settlement == r.settlement && SameEnds(r.native, t.native)
    && (t.output.disposition == OutputAccepted <==> r.output.disposition == OutputAccepted)
    && (r.dispatch.status != DispatchPending ==> t.dispatch.status != DispatchPending)
  }

  lemma BindingCallEffects(g: GateState, c: Call)
    requires Callable(g) && IsBindingCall(c)
    ensures Next(g, c).receipt.Some? <==> g.receipt.Some?
    ensures g.receipt.Some? ==> SameWork(g.receipt.value, Next(g, c).receipt.value)
  {
    hide LatestBindingTime, LatestTime, LatestEffectTime, DispositionOf, IsWellFormed, CanCommit, ClosesOldScope,
         FoldReadiness, ObserveCandidateCapabilities;
  }

  lemma PlainEventEffects(n: NativeFacts, e: NativeEvidence)
    requires !IsEnd(e.kind)
    ensures SameEnds(n, AfterNative(n, e))
  {
  }

  /** An event about one end leaves the others as they are, and forgets none. */
  lemma EndEffects(g: GateState, e: NativeEvidence)
    requires Callable(g) && g.receipt.Some? && IsEnd(e.kind)
    ensures var h := ObserveNative(g, e).0;
      && h.receipt.Some?
      && var n, m := g.receipt.value.native, h.receipt.value.native;
         && (e.kind != TerminalSucceeded ==> m.succeeded == n.succeeded) && (n.succeeded.Some? ==> m.succeeded.Some?)
         && (e.kind != TerminalFailed ==> m.failed == n.failed) && (n.failed.Some? ==> m.failed.Some?)
         && (e.kind != TerminalCancelled ==> m.cancelled == n.cancelled) && (n.cancelled.Some? ==> m.cancelled.Some?)
  {
    hide DispositionOf, IsWellFormed, OutcomeOf;
  }

  lemma PlainCallEffects(g: GateState, c: Call)
    requires Callable(g) && IsPlain(c)
    ensures Next(g, c).receipt.Some? <==> g.receipt.Some?
    ensures g.receipt.Some? ==> SameWork(g.receipt.value, Next(g, c).receipt.value)
  {
    if IsBindingCall(c) { BindingCallEffects(g, c); }
    if c.CallObserveNative? && g.receipt.Some? { PlainEventEffects(g.receipt.value.native, c.native); }
    match c
    case CallClaimDispatch(_, _) =>
    case CallRequestCancel(_, _) =>
    case CallObserveTime(_, _) =>
    case CallObserveStop(_) =>
    case CallObserveNonSubmission(_) =>
    case CallObserveNative(_) =>
    case CallObserveNonDelivery(_) =>
    case _ =>
  }

  /** Only the beginning of a rebind prepares a candidate. */
  lemma OnlyBeginPrepares(g: GateState, c: Call)
    requires Callable(g) && !c.CallBeginRebind?
    ensures Next(g, c).phase == Preparing ==> g.phase == Preparing
  {
    hide LatestBindingTime, LatestTime, LatestEffectTime, DispositionOf, RecordNative, ContradictsNative,
         IsWellFormed, CanCommit, ObserveCandidateCapabilities, FoldReadiness, NonDeliveryPrerequisite, MayDispatch,
         AdmissionRefusal;
  }

  /** Settlement is all a settlement changes. */
  lemma SettlementEffects(g: GateState, e: SettlementEvidence)
    ensures g.receipt.None? ==> ObserveSettlement(g, e).0 == g
    ensures g.receipt.Some? ==>
              && ObserveSettlement(g, e).0.receipt.Some?
              && var t := ObserveSettlement(g, e).0.receipt.value;
                 && t.authority == g.receipt.value.authority && t.output == g.receipt.value.output
                 && t.dispatch == g.receipt.value.dispatch && t.native == g.receipt.value.native
                 && (g.receipt.value.settlement.Some? ==> t.settlement == g.receipt.value.settlement)
  {
    hide DispositionOf, HasResolvedEffects, FollowsSameSource, LatestEffectTime, IsWellFormed;
  }

  lemma AdmissionEffects(g: GateState, q: OperationRequest)
    ensures Admit(g, q).1.authority.None? ==> Admit(g, q).0 == g
    ensures Admit(g, q).1.authority.Some? ==>
              && (g.receipt.Some? ==> g.receipt.value.disposition == Released && g.receipt.value.settlement.Some?)
              && Admit(g, q).0.receipt == Some(NewReceipt(Admit(g, q).1.authority.value, q))
              && Admit(g, q).1.authority.value.admittedAt == q.requestedAt
              && Admit(g, q).0.phase == Active
  {
    hide HasResolvedEffects, SupportsExecution, LatestTime;
  }

  /** Output is accepted, or refused, and nothing else. */
  lemma OutputEffects(g: GateState, e: OutputEvidence)
    ensures g.receipt.None? ==> ObserveOutputAccepted(g, e) == (g, Rejected)
    ensures g.receipt.Some? ==>
              && ObserveOutputAccepted(g, e).0.receipt.Some?
              && var t := ObserveOutputAccepted(g, e).0.receipt.value;
                 && t.authority == g.receipt.value.authority && t.settlement == g.receipt.value.settlement
                 && t.dispatch == g.receipt.value.dispatch && t.native == g.receipt.value.native
                 && (ObserveOutputAccepted(g, e).1 != Rejected ==> t.output.disposition == OutputAccepted)
  {
    hide DispositionOf, CanDeliverResult, IsWellFormed, HasReachedDeadline;
  }

  /** What a native report may change. */
  lemma NativeEffects(g: GateState, e: NativeEvidence)
    requires Callable(g)
    ensures g.receipt.None? ==> ObserveNative(g, e).0.receipt.None?
    ensures g.receipt.Some? ==>
              && ObserveNative(g, e).0.receipt.Some?
              && var t := ObserveNative(g, e).0.receipt.value;
                 && t.authority == g.receipt.value.authority && t.settlement == g.receipt.value.settlement
                 && t.dispatch == g.receipt.value.dispatch && t.output == g.receipt.value.output
  {
    hide DispositionOf, AfterNative, RecordNative, ContradictsNative, IsWellFormed;
  }

  lemma SettledIsNotPending(g: GateState)
    requires Inv(g) && g.receipt.Some? && g.receipt.value.dispatch.status == DispatchPending
    ensures g.receipt.value.settlement.None?
  {
  }

  lemma BeginEffects(g: GateState, expected: BindingIdentity, provider: string, e: BindingReadinessEvidence, now: U64)
    requires Callable(g)
    ensures var (h, d) := BeginRebind(g, expected, provider, e, now);
      && h.receipt == g.receipt && h.config == g.config
      && (d.status != Applied ==> h == g)
      && (d.status == Applied ==>
            && g.generationHighWater < MAX_U64 && h.phase == Preparing && h.candidate.Some?
            && d.candidate == Some(h.candidate.value.binding) && h.candidate.value.binding == NextBinding(g, provider))
  {
    hide LatestBindingTime, OldWorkClosed, ClosesOldScope;
  }

  lemma OfferEffects(g: GateState, c: Call)
    requires Callable(g) && g.phase == Preparing && g.candidate.Some?
    requires c.CallObserveReadiness? || (c.CallObserveCapabilities? && c.offered.binding == g.candidate.value.binding)
    ensures var h := Next(g, c);
      && h.phase == Preparing && h.candidate.Some? && h.candidate.value.binding == g.candidate.value.binding
      && h.receipt == g.receipt && h.config == g.config
  {
    hide IsWellFormed, FoldReadiness, IsReadinessFor;
  }

  lemma CommitEffects(g: GateState, b: BindingIdentity, now: U64)
    requires g.candidate.Some? && g.candidate.value.binding == b
    ensures var (h, d) := CommitRebind(g, b, now);
      && h.receipt == g.receipt
      && (d.status != Applied ==> h == g)
      && (d.status == Applied ==> h.phase == Active && h.config.binding == b)
  {
    hide LatestBindingTime, CanCommit, OldWorkClosed;
  }

  lemma ReleasedIsSettled(g: GateState)
    requires Inv(g) && g.receipt.Some? && g.receipt.value.disposition == Released
    ensures g.receipt.value.settlement.Some?
  {
    hide HasResolvedEffects;
  }

  lemma AcceptedMeansSucceeded(g: GateState)
    requires Inv(g) && g.receipt.Some? && g.receipt.value.output.disposition == OutputAccepted
    ensures g.receipt.value.native.succeeded.Some?
  {
  }

  // ---------- Delivering in time ----------

  lemma PendingOutputIsNotReleased(g: GateState)
    requires Inv(g) && g.receipt.Some? && g.receipt.value.output.disposition == OutputPending
    ensures g.receipt.value.disposition != Released
  {
  }

  lemma TimeEffects(g: GateState, a: OperationAuthority, at: U64)
    requires IsCurrent(g, a) && g.receipt.value.disposition != Released && at >= LatestTime(g.receipt.value)
    ensures var r := ObserveTime(g, a, at).0.receipt;
      && r.Some? && r.value.deadline == g.receipt.value.deadline && r.value.output == g.receipt.value.output
      && (HasReachedDeadline(r.value, at) ==> IsRevoked(r.value.control))
  {
    hide LatestTime, DispositionOf;
  }

  /** Once the deadline has been looked at, what may still be delivered is not late. */
  lemma DeliverableIsInTime(g: GateState, a: OperationAuthority, now: U64)
    requires InTime(g, now) && CanDeliverResult(ObserveTime(g, a, now).0, a)
    ensures !HasReachedDeadline(ObserveTime(g, a, now).0.receipt.value, now)
  {
    hide Inv, LatestTime;
    var h := ObserveTime(g, a, now).0;
    if IsCurrent(g, a) && g.receipt.value.output.disposition == OutputPending {
      PendingOutputIsNotReleased(g);
      LatestTimeIsLeast(g.receipt.value, now);
      TimeEffects(g, a, now);
    } else if IsCurrent(g, a) {
      TimeKeepsOutput(g, a, now);
    }
  }

  lemma TimeKeepsOutput(g: GateState, a: OperationAuthority, at: U64)
    requires IsCurrent(g, a)
    ensures var r := ObserveTime(g, a, at).0.receipt; r.Some? && r.value.output == g.receipt.value.output
  {
    hide LatestTime, DispositionOf;
  }

  lemma SuccessWasRecorded(g: GateState)
    requires Inv(g) && g.receipt.Some? && g.receipt.value.native.outcome == NativeOutcome.Succeeded
    ensures g.receipt.value.native.succeeded.Some?
  {
  }

  /** Deliverable output, offered in time under a fresh number, is accepted, and only so. */
  lemma OfferIsAccepted(g: GateState, e: OutputEvidence, now: U64)
    requires InTime(g, now) && CanDeliverResult(g, e.authority) && !HasReachedDeadline(g.receipt.value, now)
    requires e.resultReference != "" && e.record.source == g.config.resultSinkObserver != ""
             && e.record.observedAt == now
    ensures var h := ObserveOutputAccepted(g, e).0;
      h.receipt.Some? && (h.receipt.value.output.disposition == OutputAccepted <==> e.record.sequence != 0)
  {
    hide Inv, DispositionOf;
    SuccessWasRecorded(g);
  }

  lemma TimeKeepsAcceptance(g: GateState, a: OperationAuthority, at: U64)
    ensures var h := ObserveTime(g, a, at).0;
      && (h.receipt.Some? <==> g.receipt.Some?)
      && (g.receipt.Some? ==> h.receipt.value.output == g.receipt.value.output)
  {
    hide LatestTime, DispositionOf;
  }
}
