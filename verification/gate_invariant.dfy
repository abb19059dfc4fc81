/**
 What every call of the gate keeps (`Inv`) and how far one state may move from another
 (`Evolves`). Both are proved call by call and used by every theorem about runs.
 */
module GateInvariant {
  import opened Machine
  import opened GateTypes
  import opened GateSpec

  // ---------- Latest times ----------

  predicate AtMost(record: Option<EvidenceRecord>, time: U64) {
    record.Some? ==> record.value.observedAt <= time
  }

  predicate TimeAtMost(recorded: Option<U64>, time: U64) {
    recorded.Some? ==> recorded.value <= time
  }

  /** `LatestOf` is the least upper bound of what it is given. */
  lemma {:induction false} LatestOfIsLeast(time: U64, records: seq<Option<EvidenceRecord>>, bound: U64)
    ensures LatestOf(time, records) <= bound <==>
            time <= bound && forall i :: 0 <= i < |records| ==> AtMost(records[i], bound)
    decreases |records|
  {
    if records == [] {
    } else {
      LatestOfIsLeast(Later(time, records[0]), records[1..], bound);
      assert forall i :: 1 <= i < |records| ==> records[i] == records[1..][i - 1];
    }
  }

  lemma {:induction false} LatestOfIsMonotone(a: U64, b: U64, records: seq<Option<EvidenceRecord>>)
    requires a <= b
    ensures LatestOf(a, records) <= LatestOf(b, records)
    decreases |records|
  {
    if records == [] {
    } else {
      LatestOfIsMonotone(Later(a, records[0]), Later(b, records[0]), records[1..]);
    }
  }

  predicate NotEarlier(before: Option<EvidenceRecord>, after: Option<EvidenceRecord>) {
    before.Some? ==> after.Some? && before.value.observedAt <= after.value.observedAt
  }

  lemma LatestOfIsPointwise(a: U64, b: U64, before: seq<Option<EvidenceRecord>>, after: seq<Option<EvidenceRecord>>)
    requires a <= b && |before| == |after|
    requires forall i :: 0 <= i < |before| ==> NotEarlier(before[i], after[i])
    ensures LatestOf(a, before) <= LatestOf(b, after)
  {
    var bound := LatestOf(b, after);
    LatestOfIsLeast(b, after, bound);
    assert forall i :: 0 <= i < |before| ==> NotEarlier(before[i], after[i]) ==> AtMost(before[i], bound);
    LatestOfIsLeast(a, before, bound);
  }

  predicate EffectsEndBy(r: OperationReceipt, time: U64) {
    && r.authority.admittedAt <= time && TimeAtMost(r.dispatch.at, time) && AtMost(r.dispatch.notSubmitted, time)
    && AtMost(r.native.accepted, time) && AtMost(r.native.rejected, time) && AtMost(r.native.started, time)
    && AtMost(r.native.succeeded, time) && AtMost(r.native.failed, time) && AtMost(r.native.cancelled, time)
    && AtMost(r.output.delivered, time) && AtMost(r.output.notDelivered, time) && AtMost(r.settlement, time)
  }

  predicate ControlEndsBy(c: ControlFacts, time: U64) {
    && AtMost(c.stop, time) && TimeAtMost(c.cancelledAt, time) && TimeAtMost(c.expiredAt, time)
    && TimeAtMost(c.withdrawnAt, time)
  }

  /** No timestamp of the receipt is later than `time`. */
  predicate EndsBy(r: OperationReceipt, time: U64) {
    EffectsEndBy(r, time) && ControlEndsBy(r.control, time)
  }

  lemma LatestEffectTimeIsLeast(r: OperationReceipt, bound: U64)
    ensures LatestEffectTime(r) <= bound <==> EffectsEndBy(r, bound)
  {
    var records := EffectRecords(r);
    LatestOfIsLeast(MaxOpt(r.authority.admittedAt, r.dispatch.at), records, bound);
    assert
      && records[0] == r.native.accepted && records[1] == r.native.rejected && records[2] == r.native.started
      && records[3] == r.native.succeeded && records[4] == r.native.failed && records[5] == r.output.delivered
      && records[6] == r.dispatch.notSubmitted && records[7] == r.output.notDelivered
      && records[8] == r.settlement && records[9] == r.native.cancelled && |records| == 10;
  }

  lemma LatestTimeIsLeast(r: OperationReceipt, bound: U64)
    ensures LatestTime(r) <= bound <==> EndsBy(r, bound)
  {
    LatestEffectTimeIsLeast(r, bound);
  }

  lemma AdmissionPrecedesLatest(r: OperationReceipt)
    ensures r.authority.admittedAt <= LatestEffectTime(r) <= LatestTime(r)
  {
    LatestEffectTimeIsLeast(r, LatestEffectTime(r));
  }

  // ---------- Receipts ----------

  predicate AtLeast(record: Option<EvidenceRecord>, time: U64) {
    record.Some? ==> record.value.observedAt >= time
  }

  predicate TimeAtLeast(recorded: Option<U64>, time: U64) {
    recorded.Some? ==> recorded.value >= time
  }

  predicate DispatchStartsAt(d: DispatchFacts, t: U64) {
    TimeAtLeast(d.at, t) && AtLeast(d.notSubmitted, t)
  }

  predicate NativeStartsAt(n: NativeFacts, t: U64) {
    && AtLeast(n.accepted, t) && AtLeast(n.rejected, t) && AtLeast(n.started, t)
    && AtLeast(n.succeeded, t) && AtLeast(n.failed, t) && AtLeast(n.cancelled, t)
  }

  predicate OutputStartsAt(o: OutputFacts, t: U64) {
    AtLeast(o.delivered, t) && AtLeast(o.notDelivered, t)
  }

  predicate ControlStartsAt(c: ControlFacts, t: U64) {
    && TimeAtLeast(c.cancelledAt, t) && TimeAtLeast(c.expiredAt, t) && TimeAtLeast(c.withdrawnAt, t)
    && TimeAtLeast(c.stopRequestedAt, t) && AtLeast(c.stop, t)
  }

  /** No timestamp of the receipt is earlier than its admission. */
  predicate StartsAtAdmission(r: OperationReceipt) {
    var t := r.authority.admittedAt;
    && DispatchStartsAt(r.dispatch, t) && NativeStartsAt(r.native, t) && OutputStartsAt(r.output, t)
    && ControlStartsAt(r.control, t) && AtLeast(r.settlement, t)
  }

  predicate Precedes(time: Option<U64>, deadline: U64) {
    time.Some? ==> time.value < deadline
  }

  predicate RecordPrecedes(record: Option<EvidenceRecord>, deadline: U64) {
    record.Some? ==> record.value.observedAt < deadline
  }

  /** Dispatch and accepted output lie strictly before the deadline; expiry lies on or after it. */
  predicate RespectsDeadline(r: OperationReceipt) {
    && (r.deadline.Some? ==>
          && r.authority.admittedAt < r.deadline.value
          && Precedes(r.dispatch.at, r.deadline.value) && RecordPrecedes(r.output.delivered, r.deadline.value))
    && (r.control.expiredAt.Some? ==> r.deadline.Some? && r.control.expiredAt.value >= r.deadline.value)
  }

  /** A native stop is asked for once, at the time of one of the revocations. */
  predicate StopsAtRevocation(c: ControlFacts) {
    && (c.stopRequestedAt.Some? ==>
          || c.stopRequestedAt == c.cancelledAt || c.stopRequestedAt == c.expiredAt
          || c.stopRequestedAt == c.withdrawnAt)
    && (c.stopRequestedAt.None? <==> c.stopAcknowledgement == NotRequested)
    && (c.stop.Some? ==> c.stopRequestedAt.Some?)
  }

  predicate DispatchIsConsistent(d: DispatchFacts) {
    && (d.status == Submitted ==> d.at.Some?)
    && (d.status == DispatchPending ==> d.at.None?)
    && (d.status == NotSubmitted <==> d.notSubmitted.Some?)
  }

  predicate NativeIsConsistent(d: DispatchStatus, n: NativeFacts) {
    && (n.acceptance == NativelyAccepted <==> n.accepted.Some?)
    && (n.acceptance == NativelyRejected <==> n.rejected.Some?)
    && (n.acceptance == AcceptancePending <==> n.identity == "")
    && (d != Submitted ==> n.acceptance == AcceptancePending)
    && (n.acceptance != NativelyAccepted ==> n.started.None? && TerminalCount(n) == 0)
    && (TerminalCount(n) > 0 ==> n.outcome == OutcomeOf(n))
    && (TerminalCount(n) == 0 ==>
          n.outcome == if d == NotSubmitted || n.acceptance == NativelyRejected then NotExecuted else OutcomePending)
  }

  predicate OutputIsConsistent(d: DispatchStatus, n: NativeFacts, o: OutputFacts) {
    && (o.disposition == OutputAccepted <==> o.delivered.Some?)
    && (o.disposition == NotDelivered <==> o.notDelivered.Some?)
    && (o.disposition == NotDelivered <==> o.reason.Some?)
    && (o.disposition == OutputAccepted ==> n.succeeded.Some? && o.reference != "")
    && (o.disposition == NotDelivered ==>
          d == NotSubmitted || n.acceptance == NativelyRejected || TerminalCount(n) > 0)
  }

  predicate ReceiptValid(r: OperationReceipt) {
    && r.disposition == DispositionOf(r)
    && StartsAtAdmission(r) && RespectsDeadline(r) && StopsAtRevocation(r.control)
    && (r.control.stopRequestedAt.Some? ==> r.dispatch.at.Some?)
    && DispatchIsConsistent(r.dispatch) && NativeIsConsistent(r.dispatch.status, r.native)
    && OutputIsConsistent(r.dispatch.status, r.native, r.output)
    && (r.settlement.Some? ==> r.output.disposition != OutputPending)
  }

  // ---------- The whole gate ----------

  predicate SameScope(a: BindingIdentity, b: BindingIdentity) {
    a.effectDomain == b.effectDomain && a.compositionRevision == b.compositionRevision
  }

  predicate FactIsValid(fact: StartupFact) {
    fact.observed <==> fact.record.Some?
  }

  predicate ReadinessIsValid(fact: ReadinessFact, preparedAt: U64) {
    && (fact.conflicted ==> fact.evidence.Some?)
    && (fact.evidence.Some? ==> fact.evidence.value.record.observedAt >= preparedAt)
  }

  predicate CandidateFactsValid(c: Candidate) {
    && ReadinessIsValid(c.idle, c.preparedAt) && ReadinessIsValid(c.worker, c.preparedAt)
    && ReadinessIsValid(c.sink, c.preparedAt) && (c.capabilitiesConflicted ==> c.capabilities.Some?)
  }

  predicate CandidateIsValid(s: GateState, c: Candidate) {
    && SameScope(c.binding, s.config.binding)
    && c.binding.providerId != ""
    && s.config.binding.providerGeneration < s.generationHighWater == c.binding.providerGeneration
    && c.preparedAt == s.lastBindingControlAt
    && CandidateFactsValid(c)
  }

  predicate ReceiptIsOwned(s: GateState, r: OperationReceipt) {
    && r.authority.operationId != 0
    && (s.nextOperationId == 0 || r.authority.operationId < s.nextOperationId)
    && (r.authority.binding == s.config.binding
        || r.authority.binding.providerGeneration < s.config.binding.providerGeneration)
    && (r.authority.binding != s.config.binding ==> r.disposition == Released)
    && (r.control.withdrawnAt.Some? && r.authority.binding == s.config.binding ==> s.phase != Active)
  }

  predicate PhaseIsConsistent(s: GateState) {
    && (s.phase == Closed <==> s.initialization == InitializationClosed)
    && (s.phase != Active ==> s.initialization != Ready)
    && (s.initialization == Ready ==> IsReady(s))
    && (s.phase == Preparing <==> s.candidate.Some?)
    && (s.phase == Preparing ==> s.withdrawnAt.Some?)
  }

  ghost predicate Inv(s: GateState) {
    && s.config.Valid()
    && Callable(s)
    && FactIsValid(s.idle) && FactIsValid(s.worker) && FactIsValid(s.sink)
    && s.config.binding.providerGeneration <= s.generationHighWater
    && PhaseIsConsistent(s)
    && (s.candidate.Some? ==> CandidateIsValid(s, s.candidate.value))
    && (s.receipt.Some? ==> ReceiptValid(s.receipt.value) && ReceiptIsOwned(s, s.receipt.value))
    && (s.receipt.None? ==> s.nextOperationId == 1)
  }

  lemma InvIsCallable(s: GateState)
    requires Inv(s)
    ensures Callable(s)
  {
  }

  // ---------- How one state may follow another ----------

  predicate Kept<T(==)>(before: Option<T>, after: Option<T>) {
    before.Some? ==> after == before
  }

  predicate DispatchGrows(d: DispatchFacts, e: DispatchFacts) {
    && Kept(d.at, e.at) && Kept(d.notSubmitted, e.notSubmitted)
    && (d.status != DispatchPending ==> e.status != DispatchPending)
  }

  predicate NativeGrows(n: NativeFacts, m: NativeFacts) {
    && Kept(n.accepted, m.accepted) && Kept(n.rejected, m.rejected) && Kept(n.started, m.started)
    && Kept(n.succeeded, m.succeeded) && Kept(n.failed, m.failed) && Kept(n.cancelled, m.cancelled)
    && (n.outcome == Unknown ==> m.outcome == Unknown)
  }

  predicate OutputGrows(o: OutputFacts, p: OutputFacts) {
    && Kept(o.delivered, p.delivered) && Kept(o.notDelivered, p.notDelivered)
    && (o.disposition != OutputPending ==> p == o)
  }

  predicate ControlGrows(c: ControlFacts, d: ControlFacts) {
    && Kept(c.cancelledAt, d.cancelledAt) && Kept(c.expiredAt, d.expiredAt) && Kept(c.withdrawnAt, d.withdrawnAt)
    && Kept(c.stopRequestedAt, d.stopRequestedAt) && Kept(c.stop, d.stop)
  }

  /** What revocation forbids from then on. */
  predicate RevocationHolds(r: OperationReceipt, t: OperationReceipt) {
    IsRevoked(r.control) ==>
      && (r.dispatch.at.None? ==> t.dispatch.at.None?)
      && (r.output.disposition == OutputPending ==> t.output.disposition != OutputAccepted)
  }

  predicate DispositionHolds(r: OperationReceipt, t: OperationReceipt) {
    && (r.disposition == BlockedUnknown ==> t.disposition == BlockedUnknown)
    && (r.disposition == Released ==> t.disposition == Released || t.disposition == BlockedUnknown)
  }

  /** The later receipt of the same operation. */
  predicate Grows(r: OperationReceipt, t: OperationReceipt) {
    && t.authority == r.authority && t.deadline == r.deadline && t.requirements == r.requirements
    && DispatchGrows(r.dispatch, t.dispatch) && NativeGrows(r.native, t.native)
    && OutputGrows(r.output, t.output) && ControlGrows(r.control, t.control) && Kept(r.settlement, t.settlement)
    && RevocationHolds(r, t) && DispositionHolds(r, t)
  }

  /** The same operation further on, or a later operation admitted after everything on this one. */
  predicate Succeeds(r: OperationReceipt, t: OperationReceipt) {
    || (r.authority.operationId == t.authority.operationId && Grows(r, t))
    || (r.authority.operationId < t.authority.operationId && r.disposition != BlockedUnknown
        && LatestTime(r) <= t.authority.admittedAt)
  }

  predicate IdsAdvance(before: U64, after: U64) {
    before == after || (before != 0 && (after == 0 || before < after))
  }

  /** The receipt is the same operation's while no identity is consumed, and a later one's afterwards. */
  predicate ReceiptAdvances(s: GateState, t: GateState) {
    && IdsAdvance(s.nextOperationId, t.nextOperationId)
    && (s.receipt.Some? ==> t.receipt.Some? && Succeeds(s.receipt.value, t.receipt.value))
    && (s.nextOperationId != t.nextOperationId ==>
          t.receipt.Some? && s.nextOperationId <= t.receipt.value.authority.operationId)
    && (s.nextOperationId == t.nextOperationId && s.receipt.Some? ==>
          s.receipt.value.authority == t.receipt.value.authority)
  }

  predicate BindingAdvances(s: GateState, t: GateState) {
    && t.config == s.config.(binding := t.config.binding)
    && SameScope(s.config.binding, t.config.binding)
    && (s.config.binding == t.config.binding
        || s.config.binding.providerGeneration < t.config.binding.providerGeneration)
    && s.generationHighWater <= t.generationHighWater
    && s.lastBindingControlAt <= t.lastBindingControlAt
    && (s.phase == Closed ==> t.phase == Closed)
  }

  ghost predicate Evolves(s: GateState, t: GateState) {
    && BindingAdvances(s, t)
    && ReceiptAdvances(s, t)
    && (t.phase != Closed ==> LatestBindingTime(s) <= LatestBindingTime(t))
  }

  lemma EvolvesIsReflexive(s: GateState)
    ensures Evolves(s, s)
  {
  }

  lemma GrowthKeepsTime(r: OperationReceipt, t: OperationReceipt)
    requires Grows(r, t)
    ensures LatestEffectTime(r) <= LatestEffectTime(t)
    ensures LatestTime(r) <= LatestTime(t)
  {
    LatestEffectTimeIsLeast(t, LatestEffectTime(t));
    LatestEffectTimeIsLeast(r, LatestEffectTime(t));
    LatestTimeIsLeast(t, LatestTime(t));
    LatestTimeIsLeast(r, LatestTime(t));
  }

  lemma GrowthIsTransitive(r: OperationReceipt, t: OperationReceipt, u: OperationReceipt)
    requires Grows(r, t) && Grows(t, u)
    ensures Grows(r, u)
  {
  }

  lemma SuccessionIsTransitive(r: OperationReceipt, t: OperationReceipt, u: OperationReceipt)
    requires Succeeds(r, t) && Succeeds(t, u)
    ensures Succeeds(r, u)
  {
    AdmissionPrecedesLatest(t);
    if Grows(r, t) {
      GrowthKeepsTime(r, t);
      if Grows(t, u) { GrowthIsTransitive(r, t, u); }
    }
  }

  lemma EvolvesIsTransitive(s: GateState, t: GateState, u: GateState)
    requires Evolves(s, t) && Evolves(t, u)
    ensures Evolves(s, u)
  {
    if s.receipt.Some? { SuccessionIsTransitive(s.receipt.value, t.receipt.value, u.receipt.value); }
  }

  // ---------- Calls about the current operation ----------

  /** A call that leaves the binding alone and grows the receipt of the active binding. */
  predicate GrowsReceipt(s: GateState, t: GateState) {
    && s.receipt.Some? && t.receipt.Some? && Grows(s.receipt.value, t.receipt.value)
    && t == s.(receipt := t.receipt, lastNativeRecord := t.lastNativeRecord, lastNativeKind := t.lastNativeKind)
  }

  lemma GrowthEvolves(s: GateState, t: GateState)
    requires GrowsReceipt(s, t)
    ensures Evolves(s, t)
  {
    GrowthKeepsTime(s.receipt.value, t.receipt.value);
    LatestOfIsMonotone(LatestControlTime(s), LatestControlTime(t), LiveRecords(s));
    if s.candidate.Some? {
      LatestOfIsMonotone(LatestLiveTime(s), LatestLiveTime(t), CandidateRecords(s.candidate.value));
    }
  }

  lemma GrowthIsValid(s: GateState, t: GateState)
    requires Inv(s) && GrowsReceipt(s, t) && s.receipt.value.authority.binding == s.config.binding
    requires ReceiptValid(t.receipt.value)
    requires t.receipt.value.control.withdrawnAt == s.receipt.value.control.withdrawnAt
    requires t.lastNativeRecord.Some? ==> t.lastNativeKind.Some?
    ensures Inv(t)
  {
  }

  predicate Marks(r: OperationReceipt, marked: ControlFacts, now: U64) {
    var c := r.control;
    || (c.cancelledAt.None? && marked == c.(cancelledAt := Some(now)))
    || (c.expiredAt.None? && HasReachedDeadline(r, now) && marked == c.(expiredAt := Some(now)))
    || (c.withdrawnAt.None? && marked == c.(withdrawnAt := Some(now)))
  }

  lemma RevocationIsValid(r: OperationReceipt, marked: ControlFacts, now: U64)
    requires ReceiptValid(r) && Marks(r, marked, now) && now >= r.authority.admittedAt
    ensures ReceiptValid(Revoke(r, marked, now))
  {
  }

  lemma RevocationGrows(r: OperationReceipt, marked: ControlFacts, now: U64)
    requires Marks(r, marked, now) && r.disposition == DispositionOf(r)
    ensures Grows(r, Revoke(r, marked, now))
    ensures Revoke(r, marked, now).control.withdrawnAt == marked.withdrawnAt
  {
  }

  lemma RevocationKeeps(s: GateState, t: GateState, marked: ControlFacts, now: U64)
    requires Inv(s) && s.receipt.Some? && s.receipt.value.authority.binding == s.config.binding
    requires Marks(s.receipt.value, marked, now) && now >= LatestTime(s.receipt.value)
    requires marked.withdrawnAt == s.receipt.value.control.withdrawnAt
    requires t == s.(receipt := Some(Revoke(s.receipt.value, marked, now)))
    ensures Inv(t) && Evolves(s, t)
  {
    AdmissionPrecedesLatest(s.receipt.value);
    RevocationIsValid(s.receipt.value, marked, now);
    RevocationGrows(s.receipt.value, marked, now);
    GrowthIsValid(s, t);
    GrowthEvolves(s, t);
  }

  lemma CancelKeeps(s: GateState, a: OperationAuthority, at: U64)
    requires Inv(s)
    ensures Inv(RequestCancel(s, a, at).0) && Evolves(s, RequestCancel(s, a, at).0)
  {
    var t := RequestCancel(s, a, at).0;
    if t == s {
      EvolvesIsReflexive(s);
    } else {
      RevocationKeeps(s, t, s.receipt.value.control.(cancelledAt := Some(at)), at);
    }
  }

  lemma TimeKeeps(s: GateState, a: OperationAuthority, at: U64)
    requires Inv(s)
    ensures Inv(ObserveTime(s, a, at).0) && Evolves(s, ObserveTime(s, a, at).0)
  {
    var t := ObserveTime(s, a, at).0;
    if t == s {
      EvolvesIsReflexive(s);
    } else {
      RevocationKeeps(s, t, s.receipt.value.control.(expiredAt := Some(at)), at);
    }
  }

  lemma StopKeeps(s: GateState, e: StopAcknowledgementEvidence)
    requires Inv(s)
    ensures Inv(ObserveStopAcknowledgement(s, e).0) && Evolves(s, ObserveStopAcknowledgement(s, e).0)
  {
    var t := ObserveStopAcknowledgement(s, e).0;
    if t == s {
      EvolvesIsReflexive(s);
    } else {
      GrowthIsValid(s, t);
      GrowthEvolves(s, t);
    }
  }

  lemma DispatchKeeps(s: GateState, a: OperationAuthority, at: U64)
    requires Inv(s)
    ensures Inv(ClaimDispatch(s, a, at).0) && Evolves(s, ClaimDispatch(s, a, at).0)
  {
    var t := ClaimDispatch(s, a, at).0;
    if t == s {
      EvolvesIsReflexive(s);
    } else {
      GrowthIsValid(s, t);
      GrowthEvolves(s, t);
    }
  }

  lemma NonSubmissionKeeps(s: GateState, e: NonSubmissionEvidence)
    requires Inv(s)
    ensures Inv(ObserveNonSubmission(s, e).0) && Evolves(s, ObserveNonSubmission(s, e).0)
  {
    var t := ObserveNonSubmission(s, e).0;
    if t == s {
      EvolvesIsReflexive(s);
    } else {
      GrowthIsValid(s, t);
      GrowthEvolves(s, t);
    }
  }

  lemma NativeFactsGrow(n: NativeFacts, e: NativeEvidence, admittedAt: U64)
    requires NativeIsConsistent(Submitted, n) && NativeStartsAt(n, admittedAt)
    requires e.record.observedAt >= admittedAt && e.nativeIdentity != "" && !ContradictsNative(n, e)
    ensures var m := AfterNative(n, e);
      && NativeIsConsistent(Submitted, m) && NativeStartsAt(m, admittedAt) && NativeGrows(n, m)
      && TerminalCount(m) >= TerminalCount(n)
      && (n.acceptance != AcceptancePending ==> m.acceptance == n.acceptance)
      && (TerminalCount(n) > 0 ==> m.outcome == n.outcome || m.outcome == Unknown)
      && (n.acceptance == NativelyRejected ==> m.outcome == n.outcome)
  {
  }

  lemma NativeReceiptGrows(r: OperationReceipt, e: NativeEvidence)
    requires ReceiptValid(r) && r.dispatch.status == Submitted
    requires e.record.observedAt >= r.dispatch.at.value && e.nativeIdentity != "" && !ContradictsNative(r.native, e)
    ensures var t := Refresh(r.(native := AfterNative(r.native, e)));
      ReceiptValid(t) && Grows(r, t)
  {
    NativeFactsGrow(r.native, e, r.authority.admittedAt);
  }

  lemma NativeKeeps(s: GateState, e: NativeEvidence)
    requires Inv(s)
    ensures Inv(ObserveNative(s, e).0) && Evolves(s, ObserveNative(s, e).0)
  {
    var t := ObserveNative(s, e).0;
    if t != s { NativeReceiptGrows(s.receipt.value, e); }
    if t == s {
      EvolvesIsReflexive(s);
    } else {
      GrowthIsValid(s, t);
      GrowthEvolves(s, t);
    }
  }

  lemma OutputKeeps(s: GateState, e: OutputEvidence)
    requires Inv(s)
    ensures Inv(ObserveOutputAccepted(s, e).0) && Evolves(s, ObserveOutputAccepted(s, e).0)
  {
    var t := ObserveOutputAccepted(s, e).0;
    if t == s {
      EvolvesIsReflexive(s);
    } else {
      GrowthIsValid(s, t);
      GrowthEvolves(s, t);
    }
  }

  lemma NonDeliveryKeeps(s: GateState, e: NonDeliveryEvidence)
    requires Inv(s)
    ensures Inv(ObserveOutputNotDelivered(s, e).0) && Evolves(s, ObserveOutputNotDelivered(s, e).0)
  {
    var t := ObserveOutputNotDelivered(s, e).0;
    if t == s {
      EvolvesIsReflexive(s);
    } else {
      GrowthIsValid(s, t);
      GrowthEvolves(s, t);
    }
  }

  lemma SettlementKeeps(s: GateState, e: SettlementEvidence)
    requires Inv(s)
    ensures Inv(ObserveSettlement(s, e).0) && Evolves(s, ObserveSettlement(s, e).0)
  {
    var t := ObserveSettlement(s, e).0;
    if t == s {
      EvolvesIsReflexive(s);
    } else {
      GrowthIsValid(s, t);
      GrowthEvolves(s, t);
    }
  }

  // ---------- Calls about the binding ----------

  lemma LatestBindingTimeIsLatest(s: GateState)
    ensures s.lastBindingControlAt <= LatestControlTime(s) <= LatestLiveTime(s) <= LatestBindingTime(s)
  {
    LatestOfIsLeast(LatestControlTime(s), LiveRecords(s), LatestLiveTime(s));
    if s.candidate.Some? {
      LatestOfIsLeast(LatestLiveTime(s), CandidateRecords(s.candidate.value), LatestBindingTime(s));
    }
  }

  lemma LatestControlTimeCoversReceipt(s: GateState)
    requires s.receipt.Some?
    ensures LatestTime(s.receipt.value) <= LatestControlTime(s)
  {
  }

  /** What is live only moves forward, the candidate's own evidence included. */
  lemma LatestBindingTimeAdvances(s: GateState, t: GateState)
    requires s.receipt == t.receipt && s.lastBindingControlAt == t.lastBindingControlAt
    requires NotEarlier(s.idle.record, t.idle.record) && NotEarlier(s.worker.record, t.worker.record)
    requires NotEarlier(s.sink.record, t.sink.record)
    requires NotEarlier(CapabilitiesRecord(s.capabilities), CapabilitiesRecord(t.capabilities))
    requires s.candidate.Some? <==> t.candidate.Some?
    requires s.candidate.Some? ==>
      var c, d := s.candidate.value, t.candidate.value;
      && NotEarlier(ReadinessRecord(c.idle), ReadinessRecord(d.idle))
      && NotEarlier(ReadinessRecord(c.worker), ReadinessRecord(d.worker))
      && NotEarlier(ReadinessRecord(c.sink), ReadinessRecord(d.sink))
      && NotEarlier(CapabilitiesRecord(c.capabilities), CapabilitiesRecord(d.capabilities))
    ensures LatestBindingTime(s) <= LatestBindingTime(t)
  {
    LatestOfIsPointwise(LatestControlTime(s), LatestControlTime(t), LiveRecords(s), LiveRecords(t));
    if s.candidate.Some? {
      LatestOfIsPointwise(LatestLiveTime(s), LatestLiveTime(t),
                          CandidateRecords(s.candidate.value), CandidateRecords(t.candidate.value));
    }
  }

  /** A call that leaves the current operation alone. */
  lemma BindingCallEvolves(s: GateState, t: GateState)
    requires t.receipt == s.receipt && t.nextOperationId == s.nextOperationId && BindingAdvances(s, t)
    requires t.phase != Closed ==> LatestBindingTime(s) <= LatestBindingTime(t)
    ensures Evolves(s, t)
  {
  }

  /** Evidence only adds to what is known of a candidate. */
  predicate CandidateGrows(c: Candidate, d: Candidate) {
    && d == c.(idle := d.idle, worker := d.worker, sink := d.sink, capabilities := d.capabilities,
               capabilitiesConflicted := d.capabilitiesConflicted)
    && NotEarlier(ReadinessRecord(c.idle), ReadinessRecord(d.idle))
    && NotEarlier(ReadinessRecord(c.worker), ReadinessRecord(d.worker))
    && NotEarlier(ReadinessRecord(c.sink), ReadinessRecord(d.sink))
    && NotEarlier(CapabilitiesRecord(c.capabilities), CapabilitiesRecord(d.capabilities))
    && CandidateFactsValid(d)
  }

  lemma CandidateGrowthKeeps(s: GateState, t: GateState)
    requires Inv(s) && s.candidate.Some? && t.candidate.Some? && t == s.(candidate := t.candidate)
    requires CandidateGrows(s.candidate.value, t.candidate.value)
    ensures Inv(t) && Evolves(s, t)
  {
    LatestBindingTimeAdvances(s, t);
    BindingCallEvolves(s, t);
  }

  lemma InitialGateIsValid(config: GateConfig)
    requires config.Valid()
    ensures Inv(InitialGate(config))
  {
  }

  lemma StartupIsValid(s: GateState, e: StartupEvidence)
    requires Inv(s)
    ensures Inv(ObserveStartup(s, e).0)
  {
  }

  lemma StartupEvolves(s: GateState, e: StartupEvidence)
    ensures Evolves(s, ObserveStartup(s, e).0)
  {
    if ObserveStartup(s, e).1 == Accepted {
      LatestBindingTimeAdvances(s, ObserveStartup(s, e).0);
      BindingCallEvolves(s, ObserveStartup(s, e).0);
    } else {
      EvolvesIsReflexive(s);
    }
  }

  lemma StartupKeeps(s: GateState, e: StartupEvidence)
    requires Inv(s)
    ensures Inv(ObserveStartup(s, e).0) && Evolves(s, ObserveStartup(s, e).0)
  {
    StartupIsValid(s, e);
    StartupEvolves(s, e);
  }

  lemma CandidateCapabilitiesGrow(c: Candidate, config: GateConfig, e: ExecutionCapabilities)
    requires CandidateFactsValid(c)
    ensures CandidateGrows(c, ObserveCandidateCapabilities(c, config, e).0)
  {
  }

  lemma LiveCapabilitiesKeep(s: GateState, t: GateState)
    requires Inv(s) && t == s.(capabilities := t.capabilities)
    requires NotEarlier(CapabilitiesRecord(s.capabilities), CapabilitiesRecord(t.capabilities))
    ensures Inv(t) && Evolves(s, t)
  {
    LatestBindingTimeAdvances(s, t);
    BindingCallEvolves(s, t);
  }

  lemma CapabilitiesKeep(s: GateState, e: ExecutionCapabilities)
    requires Inv(s)
    ensures Inv(ObserveCapabilities(s, e).0) && Evolves(s, ObserveCapabilities(s, e).0)
  {
    var t := ObserveCapabilities(s, e).0;
    if IsForCandidate(s, e.binding) {
      CandidateCapabilitiesGrow(s.candidate.value, s.config, e);
      CandidateGrowthKeeps(s, t);
    } else {
      LiveCapabilitiesKeep(s, t);
    }
  }

  lemma WithdrawalIsValid(s: GateState, b: BindingIdentity, now: U64)
    requires Inv(s)
    ensures Inv(WithdrawBinding(s, b, now).0)
  {
    hide LatestBindingTime, LatestTime, LatestEffectTime, LatestControlTime, LatestLiveTime;
    var t := WithdrawBinding(s, b, now).0;
    if t.receipt != s.receipt {
      LatestBindingTimeIsLatest(s);
      LatestControlTimeCoversReceipt(s);
      var r := s.receipt.value;
      AdmissionPrecedesLatest(r);
      RevocationIsValid(r, r.control.(withdrawnAt := Some(now)), now);
    }
  }

  lemma WithdrawalEvolves(s: GateState, b: BindingIdentity, now: U64)
    requires Inv(s)
    ensures Evolves(s, WithdrawBinding(s, b, now).0)
  {
    hide LatestBindingTime, LatestTime, LatestEffectTime, LatestControlTime, LatestLiveTime;
    var t := WithdrawBinding(s, b, now).0;
    if WithdrawBinding(s, b, now).1.status != Applied {
      EvolvesIsReflexive(s);
    } else {
      LatestBindingTimeIsLatest(s);
      LatestBindingTimeIsLatest(t);
      if t.receipt == s.receipt {
        BindingCallEvolves(s, t);
      } else {
        var r := s.receipt.value;
        RevocationGrows(r, r.control.(withdrawnAt := Some(now)), now);
      }
    }
  }

  lemma WithdrawKeeps(s: GateState, b: BindingIdentity, now: U64)
    requires Inv(s)
    ensures Inv(WithdrawBinding(s, b, now).0) && Evolves(s, WithdrawBinding(s, b, now).0)
  {
    WithdrawalIsValid(s, b, now);
    WithdrawalEvolves(s, b, now);
  }

  lemma BeginIsValid(s: GateState, b: BindingIdentity, p: string, e: BindingReadinessEvidence, now: U64)
    requires Inv(s)
    ensures Inv(BeginRebind(s, b, p, e, now).0)
  {
  }

  lemma BeginEvolves(s: GateState, b: BindingIdentity, p: string, e: BindingReadinessEvidence, now: U64)
    requires Callable(s)
    ensures Evolves(s, BeginRebind(s, b, p, e, now).0)
  {
    if BeginRebind(s, b, p, e, now).1.status == Applied {
      LatestBindingTimeIsLatest(s);
      LatestBindingTimeIsLatest(BeginRebind(s, b, p, e, now).0);
      BindingCallEvolves(s, BeginRebind(s, b, p, e, now).0);
    } else {
      EvolvesIsReflexive(s);
    }
  }

  lemma BeginKeeps(s: GateState, b: BindingIdentity, p: string, e: BindingReadinessEvidence, now: U64)
    requires Inv(s)
    ensures Inv(BeginRebind(s, b, p, e, now).0) && Evolves(s, BeginRebind(s, b, p, e, now).0)
  {
    BeginIsValid(s, b, p, e, now);
    BeginEvolves(s, b, p, e, now);
  }

  lemma ReadinessFolds(fact: ReadinessFact, e: BindingReadinessEvidence, preparedAt: U64)
    requires ReadinessIsValid(fact, preparedAt) && e.record.observedAt >= preparedAt
    ensures var after := FoldReadiness(fact, e).0;
      ReadinessIsValid(after, preparedAt) && NotEarlier(ReadinessRecord(fact), ReadinessRecord(after))
  {
  }

  lemma CandidateReadinessGrows(c: Candidate, role: Role, e: BindingReadinessEvidence)
    requires CandidateFactsValid(c) && e.record.observedAt >= c.preparedAt
    ensures CandidateGrows(c, c.WithFact(role, FoldReadiness(c.Fact(role), e).0))
  {
    ReadinessFolds(c.Fact(role), e, c.preparedAt);
  }

  lemma ReadinessKeeps(s: GateState, e: BindingReadinessEvidence)
    requires Inv(s)
    ensures Inv(ObserveReadiness(s, e).0) && Evolves(s, ObserveReadiness(s, e).0)
  {
    if s.candidate.None? || !IsReadinessFor(s.candidate.value, s.config, e) {
      EvolvesIsReflexive(s);
    } else {
      CandidateReadinessGrows(s.candidate.value, RoleOf(e.kind, s.config).value, e);
      CandidateGrowthKeeps(s, ObserveReadiness(s, e).0);
    }
  }

  lemma CommitIsValid(s: GateState, b: BindingIdentity, now: U64)
    requires Inv(s)
    ensures Inv(CommitRebind(s, b, now).0)
  {
  }

  lemma CommitEvolves(s: GateState, b: BindingIdentity, now: U64)
    requires s.candidate.Some? ==> CandidateIsValid(s, s.candidate.value)
    ensures Evolves(s, CommitRebind(s, b, now).0)
  {
    if CommitRebind(s, b, now).1.status == Applied {
      LatestBindingTimeIsLatest(s);
      LatestBindingTimeIsLatest(CommitRebind(s, b, now).0);
      BindingCallEvolves(s, CommitRebind(s, b, now).0);
    } else {
      EvolvesIsReflexive(s);
    }
  }

  lemma CommitKeeps(s: GateState, b: BindingIdentity, now: U64)
    requires Inv(s)
    ensures Inv(CommitRebind(s, b, now).0) && Evolves(s, CommitRebind(s, b, now).0)
  {
    CommitIsValid(s, b, now);
    CommitEvolves(s, b, now);
  }

  lemma AdmissionIsValid(s: GateState, q: OperationRequest)
    requires Inv(s)
    ensures Inv(Admit(s, q).0)
  {
  }

  lemma AdmissionEvolves(s: GateState, q: OperationRequest)
    requires s.phase == Active ==> s.candidate.None?
    requires s.receipt.Some? ==> ReceiptIsOwned(s, s.receipt.value)
    requires s.receipt.None? ==> s.nextOperationId == 1
    ensures Evolves(s, Admit(s, q).0)
  {
    var t := Admit(s, q).0;
    if AdmissionRefusal(s, q).Some? {
      EvolvesIsReflexive(s);
    } else {
      AdmissionPrecedesLatest(t.receipt.value);
      LatestOfIsMonotone(LatestControlTime(s), LatestControlTime(t), LiveRecords(s));
    }
  }

  lemma AdmitKeeps(s: GateState, q: OperationRequest)
    requires Inv(s)
    ensures Inv(Admit(s, q).0) && Evolves(s, Admit(s, q).0)
  {
    AdmissionIsValid(s, q);
    AdmissionEvolves(s, q);
  }

  lemma CloseKeeps(s: GateState)
    requires Inv(s)
    ensures Inv(CloseAdmission(s)) && Evolves(s, CloseAdmission(s))
  {
  }

  // ---------- Every call ----------

  /** The calls about who may execute, as opposed to those about the current operation. */
  predicate IsBindingCall(c: Call) {
    || c.CallObserveStartup? || c.CallObserveCapabilities? || c.CallWithdraw? || c.CallBeginRebind?
    || c.CallObserveReadiness? || c.CallCommit? || c.CallCloseAdmission?
  }

  lemma BindingCallKeeps(s: GateState, c: Call)
    requires Inv(s) && IsBindingCall(c)
    ensures Inv(Next(s, c)) && Evolves(s, Next(s, c))
  {
    hide Inv, Evolves;
    match c
    case CallObserveStartup(e) => StartupKeeps(s, e);
    case CallObserveCapabilities(e) => CapabilitiesKeep(s, e);
    case CallWithdraw(b, now) => WithdrawKeeps(s, b, now);
    case CallBeginRebind(b, p, e, now) => BeginKeeps(s, b, p, e, now);
    case CallObserveReadiness(e) => ReadinessKeeps(s, e);
    case CallCommit(b, now) => CommitKeeps(s, b, now);
    case CallCloseAdmission => CloseKeeps(s);
  }

  lemma OperationCallKeeps(s: GateState, c: Call)
    requires Inv(s) && !IsBindingCall(c)
    ensures Inv(Next(s, c)) && Evolves(s, Next(s, c))
  {
    hide Inv, Evolves;
    match c
    case CallAdmit(q) => AdmitKeeps(s, q);
    case CallClaimDispatch(a, at) => DispatchKeeps(s, a, at);
    case CallRequestCancel(a, at) => CancelKeeps(s, a, at);
    case CallObserveTime(a, at) => TimeKeeps(s, a, at);
    case CallObserveStop(e) => StopKeeps(s, e);
    case CallObserveNonSubmission(e) => NonSubmissionKeeps(s, e);
    case CallObserveNative(e) => NativeKeeps(s, e);
    case CallObserveOutput(e) => OutputKeeps(s, e);
    case CallObserveNonDelivery(e) => NonDeliveryKeeps(s, e);
    case CallObserveSettlement(e) => SettlementKeeps(s, e);
  }

  /** Every public call keeps the invariant and only ever moves the gate forward. */
  lemma CallKeeps(s: GateState, c: Call)
    requires Inv(s)
    ensures Inv(Next(s, c)) && Evolves(s, Next(s, c))
  {
    if IsBindingCall(c) { BindingCallKeeps(s, c); } else { OperationCallKeeps(s, c); }
  }
}
