/**
 What the gate makes of what a binding or its candidate has to offer: which evidence about a candidate it takes, which
 contradicts what it took before, which capabilities it believes, and what a commit leaves of them.
 */
module GateOffers {
  import opened Machine
  import opened GateTypes
  import opened GateSpec
  import opened GateInvariant
  import opened GateEvidence

  // ---------- A candidate's readiness ----------

  function KnownReadiness(f: ReadinessFact): Option<EvidenceRecord> {
    if f.evidence.Some? then Some(f.evidence.value.record) else None
  }

  /** The same number, and yet another record, observation or validity. */
  predicate Contradicts(e: BindingReadinessEvidence, f: ReadinessFact) {
    && f.evidence.Some? && e.record.sequence == f.evidence.value.record.sequence
    && (e.record != f.evidence.value.record || e.observed != f.evidence.value.observed
        || e.validUntil != f.evidence.value.validUntil)
  }

  /** One fact about a candidate has changed to this one, and nothing else. */
  predicate OnlyFact(s: GateState, t: GateState, role: Role, fact: ReadinessFact) {
    && s.candidate.Some? && t.candidate.Some? && t == s.(candidate := t.candidate)
    && t.candidate.value.Fact(role) == fact && t.candidate.value.capabilities == s.candidate.value.capabilities
    && t.candidate.value.capabilitiesConflicted == s.candidate.value.capabilitiesConflicted
    && t.candidate.value.binding == s.candidate.value.binding
    && t.candidate.value.preparedAt == s.candidate.value.preparedAt
    && t.candidate.value.oldScope == s.candidate.value.oldScope
    && forall other: Role :: other != role ==> t.candidate.value.Fact(other) == s.candidate.value.Fact(other)
  }

  /**
   Evidence about a candidate is taken if and only if it is for that candidate, from the observer of its kind, not
   before the candidate was prepared, newer than what is known of that kind, and still valid when it was observed. If it
   only repeats a number and says something else, what is known stands as contradicted, at the later of both times.
   */
  lemma ReadinessIsExact(s: GateState, e: BindingReadinessEvidence, role: Role)
    requires Inv(s) && s.phase == Preparing && IsAbout(e.kind, role, s.config)
    ensures s.candidate.Some?
    ensures var (t, d) := ObserveReadiness(s, e);
      var c := s.candidate.value;
      var f := c.Fact(role);
      var addressed := e.binding == c.binding && IsFrom(e.record, Observer(role, s.config), c.preparedAt);
      if addressed && Supersedes(e.record, KnownReadiness(f)) && e.record.observedAt < e.validUntil then
        d == Accepted && OnlyFact(s, t, role, ReadinessFact(Some(e), false))
      else
        && d != Accepted
        && if addressed && Contradicts(e, f) then
             d == Rejected
             && OnlyFact(s, t, role,
                         ReadinessFact(Some(f.evidence.value.(record := EvidenceRecord(
                                         f.evidence.value.record.source,
                                         Max(f.evidence.value.record.observedAt, e.record.observedAt),
                                         f.evidence.value.record.sequence))), true))
           else t == s
  {
    hide ReceiptValid, ReceiptIsOwned;
    RoleIsExact(e.kind, s.config, role);
  }

  // ---------- Capabilities ----------

  function KnownOffer(c: Option<ExecutionCapabilities>): Option<EvidenceRecord> {
    if c.Some? then Some(c.value.record) else None
  }

  /** An offer of this gate's capability, of some profile and some amount, valid when it was observed. */
  predicate IsOffer(e: ExecutionCapabilities, config: GateConfig) {
    && config.capabilityObserver != "" && e.capabilityId == config.capabilityId && e.profileId != ""
    && e.maximumWorkUnits > 0 && e.record.observedAt < e.validUntil
  }

  /**
   An offer of the live binding is believed if and only if admission is not closed, it is an offer, from the observer
   of offers, not before the start, and newer than the one known. It then is the one known.
   */
  lemma OfferIsExact(s: GateState, e: ExecutionCapabilities)
    requires Inv(s) && (s.candidate.Some? ==> e.binding != s.candidate.value.binding)
    ensures var (t, d) := ObserveCapabilities(s, e);
      if && s.phase != Closed && e.binding == s.config.binding && IsOffer(e, s.config)
         && IsFrom(e.record, s.config.capabilityObserver, s.config.startedAt)
         && Supersedes(e.record, KnownOffer(s.capabilities)) then
        d == Accepted && t == s.(capabilities := Some(e))
      else d != Accepted && t == s
  {
    hide ReceiptValid, ReceiptIsOwned, CandidateIsValid;
  }

  /** The same number, and yet another offer. */
  predicate Recants(e: ExecutionCapabilities, known: ExecutionCapabilities) {
    && e.record.sequence == known.record.sequence
    && (e.record != known.record || e.profileId != known.profileId
        || e.maximumWorkUnits != known.maximumWorkUnits || e.available != known.available
        || e.validUntil != known.validUntil || e.capabilityId != known.capabilityId)
  }

  /** Of a candidate only what it offers has changed, to this, contradicted or not. */
  predicate OnlyOffer(s: GateState, t: GateState, e: ExecutionCapabilities, contradicted: bool) {
    && s.candidate.Some? && t.candidate.Some?
    && t == s.(candidate := Some(s.candidate.value.(capabilities := Some(e), capabilitiesConflicted := contradicted)))
  }

  /**
   An offer of a candidate is believed if and only if it is an offer, from the observer of offers, not before the
   candidate was prepared, and newer than the one known. If it only repeats a number and says something else, what is
   known stands as contradicted.
   */
  lemma CandidateOfferIsExact(s: GateState, e: ExecutionCapabilities)
    requires Inv(s) && s.phase == Preparing && s.candidate.Some? && e.binding == s.candidate.value.binding
    ensures var (t, d) := ObserveCapabilities(s, e);
      var c := s.candidate.value;
      var heard := s.config.capabilityObserver != "" && IsFrom(e.record, s.config.capabilityObserver, c.preparedAt);
      if heard && IsOffer(e, s.config) && Supersedes(e.record, KnownOffer(c.capabilities)) then
        d == Accepted && OnlyOffer(s, t, e, false)
      else
        && d != Accepted
        && if heard && c.capabilities.Some? && Recants(e, c.capabilities.value) then
             var known := c.capabilities.value.record;
             d == Rejected
             && OnlyOffer(s, t, c.capabilities.value.(record := EvidenceRecord(
                                  known.source, Max(known.observedAt, e.record.observedAt), known.sequence)), true)
           else t == s
  {
    hide ReceiptValid, ReceiptIsOwned;
  }

  // ---------- Commit ----------

  /** A commit that is applied leaves the candidate as the live binding, with just what was observed of it. */
  lemma CommitInstalls(s: GateState, expected: BindingIdentity, now: U64)
    requires Inv(s) && CommitRebind(s, expected, now).1.status == Applied
    ensures s.candidate.Some? && s.candidate.value.idle.evidence.Some? && s.candidate.value.worker.evidence.Some?
            && s.candidate.value.sink.evidence.Some?
    ensures var t, c := CommitRebind(s, expected, now).0, s.candidate.value;
      && t.phase == Active && t.initialization == Ready && t.candidate.None? && t.lastBindingControlAt == now
      && t.config == s.config.(binding := expected) && expected == c.binding && t.receipt == s.receipt
      && t.nextOperationId == s.nextOperationId && t.generationHighWater == s.generationHighWater
      && t.idle == StartupFact(true, c.idle.evidence.value.observed, Some(c.idle.evidence.value.record))
      && t.worker == StartupFact(true, c.worker.evidence.value.observed, Some(c.worker.evidence.value.record))
      && t.sink == StartupFact(true, c.sink.evidence.value.observed, Some(c.sink.evidence.value.record))
      && t.capabilities == c.capabilities
  {
    hide ReceiptValid, ReceiptIsOwned, LatestBindingTime;
  }
}
