/**
 What a commit rests on. The facts stored about a candidate are a fold over the evidence offered
 since its rebind began; here they are described by the history itself: which evidence was the
 last accepted of its kind, and whether anything since has contradicted it.
 */
module GateRebind {
  import opened Machine
  import opened GateTypes
  import opened GateSpec
  import opened GateInvariant
  import opened GateRuns

  // ---------- One candidate and the calls made since it was prepared ----------

  /** What a call does to a candidate that survives it. */
  function Offer(c: Candidate, config: GateConfig, call: Call): (Candidate, EvidenceDisposition) {
    match call
    case CallObserveReadiness(e) =>
      if !IsReadinessFor(c, config, e) then (c, Rejected)
      else
        var role := RoleOf(e.kind, config).value;
        var (fact, d) := FoldReadiness(c.Fact(role), e);
        (c.WithFact(role, fact), d)
    case CallObserveCapabilities(e) =>
      if e.binding == c.binding then ObserveCandidateCapabilities(c, config, e) else (c, Rejected)
    case _ => (c, Rejected)
  }

  function After(c: Candidate, config: GateConfig, calls: seq<Call>): (d: Candidate)
    ensures d.binding == c.binding && d.preparedAt == c.preparedAt && d.oldScope == c.oldScope
    decreases |calls|
  {
    if calls == [] then c else Offer(After(c, config, calls[..|calls| - 1]), config, calls[|calls| - 1]).0
  }

  predicate Concerns(config: GateConfig, call: Call, role: Role) {
    call.CallObserveReadiness? && RoleOf(call.readiness.kind, config) == Some(role)
  }

  predicate AcceptedAs(c: Candidate, config: GateConfig, calls: seq<Call>, i: nat, role: Role)
    requires i < |calls|
  {
    Concerns(config, calls[i], role) && Offer(After(c, config, calls[..i]), config, calls[i]).1 == Accepted
  }

  /** The `i`-th call is the last whose evidence of this kind was accepted. */
  predicate IsLastAccepted(c: Candidate, config: GateConfig, calls: seq<Call>, i: nat, role: Role) {
    && i < |calls| && AcceptedAs(c, config, calls, i, role)
    && forall j :: i < j < |calls| ==> !AcceptedAs(c, config, calls, j, role)
  }

  /** Well-formed evidence that claims the same sequence and says something else. */
  predicate Contradicts(c: Candidate, config: GateConfig, call: Call, role: Role, e: BindingReadinessEvidence) {
    && Concerns(config, call, role) && IsReadinessFor(c, config, call.readiness)
    && call.readiness.record.sequence == e.record.sequence && !SameReadiness(call.readiness, e)
  }

  predicate IsContradicted(c: Candidate, config: GateConfig, calls: seq<Call>, i: nat, role: Role)
    requires i < |calls| && calls[i].CallObserveReadiness?
  {
    exists j :: i < j < |calls| && Contradicts(c, config, calls[j], role, calls[i].readiness)
  }

  predicate Describes(fact: ReadinessFact, e: BindingReadinessEvidence, contradicted: bool) {
    && fact.evidence.Some? && fact.conflicted == contradicted
    && (!contradicted ==> fact.evidence.value == e)
    && fact.evidence.value.record.sequence == e.record.sequence
  }

  /** The stored fact, told by the history. */
  ghost predicate IsTold(c: Candidate, config: GateConfig, calls: seq<Call>, role: Role) {
    var fact := After(c, config, calls).Fact(role);
    if fact.evidence.None? then
      !fact.conflicted && forall i :: 0 <= i < |calls| ==> !AcceptedAs(c, config, calls, i, role)
    else
      exists i: nat :: IsLastAccepted(c, config, calls, i, role)
        && Describes(fact, calls[i].readiness, IsContradicted(c, config, calls, i, role))
  }

  /** One more piece of evidence, as far as the previous fact goes. */
  lemma FoldTellsOneMore(fact: ReadinessFact, e: BindingReadinessEvidence, last: BindingReadinessEvidence,
                         contradicted: bool)
    requires Describes(fact, last, contradicted)
    ensures
      var (after, d) := FoldReadiness(fact, e);
      if d == Accepted then after == ReadinessFact(Some(e), false)
      else Describes(after, last, contradicted || (e.record.sequence == last.record.sequence
                                                   && !SameReadiness(e, last)))
  {
  }

  lemma OfferLeavesOthers(c: Candidate, config: GateConfig, call: Call, role: Role)
    requires !Concerns(config, call, role) || !IsReadinessFor(c, config, call.readiness)
    ensures Offer(c, config, call).0.Fact(role) == c.Fact(role)
    ensures Concerns(config, call, role) ==> Offer(c, config, call).1 == Rejected
  {
  }

  lemma {:induction false} HistoryTellsFact(c: Candidate, config: GateConfig, calls: seq<Call>, role: Role)
    requires c.Fact(role) == NO_READINESS
    ensures IsTold(c, config, calls, role)
    decreases |calls|
  {
    if calls == [] {
    } else {
      var n := |calls| - 1;
      HistoryTellsFact(c, config, calls[..n], role);
      OneMoreCall(c, config, calls, role);
    }
  }

  lemma PrefixAccepts(c: Candidate, config: GateConfig, calls: seq<Call>, n: nat, i: nat, role: Role)
    requires i < n <= |calls|
    ensures AcceptedAs(c, config, calls[..n], i, role) <==> AcceptedAs(c, config, calls, i, role)
  {
    assert calls[..n][..i] == calls[..i];
  }

  lemma OneMoreCall(c: Candidate, config: GateConfig, calls: seq<Call>, role: Role)
    requires calls != [] && IsTold(c, config, calls[..|calls| - 1], role)
    ensures IsTold(c, config, calls, role)
  {
    var n := |calls| - 1;
    var before := After(c, config, calls[..n]);
    forall i | 0 <= i < n
      ensures AcceptedAs(c, config, calls[..n], i, role) <==> AcceptedAs(c, config, calls, i, role)
    {
      PrefixAccepts(c, config, calls, n, i, role);
    }
    if !Concerns(config, calls[n], role) || !IsReadinessFor(before, config, calls[n].readiness) {
      OfferLeavesOthers(before, config, calls[n], role);
    }
    if AcceptedAs(c, config, calls, n, role) {
      assert IsLastAccepted(c, config, calls, n, role);
    } else if before.Fact(role).evidence.Some? {
      LaterCallsTell(c, config, calls, role);
    }
  }

  lemma LaterCallsTell(c: Candidate, config: GateConfig, calls: seq<Call>, role: Role)
    requires calls != [] && IsTold(c, config, calls[..|calls| - 1], role)
    requires After(c, config, calls[..|calls| - 1]).Fact(role).evidence.Some?
    requires forall i :: 0 <= i < |calls| - 1 ==>
      (AcceptedAs(c, config, calls[..|calls| - 1], i, role) <==> AcceptedAs(c, config, calls, i, role))
    requires !AcceptedAs(c, config, calls, |calls| - 1, role)
    ensures IsTold(c, config, calls, role)
  {
    hide IsWellFormed;
    var n := |calls| - 1;
    var prefix := calls[..n];
    var before := After(c, config, prefix);
    var i: nat :| IsLastAccepted(c, config, prefix, i, role)
      && Describes(before.Fact(role), prefix[i].readiness, IsContradicted(c, config, prefix, i, role));
    assert IsLastAccepted(c, config, calls, i, role);
    assert calls[i].CallObserveReadiness?;
    assert IsContradicted(c, config, calls, i, role) <==>
           IsContradicted(c, config, prefix, i, role) || Contradicts(c, config, calls[n], role, calls[i].readiness);
    if Concerns(config, calls[n], role) && IsReadinessFor(before, config, calls[n].readiness) {
      FoldTellsOneMore(before.Fact(role), calls[n].readiness, calls[i].readiness,
                       IsContradicted(c, config, prefix, i, role));
    } else {
      OfferLeavesOthers(before, config, calls[n], role);
    }
  }

  // ---------- The same for capabilities ----------

  predicate AcceptedAsCapabilities(c: Candidate, config: GateConfig, calls: seq<Call>, i: nat)
    requires i < |calls|
  {
    calls[i].CallObserveCapabilities? && Offer(After(c, config, calls[..i]), config, calls[i]).1 == Accepted
  }

  predicate IsLastCapabilities(c: Candidate, config: GateConfig, calls: seq<Call>, i: nat) {
    && i < |calls| && AcceptedAsCapabilities(c, config, calls, i)
    && forall j :: i < j < |calls| ==> !AcceptedAsCapabilities(c, config, calls, j)
  }

  predicate AreCapabilitiesFor(c: Candidate, config: GateConfig, e: ExecutionCapabilities) {
    && e.binding == c.binding && config.capabilityObserver != ""
    && IsWellFormed(e.record, config.capabilityObserver, c.preparedAt)
  }

  predicate ContradictsCapabilities(c: Candidate, config: GateConfig, call: Call, e: ExecutionCapabilities) {
    && call.CallObserveCapabilities? && AreCapabilitiesFor(c, config, call.offered)
    && call.offered.record.sequence == e.record.sequence
    && !(SameOffer(call.offered, e) && call.offered.capabilityId == e.capabilityId)
  }

  predicate AreContradicted(c: Candidate, config: GateConfig, calls: seq<Call>, i: nat)
    requires i < |calls| && calls[i].CallObserveCapabilities?
  {
    exists j :: i < j < |calls| && ContradictsCapabilities(c, config, calls[j], calls[i].offered)
  }

  predicate DescribesCapabilities(c: Candidate, e: ExecutionCapabilities, contradicted: bool) {
    && c.capabilities.Some? && c.capabilitiesConflicted == contradicted
    && (!contradicted ==> c.capabilities.value == e)
    && c.capabilities.value.record.sequence == e.record.sequence
  }

  ghost predicate AreTold(c: Candidate, config: GateConfig, calls: seq<Call>) {
    var d := After(c, config, calls);
    if d.capabilities.None? then
      !d.capabilitiesConflicted && forall i :: 0 <= i < |calls| ==> !AcceptedAsCapabilities(c, config, calls, i)
    else
      exists i: nat :: IsLastCapabilities(c, config, calls, i)
        && DescribesCapabilities(d, calls[i].offered, AreContradicted(c, config, calls, i))
  }

  lemma OfferTellsCapabilities(c: Candidate, config: GateConfig, call: Call, last: ExecutionCapabilities,
                               contradicted: bool)
    requires DescribesCapabilities(c, last, contradicted)
    requires !(call.CallObserveCapabilities? && Offer(c, config, call).1 == Accepted)
    ensures DescribesCapabilities(Offer(c, config, call).0, last,
                                  contradicted || ContradictsCapabilities(c, config, call, last))
  {
  }

  lemma OfferStartsCapabilities(c: Candidate, config: GateConfig, call: Call)
    ensures
      var (d, answer) := Offer(c, config, call);
      if call.CallObserveCapabilities? && answer == Accepted then
        d.capabilities == Some(call.offered) && !d.capabilitiesConflicted
      else c.capabilities.None? ==> d.capabilities.None? && d.capabilitiesConflicted == c.capabilitiesConflicted
  {
  }

  lemma {:induction false} HistoryTellsCapabilities(c: Candidate, config: GateConfig, calls: seq<Call>)
    requires c.capabilities.None? && !c.capabilitiesConflicted
    ensures AreTold(c, config, calls)
    decreases |calls|
  {
    if calls == [] {
    } else {
      var n := |calls| - 1;
      HistoryTellsCapabilities(c, config, calls[..n]);
      forall i | 0 <= i < n
        ensures AcceptedAsCapabilities(c, config, calls[..n], i) <==> AcceptedAsCapabilities(c, config, calls, i)
      {
        assert calls[..n][..i] == calls[..i];
      }
      OfferStartsCapabilities(After(c, config, calls[..n]), config, calls[n]);
      if AcceptedAsCapabilities(c, config, calls, n) {
        assert IsLastCapabilities(c, config, calls, n);
      } else if After(c, config, calls[..n]).capabilities.Some? {
        LaterCallsTellCapabilities(c, config, calls);
      }
    }
  }

  lemma LaterCallsTellCapabilities(c: Candidate, config: GateConfig, calls: seq<Call>)
    requires calls != [] && AreTold(c, config, calls[..|calls| - 1])
    requires After(c, config, calls[..|calls| - 1]).capabilities.Some?
    requires forall i :: 0 <= i < |calls| - 1 ==>
      (AcceptedAsCapabilities(c, config, calls[..|calls| - 1], i) <==> AcceptedAsCapabilities(c, config, calls, i))
    requires !AcceptedAsCapabilities(c, config, calls, |calls| - 1)
    ensures AreTold(c, config, calls)
  {
    var n := |calls| - 1;
    var prefix := calls[..n];
    var before := After(c, config, prefix);
    var i: nat :| IsLastCapabilities(c, config, prefix, i)
      && DescribesCapabilities(before, prefix[i].offered, AreContradicted(c, config, prefix, i));
    assert IsLastCapabilities(c, config, calls, i);
    assert AreContradicted(c, config, calls, i) <==>
           AreContradicted(c, config, prefix, i) || ContradictsCapabilities(c, config, calls[n], calls[i].offered);
    OfferTellsCapabilities(before, config, calls[n], calls[i].offered, AreContradicted(c, config, prefix, i));
  }

  // ---------- When a commit is applied ----------

  /** Of this kind, the last accepted evidence is positive, still valid and uncontradicted. */
  ghost predicate Stands(c: Candidate, config: GateConfig, calls: seq<Call>, role: Role, now: U64) {
    exists i: nat :: IsLastAccepted(c, config, calls, i, role)
      && calls[i].readiness.observed && calls[i].readiness.record.observedAt <= now < calls[i].readiness.validUntil
      && !IsContradicted(c, config, calls, i, role)
  }

  ghost predicate CapabilitiesStand(c: Candidate, config: GateConfig, calls: seq<Call>, now: U64) {
    exists i: nat :: IsLastCapabilities(c, config, calls, i)
      && calls[i].offered.available && calls[i].offered.record.observedAt <= now < calls[i].offered.validUntil
      && !AreContradicted(c, config, calls, i)
  }

  lemma OpenMeansStands(c: Candidate, config: GateConfig, calls: seq<Call>, role: Role, now: U64)
    requires c.Fact(role) == NO_READINESS
    ensures IsOpenFact(After(c, config, calls).Fact(role), now) <==> Stands(c, config, calls, role, now)
  {
    HistoryTellsFact(c, config, calls, role);
  }

  lemma OpenCapabilitiesStand(c: Candidate, config: GateConfig, calls: seq<Call>, now: U64)
    requires c.capabilities.None? && !c.capabilitiesConflicted
    ensures IsOpenCapability(After(c, config, calls), now) <==> CapabilitiesStand(c, config, calls, now)
  {
    HistoryTellsCapabilities(c, config, calls);
  }

  // ---------- Runs of the gate ----------

  ghost predicate BeginsAt(config: GateConfig, calls: seq<Call>, b: nat)
    requires config.Valid() && b < |calls|
  {
    calls[b].CallBeginRebind? && IsApplied(AnswerAt(config, calls, b))
  }

  /** From the rebind begun by call `b` up to call `m`, the candidate was never dropped. */
  ghost predicate IsPreparing(config: GateConfig, calls: seq<Call>, b: nat, m: nat)
    requires config.Valid()
    decreases m
  {
    && b < m <= |calls| && BeginsAt(config, calls, b) && At(config, calls, m).phase == Preparing
    && (m > b + 1 ==> IsPreparing(config, calls, b, m - 1))
  }

  /** The candidate the rebind begun by call `b` starts from. */
  function Prepared(s: GateState, begin: Call): Candidate
    requires begin.CallBeginRebind? && s.generationHighWater < MAX_U64
  {
    Candidate(NextBinding(s, begin.providerId), begin.now, begin.closure, NO_READINESS, NO_READINESS,
              NO_READINESS, None, false)
  }

  lemma BindingCallOffers(s: GateState, c: Call)
    requires s.phase == Preparing && s.candidate.Some? && Callable(s) && IsBindingCall(c)
    requires Next(s, c).phase == Preparing
    ensures Next(s, c).config == s.config
    ensures Next(s, c).candidate == Some(Offer(s.candidate.value, s.config, c).0)
  {
  }

  lemma OperationCallOffers(s: GateState, c: Call)
    requires Callable(s) && !IsBindingCall(c) && s.candidate.Some?
    ensures Next(s, c).config == s.config && Next(s, c).candidate == s.candidate
    ensures Next(s, c).phase == s.phase
  {
  }

  lemma BeginPrepares(s: GateState, c: Call)
    requires Callable(s) && c.CallBeginRebind? && IsApplied(AnswerTo(s, c))
    ensures s.generationHighWater < MAX_U64 && Next(s, c).candidate == Some(Prepared(s, c))
    ensures Next(s, c).config == s.config
  {
  }

  lemma PreparingHasCandidate(s: GateState)
    requires Inv(s)
    ensures s.phase == Preparing <==> s.candidate.Some?
  {
  }

  lemma CandidateStep(config: GateConfig, calls: seq<Call>, k: nat)
    requires config.Valid() && k < |calls|
    requires At(config, calls, k).phase == Preparing && At(config, calls, k + 1).phase == Preparing
    ensures At(config, calls, k).candidate.Some?
    ensures At(config, calls, k + 1).config == At(config, calls, k).config
    ensures At(config, calls, k + 1).candidate
            == Some(Offer(At(config, calls, k).candidate.value, At(config, calls, k).config, calls[k]).0)
  {
    hide At, Next, Inv, Offer;
    AtIsValid(config, calls, k);
    PreparingHasCandidate(At(config, calls, k));
    NextState(config, calls, k);
    if IsBindingCall(calls[k]) {
      BindingCallOffers(At(config, calls, k), calls[k]);
    } else {
      OperationCallOffers(At(config, calls, k), calls[k]);
      OperationsOfferNothing(At(config, calls, k), calls[k]);
    }
  }

  lemma PreparationStarts(config: GateConfig, calls: seq<Call>, b: nat)
    requires config.Valid() && b < |calls| && BeginsAt(config, calls, b)
    ensures At(config, calls, b).generationHighWater < MAX_U64
    ensures At(config, calls, b + 1).config == At(config, calls, b).config
    ensures At(config, calls, b + 1).candidate == Some(Prepared(At(config, calls, b), calls[b]))
  {
    hide At, Next, AnswerTo;
    BeginPrepares(At(config, calls, b), calls[b]);
    NextState(config, calls, b);
  }

  lemma OperationsOfferNothing(s: GateState, c: Call)
    requires s.candidate.Some? && !IsBindingCall(c)
    ensures Offer(s.candidate.value, s.config, c).0 == s.candidate.value
  {
  }

  /** What the gate holds about a candidate is the fold of the calls since it was prepared. */
  lemma {:induction false} CandidateIsFold(config: GateConfig, calls: seq<Call>, b: nat, m: nat)
    requires config.Valid() && IsPreparing(config, calls, b, m)
    ensures At(config, calls, b).generationHighWater < MAX_U64
    ensures At(config, calls, m).config == At(config, calls, b).config
    ensures
      At(config, calls, m).candidate
        == Some(After(Prepared(At(config, calls, b), calls[b]), At(config, calls, b).config, calls[b + 1..m]))
    decreases m
  {
    hide At, AnswerAt, Offer, BeginsAt;
    if m == b + 1 {
      PreparationStarts(config, calls, b);
      assert calls[b + 1..m] == [];
    } else {
      CandidateIsFold(config, calls, b, m - 1);
      CandidateStep(config, calls, m - 1);
      assert calls[b + 1..m][..m - b - 2] == calls[b + 1..m - 1];
    }
  }

  /** The fold accepts a call's evidence exactly when the gate answered that it did. */
  lemma FoldAcceptsAsAnswered(config: GateConfig, calls: seq<Call>, b: nat, k: nat, role: Role)
    requires config.Valid() && IsPreparing(config, calls, b, k) && k < |calls|
    requires At(config, calls, b).generationHighWater < MAX_U64
    ensures
      var s := At(config, calls, b);
      AcceptedAs(Prepared(s, calls[b]), s.config, calls[b + 1..], k - b - 1, role) <==>
        Concerns(s.config, calls[k], role) && AnswerAt(config, calls, k) == Evidence(Accepted)
  {
    CandidateIsFold(config, calls, b, k);
    assert calls[b + 1..][..k - b - 1] == calls[b + 1..k];
    AtIsValid(config, calls, k);
    PreparingHasCandidate(At(config, calls, k));
    if calls[k].CallObserveReadiness? { ReadinessAnswers(At(config, calls, k), calls[k]); }
  }

  lemma ReadinessAnswers(s: GateState, c: Call)
    requires Callable(s) && c.CallObserveReadiness? && s.candidate.Some? && s.phase == Preparing
    ensures AnswerTo(s, c) == Evidence(Offer(s.candidate.value, s.config, c).1)
  {
  }

  /**
   A commit is applied exactly when, at that moment, old work is closed, the closure evidence the
   rebind began with still holds, and for each readiness kind (and for capabilities where an
   observer is configured) the last evidence accepted since is positive, unexpired and
   uncontradicted.
   */
  lemma CommitRestsOnEvidence(config: GateConfig, calls: seq<Call>, b: nat, m: nat, now: U64)
    requires config.Valid() && IsPreparing(config, calls, b, m)
    requires At(config, calls, b).generationHighWater < MAX_U64
    ensures
      var s, t := At(config, calls, b), At(config, calls, m);
      var c, since := Prepared(s, calls[b]), calls[b + 1..m];
      CommitRebind(t, c.binding, now).1.status == Applied <==>
        && now >= LatestBindingTime(t) && OldWorkClosed(t)
        && now < calls[b].closure.validUntil
        && (t.receipt.Some? ==> calls[b].closure.record.observedAt >= LatestEffectTime(t.receipt.value))
        && Stands(c, s.config, since, BindingRole, now) && Stands(c, s.config, since, WorkerRole, now)
        && Stands(c, s.config, since, SinkRole, now)
        && (s.config.capabilityObserver != "" ==> CapabilitiesStand(c, s.config, since, now))
  {
    var s := At(config, calls, b);
    var c, since := Prepared(s, calls[b]), calls[b + 1..m];
    CandidateIsFold(config, calls, b, m);
    OpenMeansStands(c, s.config, since, BindingRole, now);
    OpenMeansStands(c, s.config, since, WorkerRole, now);
    OpenMeansStands(c, s.config, since, SinkRole, now);
    OpenCapabilitiesStand(c, s.config, since, now);
  }

  lemma OnlyBeginPrepares(s: GateState, c: Call)
    requires Callable(s) && s.phase != Preparing && Next(s, c).phase == Preparing
    ensures c.CallBeginRebind? && IsApplied(AnswerTo(s, c))
  {
  }

  /** Whatever is being prepared was begun by some call, so every applied commit falls under the above. */
  lemma {:induction false} PreparationWasBegun(config: GateConfig, calls: seq<Call>, m: nat) returns (b: nat)
    requires config.Valid() && m <= |calls| && At(config, calls, m).phase == Preparing
    ensures IsPreparing(config, calls, b, m)
    decreases m
  {
    hide At, AnswerAt, BeginsAt;
    PreparationHasCause(config, calls, m);
    if At(config, calls, m - 1).phase == Preparing {
      b := PreparationWasBegun(config, calls, m - 1);
    } else {
      b := m - 1;
    }
  }

  lemma PreparationHasCause(config: GateConfig, calls: seq<Call>, m: nat)
    requires config.Valid() && m <= |calls| && At(config, calls, m).phase == Preparing
    ensures m > 0
    ensures At(config, calls, m - 1).phase == Preparing || BeginsAt(config, calls, m - 1)
  {
    hide Next, AnswerTo;
    if m > 0 {
      NextState(config, calls, m - 1);
      if At(config, calls, m - 1).phase != Preparing {
        OnlyBeginPrepares(At(config, calls, m - 1), calls[m - 1]);
      }
    }
  }
}
