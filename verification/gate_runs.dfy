/**
 Theorems about every run of the gate: any valid configuration, any sequence of public calls
 with any arguments, in any order. Each rests on a lemma about one call, a lemma about two states
 of which one evolves from the other, or both.
 */
module GateRuns {
  import opened Machine
  import opened GateTypes
  import opened GateSpec
  import opened GateInvariant

  // ---------- Runs ----------

  /** The state after some calls. Every state of a run is callable: `RunIsValid`. */
  function Run(s: GateState, calls: seq<Call>): GateState
    decreases |calls|
  {
    if calls == [] then s
    else
      var before := Run(s, calls[..|calls| - 1]);
      if Callable(before) then Next(before, calls[|calls| - 1]) else before
  }

  lemma {:induction false} RunIsValid(s: GateState, calls: seq<Call>)
    requires Inv(s)
    ensures Inv(Run(s, calls)) && Evolves(s, Run(s, calls))
    decreases |calls|
  {
    hide Next, Inv, Evolves;
    if calls == [] {
      EvolvesIsReflexive(s);
    } else {
      var before := Run(s, calls[..|calls| - 1]);
      RunIsValid(s, calls[..|calls| - 1]);
      InvIsCallable(before);
      CallKeeps(before, calls[|calls| - 1]);
      EvolvesIsTransitive(s, before, Run(s, calls));
    }
  }

  /** The state of a gate made with `config` before its `i`-th call. */
  ghost function At(config: GateConfig, calls: seq<Call>, i: nat): (s: GateState)
    requires config.Valid() && i <= |calls|
    ensures Callable(s)
  {
    InitialGateIsValid(config);
    RunIsValid(InitialGate(config), calls[..i]);
    Run(InitialGate(config), calls[..i])
  }

  /** What the gate answered to its `i`-th call. */
  ghost function AnswerAt(config: GateConfig, calls: seq<Call>, i: nat): Answer
    requires config.Valid() && i < |calls|
  {
    AnswerTo(At(config, calls, i), calls[i])
  }

  /** Every reachable state satisfies the invariant. */
  lemma AtIsValid(config: GateConfig, calls: seq<Call>, i: nat)
    requires config.Valid() && i <= |calls|
    ensures Inv(At(config, calls, i))
  {
    hide Run, Inv;
    InitialGateIsValid(config);
    RunIsValid(InitialGate(config), calls[..i]);
  }

  lemma NextState(config: GateConfig, calls: seq<Call>, i: nat)
    requires config.Valid() && i < |calls|
    ensures At(config, calls, i + 1) == Next(At(config, calls, i), calls[i])
  {
    hide Next;
    assert calls[..i + 1][..i] == calls[..i];
  }

  lemma {:induction false} StatesEvolve(config: GateConfig, calls: seq<Call>, i: nat, j: nat)
    requires config.Valid() && i <= j <= |calls|
    ensures Evolves(At(config, calls, i), At(config, calls, j))
    decreases j
  {
    hide At, Next, Inv, Evolves;
    if i == j {
      EvolvesIsReflexive(At(config, calls, i));
    } else {
      StatesEvolve(config, calls, i, j - 1);
      NextState(config, calls, j - 1);
      AtIsValid(config, calls, j - 1);
      CallKeeps(At(config, calls, j - 1), calls[j - 1]);
      EvolvesIsTransitive(At(config, calls, i), At(config, calls, j - 1), At(config, calls, j));
    }
  }

  // ---------- Operations are serial ----------

  /** Two receipts of one operation, or of two of which the second began after the first ended. */
  predicate AreSerial(r: OperationReceipt, u: OperationReceipt) {
    if r.authority.operationId == u.authority.operationId then r.authority == u.authority
    else
      && r.authority.operationId < u.authority.operationId
      && EndsBy(r, u.authority.admittedAt) && StartsAtAdmission(u)
  }

  lemma EvolvedReceiptsAreSerial(s: GateState, t: GateState)
    requires Evolves(s, t) && Inv(t) && s.receipt.Some?
    ensures t.receipt.Some? && AreSerial(s.receipt.value, t.receipt.value)
  {
    LatestTimeIsLeast(s.receipt.value, t.receipt.value.authority.admittedAt);
  }

  /**
   Two receipts seen at any two points of a run belong to the same operation, or the later
   operation has a greater identity, starts no earlier than anything ever recorded on the
   earlier one, and records nothing before its own admission.
   */
  lemma OperationsAreSerial(config: GateConfig, calls: seq<Call>, i: nat, j: nat)
    requires config.Valid() && i <= j <= |calls|
    requires At(config, calls, i).receipt.Some?
    ensures At(config, calls, j).receipt.Some?
    ensures AreSerial(At(config, calls, i).receipt.value, At(config, calls, j).receipt.value)
  {
    hide At, Inv, Evolves, AreSerial;
    StatesEvolve(config, calls, i, j);
    AtIsValid(config, calls, j);
    EvolvedReceiptsAreSerial(At(config, calls, i), At(config, calls, j));
  }

  /** Admission replaces nothing but released work, and starts no earlier than that work ended. */
  lemma AdmissionNeedsRelease(s: GateState, q: OperationRequest)
    requires Admit(s, q).1.status == Admitted
    ensures s.receipt.Some? ==> s.receipt.value.disposition == Released && EndsBy(s.receipt.value, q.requestedAt)
    ensures s.phase == Active && s.initialization == Ready
    ensures q.deadline.Some? ==> q.requestedAt < q.deadline.value
  {
    if s.receipt.Some? { LatestTimeIsLeast(s.receipt.value, q.requestedAt); }
  }

  ghost predicate AdmittedAs(config: GateConfig, calls: seq<Call>, i: nat, authority: OperationAuthority)
    requires config.Valid() && i < |calls|
  {
    && calls[i].CallAdmit?
    && AnswerAt(config, calls, i) == Admission(AdmissionDecision(Admitted, Some(authority)))
  }

  lemma AdmissionConsumesIdentity(s: GateState, c: Call, a: OperationAuthority)
    requires Callable(s) && c.CallAdmit? && AnswerTo(s, c) == Admission(AdmissionDecision(Admitted, Some(a)))
    ensures s.nextOperationId == a.operationId != 0
    ensures Next(s, c).nextOperationId == 0 || Next(s, c).nextOperationId > a.operationId
    ensures a.binding == s.config.binding && a.admittedAt == c.request.requestedAt
  {
  }

  predicate IsSpent(s: GateState, operationId: U64) {
    s.nextOperationId == 0 || s.nextOperationId > operationId
  }

  lemma SpentStaysSpent(s: GateState, t: GateState, operationId: U64)
    requires Evolves(s, t) && IsSpent(s, operationId)
    ensures IsSpent(t, operationId)
  {
  }

  lemma IdentityIsSpent(config: GateConfig, calls: seq<Call>, i: nat, j: nat, a: OperationAuthority)
    requires config.Valid() && i < j <= |calls| && AdmittedAs(config, calls, i, a)
    ensures IsSpent(At(config, calls, j), a.operationId)
  {
    hide At, Next, AnswerTo, Evolves;
    AdmissionConsumesIdentity(At(config, calls, i), calls[i], a);
    NextState(config, calls, i);
    StatesEvolve(config, calls, i + 1, j);
    SpentStaysSpent(At(config, calls, i + 1), At(config, calls, j), a.operationId);
  }

  /** Operation identities increase from admission to admission and are never reused. */
  lemma IdentitiesAreNeverReused(config: GateConfig, calls: seq<Call>, i: nat, j: nat,
                                 a: OperationAuthority, b: OperationAuthority)
    requires config.Valid() && i < j < |calls|
    requires AdmittedAs(config, calls, i, a) && AdmittedAs(config, calls, j, b)
    ensures 0 < a.operationId < b.operationId
  {
    hide At, Next, AnswerTo;
    AdmissionConsumesIdentity(At(config, calls, i), calls[i], a);
    AdmissionConsumesIdentity(At(config, calls, j), calls[j], b);
    IdentityIsSpent(config, calls, i, j, a);
  }

  lemma ExhaustedStays(s: GateState, t: GateState, c: Call, a: OperationAuthority)
    requires Evolves(s, t) && Callable(t) && s.nextOperationId == 0
    ensures !(c.CallAdmit? && AnswerTo(t, c) == Admission(AdmissionDecision(Admitted, Some(a))))
  {
  }

  /** At the 64-bit limit the gate stops admitting instead of starting over. */
  lemma ExhaustedIdentitiesStayExhausted(config: GateConfig, calls: seq<Call>, i: nat, j: nat,
                                         a: OperationAuthority)
    requires config.Valid() && i <= j < |calls| && At(config, calls, i).nextOperationId == 0
    ensures !AdmittedAs(config, calls, j, a)
  {
    hide At, AnswerTo, Evolves;
    StatesEvolve(config, calls, i, j);
    ExhaustedStays(At(config, calls, i), At(config, calls, j), calls[j], a);
  }

  // ---------- Dispatch, stop and revocation ----------

  ghost predicate DispatchedAt(config: GateConfig, calls: seq<Call>, i: nat, operationId: U64)
    requires config.Valid() && i < |calls|
  {
    && calls[i].CallClaimDispatch? && calls[i].authority.operationId == operationId
    && AnswerAt(config, calls, i) == Dispatch(true)
  }

  lemma DispatchMarksReceipt(s: GateState, c: Call)
    requires Inv(s) && c.CallClaimDispatch? && AnswerTo(s, c) == Dispatch(true)
    ensures IsHeld(s, c.authority.operationId) && s.receipt.value.dispatch.at.None?
    ensures !IsRevoked(s.receipt.value.control) && !HasReachedDeadline(s.receipt.value, c.at)
    ensures IsDispatched(Next(s, c), c.authority.operationId)
  {
  }

  predicate IsHeld(s: GateState, operationId: U64) {
    s.receipt.Some? && s.receipt.value.authority.operationId == operationId
  }

  /** The operation has been dispatched, or a later one has taken its place. */
  predicate IsDispatched(s: GateState, operationId: U64) {
    && s.receipt.Some? && s.receipt.value.authority.operationId >= operationId
    && (IsHeld(s, operationId) ==> s.receipt.value.dispatch.at.Some?)
  }

  lemma DispatchedStays(s: GateState, t: GateState, operationId: U64)
    requires Evolves(s, t) && IsDispatched(s, operationId)
    ensures IsDispatched(t, operationId)
  {
  }

  /** An operation is dispatched at most once in the life of the gate. */
  lemma DispatchedAtMostOnce(config: GateConfig, calls: seq<Call>, i: nat, j: nat, operationId: U64)
    requires config.Valid() && i < j < |calls|
    ensures !(DispatchedAt(config, calls, i, operationId) && DispatchedAt(config, calls, j, operationId))
  {
    hide At, Next, AnswerTo, Inv, Evolves;
    if DispatchedAt(config, calls, i, operationId) && DispatchedAt(config, calls, j, operationId) {
      AtIsValid(config, calls, i);
      AtIsValid(config, calls, j);
      DispatchMarksReceipt(At(config, calls, i), calls[i]);
      DispatchMarksReceipt(At(config, calls, j), calls[j]);
      NextState(config, calls, i);
      StatesEvolve(config, calls, i + 1, j);
      DispatchedStays(At(config, calls, i + 1), At(config, calls, j), operationId);
    }
  }

  /** The operation whose native work an answer asks the host to stop. */
  function StopOf(s: GateState, c: Call): Option<U64>
    requires Callable(s)
  {
    match AnswerTo(s, c)
    case Control(d) =>
      if d.shouldRequestNativeStop && s.receipt.Some? then Some(s.receipt.value.authority.operationId) else None
    case Binding(d) =>
      if d.nativeStopAuthority.Some? then Some(d.nativeStopAuthority.value.operationId) else None
    case _ => None
  }

  /** A native stop of the operation has been asked for, or a later operation has taken its place. */
  predicate IsStopped(s: GateState, operationId: U64) {
    && s.receipt.Some? && s.receipt.value.authority.operationId >= operationId
    && (IsHeld(s, operationId) ==> s.receipt.value.control.stopRequestedAt.Some?)
  }

  lemma StopMarksReceipt(s: GateState, c: Call)
    requires Callable(s) && StopOf(s, c).Some?
    ensures IsHeld(s, StopOf(s, c).value) && s.receipt.value.control.stopRequestedAt.None?
    ensures s.receipt.value.dispatch.status == Submitted && s.receipt.value.native.outcome == OutcomePending
    ensures IsStopped(Next(s, c), StopOf(s, c).value)
    ensures IsRevoked(Next(s, c).receipt.value.control)
  {
  }

  lemma StoppedStays(s: GateState, t: GateState, operationId: U64)
    requires Evolves(s, t) && IsStopped(s, operationId)
    ensures IsStopped(t, operationId)
  {
  }

  /** Cancellation, expiry and withdrawal together ask for at most one native stop of an operation. */
  lemma StoppedAtMostOnce(config: GateConfig, calls: seq<Call>, i: nat, j: nat)
    requires config.Valid() && i < j < |calls|
    requires StopOf(At(config, calls, i), calls[i]).Some? && StopOf(At(config, calls, j), calls[j]).Some?
    ensures StopOf(At(config, calls, i), calls[i]).value < StopOf(At(config, calls, j), calls[j]).value
  {
    hide At, Next, Inv, Evolves, StopOf;
    var operationId := StopOf(At(config, calls, i), calls[i]).value;
    StopMarksReceipt(At(config, calls, i), calls[i]);
    StopMarksReceipt(At(config, calls, j), calls[j]);
    NextState(config, calls, i);
    StatesEvolve(config, calls, i + 1, j);
    StoppedStays(At(config, calls, i + 1), At(config, calls, j), operationId);
  }

  lemma RevokedStays(s: GateState, t: GateState)
    requires Evolves(s, t) && s.receipt.Some? && IsRevoked(s.receipt.value.control)
    ensures t.receipt.Some?
    ensures
      || s.receipt.value.authority.operationId < t.receipt.value.authority.operationId
      || (s.receipt.value.authority == t.receipt.value.authority && IsRevoked(t.receipt.value.control))
  {
  }

  /** Once an operation is revoked it is never dispatched. */
  lemma RevokedIsNeverDispatched(config: GateConfig, calls: seq<Call>, i: nat, j: nat)
    requires config.Valid() && i <= j < |calls|
    requires At(config, calls, i).receipt.Some? && IsRevoked(At(config, calls, i).receipt.value.control)
    requires calls[j].CallClaimDispatch? && AnswerAt(config, calls, j) == Dispatch(true)
    ensures calls[j].authority.operationId > At(config, calls, i).receipt.value.authority.operationId
  {
    hide At, Next, AnswerTo, Inv, Evolves;
    StatesEvolve(config, calls, i, j);
    RevokedStays(At(config, calls, i), At(config, calls, j));
    AtIsValid(config, calls, j);
    DispatchMarksReceipt(At(config, calls, j), calls[j]);
  }

  lemma AcceptanceMarksReceipt(s: GateState, c: Call)
    requires Callable(s) && c.CallObserveOutput? && AnswerTo(s, c) == Evidence(Accepted)
    ensures s.receipt.Some? && s.receipt.value.authority == c.output.authority
    ensures !IsRevoked(s.receipt.value.control) && s.receipt.value.native.outcome == Succeeded
    ensures s.receipt.value.output.disposition == OutputPending
  {
  }

  /** Once an operation is revoked its output is never accepted. */
  lemma RevokedIsNeverDelivered(config: GateConfig, calls: seq<Call>, i: nat, j: nat)
    requires config.Valid() && i <= j < |calls|
    requires At(config, calls, i).receipt.Some? && IsRevoked(At(config, calls, i).receipt.value.control)
    requires calls[j].CallObserveOutput? && AnswerAt(config, calls, j) == Evidence(Accepted)
    ensures calls[j].output.authority.operationId > At(config, calls, i).receipt.value.authority.operationId
  {
    hide At, AnswerTo, Inv, Evolves;
    StatesEvolve(config, calls, i, j);
    RevokedStays(At(config, calls, i), At(config, calls, j));
    AcceptanceMarksReceipt(At(config, calls, j), calls[j]);
  }

  /** Dispatch and accepted output lie strictly before the deadline, expiry never before it. */
  lemma DeadlineIsRespected(config: GateConfig, calls: seq<Call>, i: nat)
    requires config.Valid() && i <= |calls| && At(config, calls, i).receipt.Some?
    requires At(config, calls, i).receipt.value.deadline.Some?
    ensures
      var r := At(config, calls, i).receipt.value;
      var deadline := r.deadline.value;
      && r.authority.admittedAt < deadline
      && (r.dispatch.status == Submitted ==> r.dispatch.at.Some? && r.dispatch.at.value < deadline)
      && (r.output.disposition == OutputAccepted ==>
            r.output.delivered.Some? && r.output.delivered.value.observedAt < deadline)
      && (r.control.expiredAt.Some? ==> r.control.expiredAt.value >= deadline)
  {
    hide At;
    AtIsValid(config, calls, i);
  }

  // ---------- Disposition ----------

  /** The cached disposition is the one the rest of the receipt determines. */
  lemma DispositionIsExact(config: GateConfig, calls: seq<Call>, i: nat)
    requires config.Valid() && i <= |calls| && At(config, calls, i).receipt.Some?
    ensures At(config, calls, i).receipt.value.disposition == DispositionOf(At(config, calls, i).receipt.value)
  {
    hide At, DispositionOf;
    AtIsValid(config, calls, i);
  }

  predicate IsTerminal(kind: NativeEventKind) {
    kind == TerminalSucceeded || kind == TerminalFailed || kind == TerminalCancelled
  }

  predicate IsReleased(s: GateState) {
    s.receipt.Some? && s.receipt.value.disposition == Released
  }

  /** Released work is reopened only by a terminal fact that contradicts the one it was released on. */
  lemma ReleaseIsLeftOnlyByConflict(s: GateState, c: Call)
    requires Inv(s) && IsReleased(s) && !IsReleased(Next(s, c))
    ensures c.CallAdmit? || (c.CallObserveNative? && IsTerminal(c.native.kind))
    ensures c.CallObserveNative? ==>
      && AnswerTo(s, c) == Evidence(Accepted) && TerminalCount(s.receipt.value.native) == 1
      && IsUnknown(Next(s, c))
  {
    hide Inv;
    if IsBindingCall(c) {
      BindingCallsKeepRelease(s, c);
    } else if c.CallObserveNative? {
      ConflictIsUnknown(s, c.native);
    } else if !c.CallAdmit? {
      OtherCallsKeepRelease(s, c);
    }
  }

  lemma BindingCallsKeepRelease(s: GateState, c: Call)
    requires Inv(s) && IsReleased(s) && IsBindingCall(c)
    ensures Next(s, c).receipt == s.receipt
  {
  }

  lemma OtherCallsKeepRelease(s: GateState, c: Call)
    requires Inv(s) && IsReleased(s) && !IsBindingCall(c) && !c.CallObserveNative? && !c.CallAdmit?
    ensures IsReleased(Next(s, c))
  {
  }

  lemma ConflictIsUnknown(s: GateState, e: NativeEvidence)
    requires Inv(s) && IsReleased(s) && !IsReleased(ObserveNative(s, e).0)
    ensures IsTerminal(e.kind) && ObserveNative(s, e).1 == Accepted
    ensures TerminalCount(s.receipt.value.native) == 1 && IsUnknown(ObserveNative(s, e).0)
  {
  }

  predicate IsUnknown(s: GateState) {
    s.receipt.Some? && s.receipt.value.disposition == BlockedUnknown
  }

  predicate OpensNothing(c: Call, answer: Answer) {
    match answer
    case Admission(d) => d.status != Admitted
    case Binding(d) => d.status == Applied ==> c.CallWithdraw?
    case _ => true
  }

  lemma UnknownBlocks(s: GateState, c: Call)
    requires Callable(s) && IsUnknown(s)
    ensures OpensNothing(c, AnswerTo(s, c))
  {
  }

  lemma UnknownStays(s: GateState, t: GateState)
    requires Evolves(s, t) && IsUnknown(s)
    ensures IsUnknown(t) && t.receipt.value.authority == s.receipt.value.authority
  {
  }

  /** An unknown outcome blocks admission, the beginning and the commit of a rebind in every continuation. */
  lemma UnknownBlocksForever(config: GateConfig, calls: seq<Call>, i: nat, j: nat)
    requires config.Valid() && i <= j < |calls| && IsUnknown(At(config, calls, i))
    ensures IsUnknown(At(config, calls, j))
    ensures At(config, calls, j).receipt.value.authority == At(config, calls, i).receipt.value.authority
    ensures OpensNothing(calls[j], AnswerAt(config, calls, j))
  {
    hide At, AnswerTo, Evolves;
    StatesEvolve(config, calls, i, j);
    UnknownStays(At(config, calls, i), At(config, calls, j));
    UnknownBlocks(At(config, calls, j), calls[j]);
  }

  // ---------- Fencing ----------

  ghost predicate OffersGeneration(config: GateConfig, calls: seq<Call>, i: nat, generation: U64)
    requires config.Valid() && i < |calls|
  {
    calls[i].CallBeginRebind? && Offers(AnswerAt(config, calls, i), generation)
  }

  predicate Offers(answer: Answer, generation: U64) {
    && answer.Binding? && answer.binding.status == Applied && answer.binding.candidate.Some?
    && answer.binding.candidate.value.providerGeneration == generation
  }

  lemma BeginTakesNextGeneration(s: GateState, c: Call, generation: U64)
    requires Inv(s) && c.CallBeginRebind? && Offers(AnswerTo(s, c), generation)
    ensures s.config.binding.providerGeneration <= s.generationHighWater < generation
    ensures Next(s, c).generationHighWater == generation
  {
    hide GateSpec.ObserveStartup, ObserveReadiness, ObserveCapabilities, CommitRebind, GateSpec.WithdrawBinding,
         GateSpec.Admit, GateSpec.ClaimDispatch, GateSpec.RequestCancel, GateSpec.ObserveTime,
         ObserveStopAcknowledgement, ObserveNonSubmission, ObserveNative, ObserveOutputAccepted,
         ObserveOutputNotDelivered, ObserveSettlement, CloseAdmission, LatestBindingTime, OldWorkClosed,
         ClosesOldScope;
  }

  lemma EvolutionKeepsHighWater(s: GateState, t: GateState)
    requires Evolves(s, t)
    ensures s.generationHighWater <= t.generationHighWater
    ensures s.config.binding.providerGeneration <= t.config.binding.providerGeneration
  {
  }

  lemma HighWaterCovers(config: GateConfig, calls: seq<Call>, i: nat, j: nat, g: U64)
    requires config.Valid() && i < j <= |calls| && OffersGeneration(config, calls, i, g)
    ensures config.binding.providerGeneration < g <= At(config, calls, j).generationHighWater
  {
    hide Next, AnswerTo, Inv, Evolves;
    StatesEvolve(config, calls, 0, i);
    EvolutionKeepsHighWater(At(config, calls, 0), At(config, calls, i));
    AtIsValid(config, calls, i);
    BeginTakesNextGeneration(At(config, calls, i), calls[i], g);
    NextState(config, calls, i);
    StatesEvolve(config, calls, i + 1, j);
    EvolutionKeepsHighWater(At(config, calls, i + 1), At(config, calls, j));
  }

  /** Offered generations strictly increase, so an abandoned one is never offered again. */
  lemma GenerationsIncrease(config: GateConfig, calls: seq<Call>, i: nat, j: nat, g: U64, h: U64)
    requires config.Valid() && i < j < |calls|
    requires OffersGeneration(config, calls, i, g) && OffersGeneration(config, calls, j, h)
    ensures config.binding.providerGeneration < g < h
  {
    hide At, Next, AnswerTo, Inv;
    HighWaterCovers(config, calls, i, j, g);
    AtIsValid(config, calls, j);
    BeginTakesNextGeneration(At(config, calls, j), calls[j], h);
  }

  lemma LatestTimeIgnoresHighWater(s: GateState, t: GateState)
    requires t == s.(generationHighWater := t.generationHighWater)
    ensures LatestBindingTime(s) == LatestBindingTime(t)
  {
    assert LiveRecords(s) == LiveRecords(t);
  }

  /**
   Exhaustion is reported instead of wrapping: exactly the rebinds that would begin if one more
   generation were left answer `IdentityExhausted`, and they change nothing.
   */
  lemma ExhaustionIsReported(s: GateState, b: BindingIdentity, p: string, e: BindingReadinessEvidence, now: U64)
    requires Callable(s) && s.generationHighWater == MAX_U64
    ensures BeginRebind(s, b, p, e, now).0 == s
    ensures BeginRebind(s, b, p, e, now).1.status == IdentityExhausted <==>
            BeginRebind(s.(generationHighWater := MAX_U64 - 1), b, p, e, now).1.status == Applied
  {
    LatestTimeIgnoresHighWater(s, s.(generationHighWater := MAX_U64 - 1));
  }

  /** The authority a control or evidence call is about. */
  function AuthorityOf(c: Call): Option<OperationAuthority> {
    match c
    case CallClaimDispatch(a, _) => Some(a)
    case CallRequestCancel(a, _) => Some(a)
    case CallObserveTime(a, _) => Some(a)
    case CallObserveStop(e) => Some(e.authority)
    case CallObserveNonSubmission(e) => Some(e.authority)
    case CallObserveNative(e) => Some(e.authority)
    case CallObserveOutput(e) => Some(e.authority)
    case CallObserveNonDelivery(e) => Some(e.authority)
    case CallObserveSettlement(e) => Some(e.authority)
    case _ => None
  }

  predicate IsRefusal(answer: Answer) {
    || answer == Evidence(Rejected) || answer == Dispatch(false)
    || answer == Control(ControlDecision(NoActiveOperation, false))
  }

  lemma StrangersAreRefused(s: GateState, c: Call)
    requires Callable(s) && AuthorityOf(c).Some?
    requires s.config.binding.providerGeneration != AuthorityOf(c).value.binding.providerGeneration
    ensures Next(s, c) == s && IsRefusal(AnswerTo(s, c)) && !CanDeliverResult(s, AuthorityOf(c).value)
  {
  }

  ghost predicate CommittedAt(config: GateConfig, calls: seq<Call>, j: nat)
    requires config.Valid() && j < |calls|
  {
    calls[j].CallCommit? && IsApplied(AnswerAt(config, calls, j))
  }

  predicate IsApplied(answer: Answer) {
    answer.Binding? && answer.binding.status == Applied
  }

  lemma CommitTakesCandidate(s: GateState, c: Call)
    requires Inv(s) && c.CallCommit? && IsApplied(AnswerTo(s, c))
    ensures Next(s, c).config.binding.providerGeneration > s.config.binding.providerGeneration
  {
  }

  lemma CommitMovesPast(config: GateConfig, calls: seq<Call>, i: nat, j: nat, k: nat)
    requires config.Valid() && i <= j < k <= |calls| && CommittedAt(config, calls, j)
    ensures At(config, calls, k).config.binding.providerGeneration
            > At(config, calls, i).config.binding.providerGeneration
  {
    hide At, Next, AnswerTo, Inv, Evolves;
    StatesEvolve(config, calls, i, j);
    EvolutionKeepsHighWater(At(config, calls, i), At(config, calls, j));
    AtIsValid(config, calls, j);
    CommitTakesCandidate(At(config, calls, j), calls[j]);
    NextState(config, calls, j);
    StatesEvolve(config, calls, j + 1, k);
    EvolutionKeepsHighWater(At(config, calls, j + 1), At(config, calls, k));
  }

  /**
   After a rebind is committed, no authority issued before it moves the gate again: every control
   and evidence call naming it is refused and changes nothing, in every continuation.
   */
  lemma CommitFencesOldAuthorities(config: GateConfig, calls: seq<Call>, i: nat, j: nat, k: nat,
                                   a: OperationAuthority)
    requires config.Valid() && i < j < k < |calls|
    requires AdmittedAs(config, calls, i, a) && CommittedAt(config, calls, j)
    requires AuthorityOf(calls[k]) == Some(a)
    ensures At(config, calls, k + 1) == At(config, calls, k) && IsRefusal(AnswerAt(config, calls, k))
    ensures !CanDeliverResult(At(config, calls, k), a)
  {
    hide At, Next, AnswerTo, CanDeliverResult;
    AdmissionConsumesIdentity(At(config, calls, i), calls[i], a);
    CommitMovesPast(config, calls, i, j, k);
    StrangersAreRefused(At(config, calls, k), calls[k]);
    NextState(config, calls, k);
  }

  // ---------- Binding time ----------

  lemma OnlyCloseClosesNow(s: GateState, c: Call)
    requires Callable(s) && s.phase != Closed && !c.CallCloseAdmission?
    ensures Next(s, c).phase != Closed
  {
  }

  lemma {:induction false} OnlyCloseCloses(config: GateConfig, calls: seq<Call>, i: nat)
    requires config.Valid() && i <= |calls|
    requires forall k :: 0 <= k < i ==> !calls[k].CallCloseAdmission?
    ensures At(config, calls, i).phase != Closed
  {
    hide Next;
    if i == 0 {
    } else {
      OnlyCloseCloses(config, calls, i - 1);
      NextState(config, calls, i - 1);
      OnlyCloseClosesNow(At(config, calls, i - 1), calls[i - 1]);
    }
  }

  /** Until admission is closed, the latest binding time never decreases. */
  lemma BindingTimeNeverDecreases(config: GateConfig, calls: seq<Call>, i: nat, j: nat)
    requires config.Valid() && i <= j <= |calls|
    requires forall k :: 0 <= k < j ==> !calls[k].CallCloseAdmission?
    ensures LatestBindingTime(At(config, calls, i)) <= LatestBindingTime(At(config, calls, j))
  {
    hide At, LatestBindingTime, BindingAdvances, ReceiptAdvances;
    StatesEvolve(config, calls, i, j);
    OnlyCloseCloses(config, calls, j);
  }

  predicate IsAfter(record: Option<EvidenceRecord>, time: U64) {
    record.Some? && record.value.observedAt > time
  }

  /**
   Closing admission drops the candidate without recording a control time, so it takes the latest
   binding time back exactly when some evidence about the candidate is later than all else.
   */
  lemma ClosingForgetsCandidateTime(s: GateState)
    ensures LatestBindingTime(CloseAdmission(s)) < LatestBindingTime(s) <==>
              && s.candidate.Some?
              && var c, live := s.candidate.value, LatestLiveTime(s);
                || IsAfter(ReadinessRecord(c.idle), live) || IsAfter(ReadinessRecord(c.worker), live)
                || IsAfter(ReadinessRecord(c.sink), live) || IsAfter(CapabilitiesRecord(c.capabilities), live)
  {
    assert LiveRecords(CloseAdmission(s)) == LiveRecords(s);
    if s.candidate.Some? {
      var records := CandidateRecords(s.candidate.value);
      LatestOfIsLeast(LatestLiveTime(s), records, LatestLiveTime(s));
      assert
        && records[0] == ReadinessRecord(s.candidate.value.idle)
        && records[1] == ReadinessRecord(s.candidate.value.worker)
        && records[2] == ReadinessRecord(s.candidate.value.sink)
        && records[3] == CapabilitiesRecord(s.candidate.value.capabilities);
    }
  }

  const EXAMPLE_BINDING := BindingIdentity("provider", "domain", 1, 1)

  const EXAMPLE_CONFIG :=
    GateConfig(EXAMPLE_BINDING, "capability", "observer", "worker", "sink", "native", "settlement", "scope", 0,
               "stop", WorkerReady, "")

  /** Evidence dated 9 arrives for a candidate prepared at 2, and admission is closed. */
  const EXAMPLE_CALLS := [
    CallWithdraw(EXAMPLE_BINDING, 1),
    CallBeginRebind(EXAMPLE_BINDING, "next",
                    BindingReadinessEvidence(BindingIdleAndSettled, EXAMPLE_BINDING,
                                             EvidenceRecord("observer", 2, 1), true, 100), 2),
    CallObserveReadiness(BindingReadinessEvidence(BindingIdleAndSettled,
                                                  EXAMPLE_BINDING.(providerId := "next", providerGeneration := 2),
                                                  EvidenceRecord("observer", 9, 2), true, 100)),
    CallCloseAdmission]

  lemma ExampleIsWithdrawn()
    ensures EXAMPLE_CONFIG.Valid()
    ensures At(EXAMPLE_CONFIG, EXAMPLE_CALLS, 1)
            == InitialGate(EXAMPLE_CONFIG).(lastBindingControlAt := 1, phase := Withdrawn, withdrawnAt := Some(1))
  {
    NextState(EXAMPLE_CONFIG, EXAMPLE_CALLS, 0);
    assert At(EXAMPLE_CONFIG, EXAMPLE_CALLS, 0) == InitialGate(EXAMPLE_CONFIG);
    var s := InitialGate(EXAMPLE_CONFIG);
    assert LatestBindingTime(s) == 0 by { LatestOfIsLeast(0, LiveRecords(s), 0); }
  }

  lemma ExampleIsPreparing()
    ensures var s := At(EXAMPLE_CONFIG, EXAMPLE_CALLS, 2);
      && s.phase == Preparing && s.config == EXAMPLE_CONFIG && LatestLiveTime(s) == 2
      && s.candidate == Some(Candidate(EXAMPLE_BINDING.(providerId := "next", providerGeneration := 2), 2,
                                       EXAMPLE_CALLS[1].closure, NO_READINESS, NO_READINESS, NO_READINESS,
                                       None, false))
  {
    hide Run, At;
    ExampleIsWithdrawn();
    NextState(EXAMPLE_CONFIG, EXAMPLE_CALLS, 1);
    var s := At(EXAMPLE_CONFIG, EXAMPLE_CALLS, 1);
    LatestOfIsLeast(1, LiveRecords(s), 1);
    LatestOfIsLeast(2, LiveRecords(s), 2);
    LatestBindingTimeIsLatest(At(EXAMPLE_CONFIG, EXAMPLE_CALLS, 2));
  }

  /** Evidence the example's candidate accepts, three calls into the run. */
  lemma ExampleEvidenceIsTaken()
    ensures var s := At(EXAMPLE_CONFIG, EXAMPLE_CALLS, 3);
      && s.candidate.Some? && IsAfter(ReadinessRecord(s.candidate.value.idle), LatestLiveTime(s))
  {
    hide Run, At, LatestLiveTime;
    ExampleIsPreparing();
    NextState(EXAMPLE_CONFIG, EXAMPLE_CALLS, 2);
    var s, t := At(EXAMPLE_CONFIG, EXAMPLE_CALLS, 2), At(EXAMPLE_CONFIG, EXAMPLE_CALLS, 3);
    assert t == ObserveReadiness(s, EXAMPLE_CALLS[2].readiness).0;
    SameLiveTime(s, t);
  }

  lemma SameLiveTime(s: GateState, t: GateState)
    requires t == s.(candidate := t.candidate)
    ensures LatestLiveTime(s) == LatestLiveTime(t)
  {
    assert LiveRecords(s) == LiveRecords(t);
  }

  /** A run in which the latest binding time falls when admission is closed. */
  lemma ClosingTakesTimeBack()
    ensures EXAMPLE_CONFIG.Valid()
    ensures LatestBindingTime(At(EXAMPLE_CONFIG, EXAMPLE_CALLS, 4))
            < LatestBindingTime(At(EXAMPLE_CONFIG, EXAMPLE_CALLS, 3))
  {
    hide Run, At, LatestBindingTime, LatestLiveTime;
    ExampleEvidenceIsTaken();
    NextState(EXAMPLE_CONFIG, EXAMPLE_CALLS, 3);
    ClosingForgetsCandidateTime(At(EXAMPLE_CONFIG, EXAMPLE_CALLS, 3));
  }
}
