/**
 Every function of SampleSpec keeps the sample host's invariant, and taking events lightens what is left
 to process although an event may stage more.
 */
module SampleSteps {
  import opened Machine
  import opened GateTypes
  import opened GateSpec
  import opened GateInvariant
  import opened GateEffects
  import opened GateCalls
  import opened SampleSpec
  import opened SampleInvariant

  // ---------- Delivering ----------

  lemma StopAnswerKeepsRevocation(g: GateState, e: StopAcknowledgementEvidence)
    requires HasRevoked(g)
    ensures HasRevoked(ObserveStopAcknowledgement(g, e).0)
  {
    hide IsWellFormed;
  }

  predicate HasRevoked(g: GateState) {
    g.receipt.Some? && IsRevoked(g.receipt.value.control)
  }

  lemma StopKeepsRevocation(s: SampleState, authority: OperationAuthority)
    requires HasRevoked(s.gate)
    ensures HasRevoked(StopWork(s, authority).gate)
  {
    hide ObserveStopAcknowledgement, Stopped, StopAnswer, HasRevoked, Callable;
    var acknowledgement := StopAnswer(s.adapter, authority);
    if acknowledgement.Some? {
      var u := Read(s.(adapter := Stopped(s.adapter, authority)));
      StopAnswerKeepsRevocation(u.gate, StopAcknowledgementEvidence(authority, acknowledgement.value,
                                                                    EvidenceRecord(STOP, u.now, 1)));
    }
  }

  lemma ControlKeepsRevocation(s: SampleState, authority: OperationAuthority, d: ControlDecision)
    requires SampleInv(s) && HasRevoked(s.gate)
    ensures HasRevoked(ApplyControl(s, authority, d).gate)
  {
    hide SampleInv, DiscardPrepared, HasRevoked, StopWork, Quietly;
    DiscardKeeps(s);
    var named := s.prepared.Some? && s.prepared.value.operationId == authority.operationId;
    StopKeepsRevocation(if named then DiscardPrepared(s) else s, authority);
  }

  lemma ExpiryRevokes(g: GateState, a: OperationAuthority, at: U64)
    ensures var (h, d) := GateSpec.ObserveTime(g, a, at);
      if d.status == ControlApplied then HasRevoked(h) else h == g
  {
    hide LatestTime, DispositionOf;
  }

  lemma TimeIsAsked(s: SampleState, a: OperationAuthority)
    requires SampleInv(s)
    ensures var c := CallObserveTime(a, s.now);
      && Asked(s.gate, c) == GateSpec.ObserveTime(s.gate, a, s.now).0
      && AnswerOf(s.gate, c) == Control(GateSpec.ObserveTime(s.gate, a, s.now).1)
      && Leads(s, Ask(s, c))
  {
    hide Inv, GateSpec.ObserveTime, Asked, AnswerOf, Leads;
    TimeAsked(s.gate, a, s.now);
    AskKeeps(s, CallObserveTime(a, s.now));
  }

  lemma AppliedExpiryRevokes(s: SampleState)
    requires SampleInv(s) && s.current.Some?
    ensures var d := GateSpec.ObserveTime(s.gate, s.current.value, s.now).1;
      if d.status == ControlApplied then HasRevoked(ObserveAt(s, s.now).gate) else ObserveAt(s, s.now) == s
  {
    hide SampleInv, GateSpec.ObserveTime, HasRevoked, ApplyControl, Asked, AnswerOf;
    var a := s.current.value;
    var c := CallObserveTime(a, s.now);
    ExpiryRevokes(s.gate, a, s.now);
    TimeIsAsked(s, a);
    var d := GateSpec.ObserveTime(s.gate, a, s.now).1;
    WhatLeads(s, Ask(s, c));
    if d.status == ControlApplied {
      ControlKeepsRevocation(Ask(s, c), a, d);
    } else {
      UnappliedControl(Ask(s, c), a, d);
    }
  }

  lemma UnappliedControl(s: SampleState, authority: OperationAuthority, d: ControlDecision)
    requires d.status != ControlApplied
    ensures ApplyControl(s, authority, d) == s
  {
  }

  /** Whatever may still be delivered once the time has been looked at is in time, and nothing has changed. */
  lemma DeliverableNow(s: SampleState, authority: OperationAuthority)
    requires SampleInv(s) && CanDeliverResult(ObserveAt(s, s.now).gate, authority)
    ensures ObserveAt(s, s.now) == s && s.current == Some(authority) && !HasReachedDeadline(s.gate.receipt.value, s.now)
  {
    hide ObserveAt, GateSpec.ObserveTime, Inv, GateEndsBy, AllAnswer, SinkAgrees, HistoryEnds;
    ExpiryKeepsAgreement(s);
    if s.current.Some? {
      var a := s.current.value;
      AppliedExpiryRevokes(s);
      ExpiryRevokes(s.gate, a, s.now);
      if GateSpec.ObserveTime(s.gate, a, s.now).1.status != ControlApplied { DeliverableIsInTime(s.gate, a, s.now); }
    }
  }

  lemma ExpiryKeepsAgreement(s: SampleState)
    requires SampleInv(s)
    ensures AuthorityAgrees(ObserveAt(s, s.now)) && ObserveAt(s, s.now).current == s.current && AuthorityAgrees(s)
  {
    hide ObserveAt;
    ObserveAtKeeps(s, s.now);
  }

  lemma OutputOffer(g: GateState, authority: OperationAuthority, now: U64)
    requires GateFits(g, now) && CanDeliverResult(g, authority) && !HasReachedDeadline(g.receipt.value, now)
    ensures var c := CallObserveOutput(OutputEvidence(authority, ResultReference(authority.operationId),
                                                      EvidenceRecord(SINK, now, 1)));
      var h := Asked(g, c);
      && GateFits(h, now) && (h.phase == Preparing ==> g.phase == Preparing) && h.receipt.Some?
      && h.receipt.value.authority == g.receipt.value.authority && IsAccepted(h)
  {
    hide InTime, ObserveOutputAccepted, CanDeliverResult, Decimal, Callable;
    var e := OutputEvidence(authority, ResultReference(authority.operationId), EvidenceRecord(SINK, now, 1));
    CallFits(g, CallObserveOutput(e), now);
    OfferIsAccepted(g, e, now);
    OutputEffects(g, e);
    OnlyBeginPrepares(g, CallObserveOutput(e));
  }

  lemma AppendKeepsOrder(results: seq<SampleResult>, r: SampleResult)
    requires IsOrdered(results) && (results != [] ==> results[|results| - 1].operationId < r.operationId)
    ensures IsOrdered(results + [r])
  {
    var all := results + [r];
    forall i, j | 0 <= i < j < |all| ensures all[i].operationId < all[j].operationId {
      assert j < |results| || i <= |results| - 1;
    }
  }

  /** A result is stored, and accepted in the same breath. */
  lemma AcceptKeeps(s: SampleState, authority: OperationAuthority, r: SampleResult)
    requires SampleInv(s) && Answers(r, s.history) && r.operationId == authority.operationId
    requires CanDeliverResult(s.gate, authority) && !HasReachedDeadline(s.gate.receipt.value, s.now)
             && !s.adapter.closed
    ensures Leads(s, ReportAcceptance(Store(s, r, ResultAccepted), authority, ResultAccepted, s.now))
  {
    hide GateFits, Asked, Answers, CallbackAnswers, IsOrdered, Decimal;
    OutputOffer(s.gate, authority, s.now);
    AppendKeepsOrder(s.adapter.results, r);
  }

  lemma DenialKeeps(s: SampleState, r: SampleResult, acceptance: Acceptance)
    requires SampleInv(s) && acceptance != ResultAccepted
    ensures Quietly(s, Store(s, r, acceptance))
  {
    hide SampleInv, Stays, Denied, SameAdapter;
    StandingStill(s);
    DeniedIsSame(s.adapter);
    SameAdapterKeeps(s, Denied(s.adapter));
  }

  lemma ReportDenialKeeps(s: SampleState, authority: OperationAuthority, acceptance: Acceptance, time: U64)
    requires SampleInv(s) && acceptance != ResultAccepted && time <= s.now
    ensures Quietly(s, ReportAcceptance(s, authority, acceptance, time))
  {
    hide SampleInv, Stays, Asked, Decimal;
    StandingStill(s);
    var record := EvidenceRecord(SINK, time, 1);
    var reference := ResultReference(authority.operationId);
    AskKeeps(s, CallObserveNonDelivery(NonDeliveryEvidence(authority, SinkRejected, reference, record)));
    AskKeeps(s, CallObserveNonDelivery(NonDeliveryEvidence(authority, AuthorityRevoked, reference, record)));
  }

  /** A step that may deliver, but adds nothing to what is left to process. */
  ghost predicate Delivers(s: SampleState, t: SampleState) {
    Leads(s, t) && Weight(t) <= Weight(s)
  }

  lemma DeliversOn(s: SampleState, t: SampleState, u: SampleState)
    requires (Quietly(s, t) || Delivers(s, t)) && Delivers(t, u)
    ensures Delivers(s, u)
  {
    hide Leads, Weight;
    LeadsOn(s, t, u);
  }

  lemma TakeResultKeeps(s: SampleState, c: Callback)
    requires SampleInv(s) && CallbackAnswers(c, s.history)
    ensures Delivers(s, TakeResult(s, c))
  {
    StandingStill(s);
    if c.result.Some? {
      ReadKeeps(s);
      var t := Read(s);
      ObserveAtKeeps(t, t.now);
      var u := ObserveAt(t, t.now);
      var r := c.result.value;
      var acceptance := AcceptanceOf(u, c.authority, r);
      if acceptance == ResultAccepted { DeliverableNow(t, c.authority); }
      assert Quietly(s, t);
      WhatLeads(s, t);
      ResultTaken(t, u, c, acceptance);
      DeliversOn(s, t, TakeResult(s, c));
    }
  }

  lemma ResultTaken(t: SampleState, u: SampleState, c: Callback, acceptance: Acceptance)
    requires SampleInv(t) && Quietly(t, u) && c.result.Some? && CallbackAnswers(c, t.history)
    requires acceptance == AcceptanceOf(u, c.authority, c.result.value)
    requires acceptance == ResultAccepted ==> u == t && !HasReachedDeadline(t.gate.receipt.value, t.now)
    ensures Delivers(t, ReportAcceptance(Store(u, c.result.value, acceptance), c.authority, acceptance, t.now))
  {
    WhatLeads(t, u);
    if acceptance == ResultAccepted {
      AcceptKeeps(t, c.authority, c.result.value);
    } else {
      DenialKeeps(u, c.result.value, acceptance);
      var v := Store(u, c.result.value, acceptance);
      WhatLeads(u, v);
      ReportDenialKeeps(v, c.authority, acceptance, t.now);
      QuietlyOn(t, u, v);
      QuietlyOn(t, v, ReportAcceptance(v, c.authority, acceptance, t.now));
    }
  }

  lemma TakeSettlementKeeps(s: SampleState, c: Callback)
    requires SampleInv(s)
    ensures Quietly(s, TakeSettlement(s, c))
  {
    hide SampleInv, Look, Asked;
    LookKeeps(s);
    var (t, time) := Look(s);
    var call := CallObserveSettlement(SettlementEvidence(c.authority, SCOPE, true,
                                                         EvidenceRecord(ADAPTER, time, c.sequence)));
    AskKeeps(t, call);
    assert Quietly(t, Ask(t, call));
    QuietlyOn(s, t, Ask(t, call));
  }

  lemma TakeEventKeeps(s: SampleState, e: Staged)
    requires SampleInv(s) && IsGood(e, s.history, s.now)
    ensures Delivers(s, TakeEvent(s, e))
  {
    hide SampleInv, TakeResult, TakeSettlement, Asked, CallbackAnswers, Stays;
    var c := e.callback;
    match c.kind
    case ResultCallback => TakeResultKeeps(s, c);
    case SettledCallback => TakeSettlementKeeps(s, c);
    case NotSubmittedCallback =>
      AskKeeps(s, CallObserveNonSubmission(NonSubmissionEvidence(c.authority,
                                                                 EvidenceRecord(ADAPTER, e.at, c.sequence))));
    case NoOutputCallback =>
      AskKeeps(s, CallObserveNonDelivery(NonDeliveryEvidence(c.authority, NoOutputProduced, "",
                                                             EvidenceRecord(ADAPTER, e.at, c.sequence))));
    case _ =>
      AskKeeps(s, CallObserveNative(NativeEvidence(c.authority, c.identity, NativeKind(c.kind).value,
                                                   EvidenceRecord(WORKER, e.at, c.sequence))));
  }

  // ---------- Processing ----------

  lemma PopKeeps(s: SampleState)
    requires SampleInv(s) && s.staged != []
    ensures Delivers(s, s.(staged := s.staged[1..])) && Weight(s.(staged := s.staged[1..])) == Weight(s) - 1
    ensures IsGood(s.staged[0], s.history, s.now)
  {
    hide GateFits, IsGood, Answers, IsOrdered;
  }

  /** Every event taken lightens what is left, even where it stages more. */
  lemma ProcessNextKeeps(s: SampleState)
    requires SampleInv(s)
    ensures var (t, took) := ProcessNext(s);
      Leads(s, t) && (if took then Weight(t) < Weight(s) else t.staged == [] && Quietly(s, t))
  {
    hide SampleInv, PollSample, TakeEvent, Stays, IsGood;
    PollKeeps(s);
    var p := PollSample(s);
    if p.staged != [] {
      WhatLeads(s, p);
      PopKeeps(p);
      var q := p.(staged := p.staged[1..]);
      WhatLeads(p, q);
      PopKeepsHistory(p);
      TakeEventKeeps(q, p.staged[0]);
      DeliversOn(p, q, TakeEvent(q, p.staged[0]));
      DeliversOn(s, p, TakeEvent(q, p.staged[0]));
    }
  }

  lemma PopKeepsHistory(s: SampleState)
    requires s.staged != []
    ensures var t := s.(staged := s.staged[1..]);
            IsGood(s.staged[0], t.history, t.now) == IsGood(s.staged[0], s.history, s.now)
  {
  }

  /** Events are taken until none is left. */
  function ProcessAll(s: SampleState): SampleState
    requires SampleInv(s)
    decreases Weight(s)
  {
    ProcessNextKeeps(s);
    var (t, took) := ProcessNext(s);
    if took then ProcessAll(t) else t
  }

  lemma {:induction false} ProcessAllKeeps(s: SampleState)
    requires SampleInv(s)
    ensures Leads(s, ProcessAll(s)) && ProcessAll(s).staged == []
    decreases Weight(s)
  {
    hide SampleInv, ProcessNext, Stays;
    ProcessNextKeeps(s);
    var (t, took) := ProcessNext(s);
    if took {
      ProcessAllKeeps(t);
      LeadsOn(s, t, ProcessAll(t));
    }
  }

  // ---------- Preparing ----------

  /** The gate just after an admission. */
  ghost predicate HasAdmitted(g: GateState, h: GateState, a: OperationAuthority, now: U64) {
    && GateFits(h, now) && h.phase != Preparing && h.receipt.Some? && h.receipt.value.authority == a && !IsAccepted(h)
    && (g.receipt.Some? ==> g.receipt.value.authority.operationId < a.operationId)
  }

  lemma AdmissionIsNext(g: GateState, q: OperationRequest)
    requires Inv(g) && Admit(g, q).1.authority.Some? && g.receipt.Some?
    ensures g.receipt.value.authority.operationId < Admit(g, q).1.authority.value.operationId
  {
    hide SupportsExecution, LatestTime, IsReleasable;
  }

  lemma AdmissionAdmits(g: GateState, q: OperationRequest, now: U64)
    requires GateFits(g, now) && q.requestedAt <= now && Admit(g, q).1.authority.Some?
    ensures HasAdmitted(g, Asked(g, CallAdmit(q)), Admit(g, q).1.authority.value, now)
  {
    hide Inv, GateEndsBy, Callable, GateSpec.Admit;
    AdmissionEffects(g, q);
    CallFits(g, CallAdmit(q), now);
    if g.receipt.Some? { AdmissionIsNext(g, q); }
  }

  lemma AnswersStay(r: SampleResult, history: map<U64, SampleRequest>, id: U64, q: SampleRequest)
    requires Answers(r, history) && id !in history
    ensures Answers(r, history[id := q])
  {
  }

  lemma GoodStays(e: Staged, history: map<U64, SampleRequest>, now: U64, id: U64, q: SampleRequest)
    requires IsGood(e, history, now) && id !in history
    ensures IsGood(e, history[id := q], now)
  {
  }

  lemma TakeUpAnswers(s: SampleState, a: OperationAuthority, q: SampleRequest)
    requires AllAnswer(s) && a.operationId !in s.history
    ensures AllAnswer(TakeUp(s, a, q))
  {
    hide IsGood;
    var t := TakeUp(s, a, q);
    forall k | 0 <= k < |t.staged| ensures IsGood(t.staged[k], t.history, t.now) {
      GoodStays(s.staged[k], s.history, s.now, a.operationId, q);
    }
    forall k | 0 <= k < |t.adapter.results| ensures Answers(t.adapter.results[k], t.history) {
      AnswersStay(s.adapter.results[k], s.history, a.operationId, q);
    }
  }

  lemma TakeUpKeeps(s: SampleState, g: GateState, a: OperationAuthority, q: SampleRequest)
    requires SampleInv(s) && HasAdmitted(s.gate, g, a, s.now)
    ensures SampleInv(TakeUp(s.(gate := g), a, q)) && a.operationId !in s.history
  {
    hide GateFits, AllAnswer, IsOrdered;
    assert a.operationId !in s.history;
    SameAnswers(s, s.(gate := g));
    TakeUpAnswers(s.(gate := g), a, q);
  }

  /** What becomes of a request put to the gate: it is the operation in hand, or nothing has changed. */
  ghost predicate Prepares(s: SampleState, t: SampleState, d: SampleSubmission, q: SampleRequest) {
    && SampleInv(t) && t.adapter.results == s.adapter.results && t.now >= s.now && t.isShutdown == s.isShutdown
    && (d.authority.None? ==> Leads(s, t))
    && (d.authority.Some? ==>
          && t.gate.phase != Preparing && t.current == d.authority
          && d.authority.value.operationId !in s.history && t.history == s.history[d.authority.value.operationId := q])
  }

  lemma AdmissionKeeps(s: SampleState, q: SampleRequest, at: U64)
    requires SampleInv(s) && at <= s.now && GateSpec.Admit(s.gate, OperationFor(q, at)).1.authority.Some?
    ensures var a := GateSpec.Admit(s.gate, OperationFor(q, at)).1.authority.value;
      var t := TakeUp(Ask(s, CallAdmit(OperationFor(q, at))), a, q);
      SampleInv(t) && t.gate.phase != Preparing && a.operationId !in s.history
  {
    var a := GateSpec.Admit(s.gate, OperationFor(q, at)).1.authority.value;
    AdmissionAdmits(s.gate, OperationFor(q, at), s.now);
    TakeUpKeeps(s, Asked(s.gate, CallAdmit(OperationFor(q, at))), a, q);
  }

  lemma OfferKeeps(s: SampleState, q: SampleRequest)
    requires SampleInv(s)
    ensures Prepares(s, Offer(s, q).0, Offer(s, q).1, q)
  {
    hide SampleInv, Look, Asked, GateSpec.Admit, SinkGrows;
    LookKeeps(s);
    var (t, time) := Look(s);
    AdmissionEffects(t.gate, OperationFor(q, time));
    WhatLeads(s, t);
    if GateSpec.Admit(t.gate, OperationFor(q, time)).1.authority.Some? {
      AdmissionKeeps(t, q, time);
    } else {
      RefusedIsSame(t, OperationFor(q, time));
    }
  }

  lemma RefusedIsSame(s: SampleState, q: OperationRequest)
    requires Admit(s.gate, q).0 == s.gate
    ensures Ask(s, CallAdmit(q)) == s
  {
    hide GateSpec.Admit;
  }

  /** A request that is admitted becomes the operation in hand; otherwise nothing is delivered and little changes. */
  lemma PrepareKeeps(s: SampleState, q: SampleRequest)
    requires SampleInv(s)
    ensures Prepares(s, Prepare(s, q).0, Prepare(s, q).1, q)
  {
    hide SampleInv, PollSample, Offer, SinkGrows, IsRequest;
    PollKeeps(s);
    var p := PollSample(s);
    WhatLeads(s, p);
    if IsRequest(q) {
      OfferKeeps(p, q);
      if Offer(p, q).1.authority.None? { LeadsOn(s, p, Offer(p, q).0); }
    }
  }

  // ---------- Dispatching ----------

  lemma EmitResultKeeps(s: SampleState, w: WorkItem)
    requires SampleInv(s) && WorkAnswers(w, s.history)
    ensures Leads(s, EmitResult(s, w))
  {
    assert Answers(ResultOf(w.authority.operationId, w.request), s.history);
    EmitKeeps(s, w, SucceededCallback, 3, None);
    var t := EmitPlain(s, w, SucceededCallback, 3);
    WhatLeads(s, t);
    var r := ResultOf(w.authority.operationId, w.request);
    EmitKeeps(t, w, ResultCallback, 4, Some(r));
    var u := Emit(t, w, ResultCallback, 4, Some(r));
    WhatLeads(t, u);
    EmitKeeps(u, w, SettledCallback, 5, None);
    LeadsThrice(s, t, u, EmitResult(s, w));
  }

  lemma FinishStartedKeeps(s: SampleState, w: WorkItem)
    requires SampleInv(s) && WorkAnswers(w, s.history)
    ensures Leads(s, FinishStarted(s, w))
  {
    if s.adapter.failNext {
      var t := s.(adapter := s.adapter.(failNext := false));
      AdapterStepKeeps(s, t.adapter);
      WhatLeads(s, t);
      EmitWithoutOutputKeeps(t, w, FailedCallback, 3);
      LeadsOn(s, t, EmitWithoutOutput(t, w, FailedCallback, 3));
    } else {
      EmitResultKeeps(s, w);
    }
  }

  lemma CountsKeep(s: SampleState)
    requires SampleInv(s)
    ensures Leads(s, CountExecution(s)) && Leads(s, CountSubmission(s))
    ensures CountExecution(s).history == CountSubmission(s).history == s.history
  {
    AdapterStepKeeps(s, CountExecution(s).adapter);
    AdapterStepKeeps(s, CountSubmission(s).adapter);
  }

  lemma FinishWorkKeeps(s: SampleState, w: WorkItem)
    requires SampleInv(s) && WorkAnswers(w, s.history)
    ensures Leads(s, FinishWork(s, w))
  {
    hide SampleInv, Emit, EmitWithoutOutput, FinishStarted, CountExecution, WorkAnswers;
    if w.cancelled {
      EmitWithoutOutputKeeps(s, w, CancelledCallback, 2);
    } else {
      CountsKeep(s);
      var t := CountExecution(s);
      WhatLeads(s, t);
      EmitKeeps(t, w, StartedCallback, 2, None);
      var u := EmitPlain(t, w, StartedCallback, 2);
      WhatLeads(t, u);
      FinishStartedKeeps(u, w);
      LeadsThrice(s, t, u, FinishWork(s, w));
    }
  }

  lemma FinishPendingKeeps(s: SampleState)
    requires SampleInv(s)
    ensures Leads(s, FinishPending(s))
  {
    StandingStill(s);
    if s.adapter.pending.Some? {
      AdapterStepKeeps(s, s.adapter.(pending := None));
      var t := s.(adapter := s.adapter.(pending := None));
      assert WorkAnswers(s.adapter.pending.value, t.history);
      WhatLeads(s, t);
      FinishWorkKeeps(t, s.adapter.pending.value);
      LeadsOn(s, t, FinishPending(s));
    }
  }

  lemma RejectKeeps(s: SampleState, w: WorkItem)
    requires SampleInv(s)
    ensures Leads(s, Reject(s, w))
  {
    var t := s.(adapter := s.adapter.(rejectNext := false));
    AdapterStepKeeps(s, t.adapter);
    WhatLeads(s, t);
    EmitWithoutOutputKeeps(t, w, RejectedCallback, 1);
    LeadsOn(s, t, Reject(s, w));
  }

  lemma HoldOrFinishKeeps(s: SampleState, w: WorkItem)
    requires SampleInv(s) && WorkAnswers(w, s.history)
    ensures Leads(s, HoldOrFinish(s, w))
  {
    if s.adapter.deferred { AdapterStepKeeps(s, s.adapter.(pending := Some(w))); } else { FinishWorkKeeps(s, w); }
  }

  lemma StartWorkKeeps(s: SampleState, w: WorkItem)
    requires SampleInv(s) && WorkAnswers(w, s.history)
    ensures Leads(s, StartWork(s, w))
  {
    hide SampleInv, Emit, Reject, HoldOrFinish, CountSubmission, WorkAnswers;
    CountsKeep(s);
    var t := CountSubmission(s);
    WhatLeads(s, t);
    RejectKeeps(t, w);
    EmitKeeps(t, w, AcceptedCallback, 1, None);
    var u := EmitPlain(t, w, AcceptedCallback, 1);
    WhatLeads(t, u);
    HoldOrFinishKeeps(u, w);
    if t.adapter.rejectNext { LeadsOn(s, t, Reject(t, w)); } else { LeadsThrice(s, t, u, HoldOrFinish(u, w)); }
  }

  lemma PermitKeeps(s: SampleState, authority: OperationAuthority)
    requires SampleInv(s)
    ensures Quietly(s, Permit(s, authority).0)
  {
    hide SampleInv, Look, Asked, ClaimDispatch;
    LookKeeps(s);
    var (t, time) := Look(s);
    AskKeeps(t, CallClaimDispatch(authority, time));
    assert Quietly(t, Permit(s, authority).0);
    QuietlyOn(s, t, Permit(s, authority).0);
  }

  lemma DispatchWorkKeeps(s: SampleState, authority: OperationAuthority, q: SampleRequest)
    requires SampleInv(s) && WorkAnswers(WorkFor(authority, q), s.history)
    ensures Leads(s, DispatchWork(s, authority, q).0)
  {
    hide SampleInv, EmitUnsubmitted, Permit, StartWork, WorkFor, WorkAnswers, Stays;
    var w := WorkFor(authority, q);
    EmitUnsubmittedKeeps(s, w);
    PermitKeeps(s, authority);
    var t := Permit(s, authority).0;
    WhatLeads(s, t);
    SameHistory(s, t);
    EmitUnsubmittedKeeps(t, w);
    LeadsOn(s, t, EmitUnsubmitted(t, w));
    StartWorkKeeps(t, w);
    LeadsOn(s, t, StartWork(t, w));
  }

  lemma SameHistory(s: SampleState, t: SampleState)
    requires Leads(s, t)
    ensures s.history == t.history
  {
    hide SampleInv;
  }
}
