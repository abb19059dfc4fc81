/**
 What becomes of a request whose work the adapter holds until it is asked to complete it: the gate has heard that it
 was accepted and no more, a cancellation reaches it if and only if the adapter cooperates, and completing it tells
 the rest of its story to the end.
 */
module SampleDeferred {
  import opened Machine
  import opened GateTypes
  import opened GateSpec
  import opened GateInvariant
  import opened GateEffects
  import GL = GateLaws
  import GE = GateEvidence
  import opened SampleSpec
  import opened SampleInvariant
  import opened SampleSteps
  import opened SampleRuns
  import opened SampleService
  import opened SampleRequests

  /** The adapter holds accepted work, which would come to this end, and nothing else is on its way. */
  ghost predicate IsHolding(s: SampleState, w: WorkItem, o: Ending) {
    && SampleInv(s) && HasHeard(s.gate, w, o, 1) && o == EndingOf(s, w) && s.staged == []
    && s.current == Some(w.authority) && s.prepared.None? && s.adapter.pending == Some(w) && IsServing(s.adapter)
    && IsBeforeDeadline(s)
  }

  // ---------- Dispatching ----------

  /** A valid host's gate listens. */
  lemma GateListens(s: SampleState)
    requires SampleInv(s)
    ensures Listens(s.gate, s.now)
  {
    hide GateFits, AllAnswer, SinkAgrees;
  }

  /** Work that is kept for later stages that it was accepted. */
  lemma KeepingStages(s: SampleState, w: WorkItem)
    requires IsServing(s.adapter) && s.adapter.deferred && !s.adapter.rejectNext && s.staged == []
    ensures var t := StartWork(s, w);
      && t.staged == [Staged(Callback(AcceptedCallback, w.authority, w.identity, 1, None), t.now)] && t.now >= s.now
      && t.gate == s.gate && t.current == s.current && t.prepared == s.prepared && t.adapter.pending == Some(w)
      && t.adapter == s.adapter.(pending := Some(w), counts := t.adapter.counts, replay := t.adapter.replay)
      && (IsBeforeDeadline(s) ==> IsBeforeDeadline(t))
  {
    hide Emit, IsBeforeDeadline;
    var c := CountSubmission(s);
    SameDeadline(s, c);
    EmitStages(c, w, AcceptedCallback, 1, None);
    SameDeadline(EmitPlain(c, w, AcceptedCallback, 1), StartWork(s, w));
  }

  /** The gate hears that the work was accepted. */
  lemma AcceptanceIsTaken(s: SampleState, w: WorkItem, o: Ending, e: Staged)
    requires Listens(s.gate, s.now) && HasHeard(s.gate, w, o, 0) && o != Rejection && IsPart(e, w, o, 0)
    requires s.gate.receipt.Some? && IsUntouched(s.gate.receipt.value.control)
    requires s.gate.receipt.value.dispatch.at.Some? && e.at >= s.gate.receipt.value.dispatch.at.value
    requires s.gate.lastNativeRecord.None? && IsBeforeDeadline(s)
    ensures var t := TakeEvent(s, e);
      && t == s.(gate := t.gate) && HasHeard(t.gate, w, o, 1) && IsBeforeDeadline(t)
      && t.gate.receipt.Some? && IsUntouched(t.gate.receipt.value.control)
  {
    hide Listens, HasHeard, IsBeforeDeadline, Callable, Asked, ObserveNative, TakeEvent, IsPart;
    ListeningMeans(s.gate, s.now);
    AskingIsObserving(s.gate);
    NativeIsHeard(s.gate, w, o, 0, e.at, s.now);
    NativeChanges(s.gate, NativePart(w, o, 0, e.at));
    NativeEvent(s, w, o, 0, e);
    SameDeadline(s, TakeEvent(s, e));
  }

  /** Work that is started and kept is held. */
  lemma StartedIsHeld(s: SampleState, w: WorkItem)
    requires SampleInv(s) && WorkAnswers(w, s.history) && HasHeard(s.gate, w, FateOf(s.adapter), 0) && !w.cancelled
    requires s.staged == [] && s.prepared.None? && s.current == Some(w.authority) && IsServing(s.adapter)
    requires s.adapter.deferred && !s.adapter.rejectNext && IsBeforeDeadline(s) && s.gate.lastNativeRecord.None?
    requires s.gate.receipt.Some? && s.gate.receipt.value.dispatch.at == Some(s.now)
    requires IsUntouched(s.gate.receipt.value.control)
    ensures SampleInv(StartWork(s, w)) && StartWork(s, w).adapter.deferred
    ensures var t := ProcessNext(StartWork(s, w)).0;
      && IsHolding(t, w, FateOf(s.adapter)) && t.gate.receipt.Some? && IsUntouched(t.gate.receipt.value.control)
      && t.adapter.results == s.adapter.results && t.adapter.cancellation == s.adapter.cancellation
  {
    hide SampleInv, HasHeard, IsBeforeDeadline, StartWork, Stays, WorkAnswers, PollSample, TakeEvent, Read;
    StartWorkKeeps(s, w);
    KeepingStages(s, w);
    var t := StartWork(s, w);
    WhatLeads(s, t);
    IdleFits(t);
    QuietPoll(t);
    ReadKeeps(t);
    ReadsOnly(t);
    var p := Read(t).(staged := []);
    assert t.staged[1..] == [];
    SameDeadline(Read(t), p);
    GateListens(Read(t));
    AcceptanceIsTaken(p, w, FateOf(s.adapter), t.staged[0]);
    ProcessNextKeeps(t);
    WhatLeads(t, ProcessNext(t).0);
  }

  /**
   A request that an idle, deferring host takes up is dispatched and held, and would come to the end that the adapter
   was told to give it.
   */
  lemma PreparedIsHeld(s: SampleState, q: SampleRequest, a: OperationAuthority, at: U64)
    requires IsPrepared(s, q, a, at) && s.prepared == Some(a) && s.request == Some(q) && !s.isShutdown
    requires s.adapter.deferred && !s.adapter.rejectNext
    ensures SampleInv(s)
    ensures var (t, sent) := DispatchPrepared(s, a);
      && sent && IsHolding(t, WorkFor(a, q), FateOf(s.adapter)) && t.gate.receipt.Some?
      && IsUntouched(t.gate.receipt.value.control) && t.adapter.results == s.adapter.results
      && t.adapter.cancellation == s.adapter.cancellation
  {
    hide SampleInv, HasHeard, IsHolding, IsBeforeDeadline, StartWork, ProcessNext, Permit, PollSample, WorkAnswers,
         Decimal, Stays;
    IdleFits(s);
    QuietPoll(s);
    ReadKeeps(s);
    var p := Read(s);
    WhatLeads(s, p);
    ForgetPrepared(p);
    PreparedAnswers(p);
    var u := p.(prepared := None, request := None);
    WhatLeads(p, u);
    SameDeadline(p, u);
    Granted(u, q, a, at);
    var v := Permit(u, a).0;
    WhatLeads(u, v);
    HeardIsDispatched(v.gate, WorkFor(a, q), FateOf(s.adapter), 0);
    StartedIsHeld(v, WorkFor(a, q));
  }

  /** A request that an idle, deferring host takes up is held for later. */
  lemma RequestIsHeld(s: SampleState, q: SampleRequest)
    requires SampleInv(s) && IsIdle(s) && IsServing(s.adapter) && !s.isShutdown && LeavesTime(s, q)
    requires s.adapter.deferred && !s.adapter.rejectNext && Prepare(s, q).1.status == SamplePrepared
    ensures Prepare(s, q).1.authority.Some? && SampleInv(Prepare(s, q).0)
    ensures var a := Prepare(s, q).1.authority.value;
      var (t, sent) := DispatchPrepared(Prepare(s, q).0, a);
      && sent && IsHolding(t, WorkFor(a, q), FateOf(s.adapter)) && t.gate.receipt.Some?
      && IsUntouched(t.gate.receipt.value.control) && t.adapter.results == s.adapter.results
      && t.adapter.cancellation == s.adapter.cancellation
  {
    hide SampleInv, Prepare, DispatchPrepared, IsHolding, TakesUp, Stays;
    PrepareIsExact(s, q);
    PrepareKeeps(s, q);
    var (p, d) := Prepare(s, q);
    assert IsBeforeDeadline(p);
    PreparedIsHeld(p, q, d.authority.value, p.now);
  }

  // ---------- Completing ----------

  /** What was heard up to now is no later than now. */
  lemma HeardInTime(g: GateState, w: WorkItem, o: Ending, now: U64)
    requires Listens(g, now) && HasHeard(g, w, o, 1) && o != Rejection
    ensures g.receipt.value.dispatch.at.value <= now
    ensures g.lastNativeRecord.Some? && g.lastNativeRecord.value.observedAt <= now
  {
    hide Inv, GateEndsBy, Listens, HearsOthers, KnowsRest;
    ListeningMeans(g, now);
  }

  lemma HoldingReads(s: SampleState, w: WorkItem, o: Ending)
    requires IsHolding(s, w, o)
    ensures PollSample(s) == Read(s) && IsHolding(Read(s), w, o) && Listens(s.gate, s.now) && Inv(s.gate)
  {
    hide SampleInv, HasHeard, ObserveAt, Stays, IsBeforeDeadline, GateFits;
    ReadKeeps(s);
    WhatLeads(s, Read(s));
    IdleFits(s);
    QuietPoll(s);
  }

  /** The rest of the story is staged, and nothing is held any more. */
  lemma CompletingTells(s: SampleState, w: WorkItem, o: Ending)
    requires IsHolding(s, w, o)
    ensures IsTelling(FinishPending(s), w, o, 1) && FinishPending(s).adapter.results == s.adapter.results
    ensures FinishPending(s).adapter.pending.None?
  {
    hide SampleInv, HasHeard, IsRest, IsBeforeDeadline, Stays, FinishWork, Listens;
    HoldingReads(s, w, o);
    FinishPendingKeeps(s);
    WhatLeads(s, FinishPending(s));
    var c := s.(adapter := s.adapter.(pending := None));
    SameDeadline(s, c);
    FinishingStages(c, w);
    var t := FinishWork(c, w);
    HeardInTime(s.gate, w, o, s.now);
    assert t.staged[|c.staged|..] == t.staged;
  }

  /** Completing what the adapter holds, and taking all events, ends it as it had to end. */
  lemma HeldWorkEnds(s: SampleState, w: WorkItem, o: Ending)
    requires IsHolding(s, w, o)
    ensures var (t, completed) := CompleteDeferred(s);
      completed && SampleInv(t)
      && var u := ProcessAll(t);
         && IsTelling(u, w, o, LengthOf(o)) && u.gate.receipt.value.disposition == Released
         && u.adapter.results == s.adapter.results
                                 + (if o == Success then [ResultOf(w.authority.operationId, w.request)] else [])
  {
    hide SampleInv, HasHeard, IsTelling, IsBeforeDeadline, FinishPending, ProcessAll, PollSample, Squares, SumOf;
    HoldingReads(s, w, o);
    CompletingTells(Read(s), w, o);
    StoryEnds(FinishPending(Read(s)), w, o, 1);
  }

  // ---------- Cancelling ----------

  /** What a stop comes to at the gate: what the adapter answers, if it does. */
  function Told(mode: CancellationMode): StopAcknowledgement {
    match mode
    case Cooperative => Acknowledged
    case Ignoring => Acknowledged
    case Refusing => Refused
    case NotAvailable => Unavailable
    case Silent => StopPending
  }

  /** Of the receipt only the control facts change, and what follows from them. */
  predicate OnlyControl(r: OperationReceipt, t: OperationReceipt) {
    && t.authority == r.authority && t.deadline == r.deadline && t.dispatch == r.dispatch && t.native == r.native
    && t.output == r.output && t.settlement == r.settlement
  }

  /** The gate cancels accepted work, and asks for its native stop. */
  lemma HeldIsCancelled(g: GateState, w: WorkItem, o: Ending, at: U64, now: U64)
    requires Listens(g, now) && HasHeard(g, w, o, 1) && o != Rejection && now <= at
    requires IsUntouched(g.receipt.value.control)
    ensures var (h, d) := GateSpec.RequestCancel(g, w.authority, at);
      && d == ControlDecision(ControlApplied, true) && HasHeard(h, w, Cancellation, 1)
      && OnlyControl(g.receipt.value, h.receipt.value)
      && h.receipt.value.control == ControlFacts(Some(at), None, None, Some(at), StopPending, None)
      && h.receipt.value.disposition != Released && h.lastNativeRecord == g.lastNativeRecord
  {
    hide Inv, GateEndsBy, Listens, DispositionOf, LatestTime, HearsOthers;
    ListeningMeans(g, now);
    EndsByGate(g, now, at);
    GL.CancelIsExact(g, w.authority, at);
    StopsWhatRuns(g, w, o);
    HeldIsOpen(g, w, o, at);
    HearsAfter(g, GateSpec.RequestCancel(g, w.authority, at).0);
  }

  lemma EndsByGate(g: GateState, now: U64, at: U64)
    requires Listens(g, now) && g.receipt.Some? && now <= at
    ensures EndsBy(g.receipt.value, at)
  {
    hide Inv, BindingEndsBy, EndsBy;
    ListeningMeans(g, now);
    EndsByLater(g, now, at);
  }

  lemma StopsWhatRuns(g: GateState, w: WorkItem, o: Ending)
    requires Inv(g) && HasHeard(g, w, o, 1) && o != Rejection
    ensures g.receipt.value.native.outcome == OutcomePending && g.receipt.value.dispatch.status == Submitted
    ensures g.receipt.value.disposition != Released && g.receipt.value.settlement.None?
  {
    hide GateEndsBy, HearsOthers, CandidateIsValid;
  }

  lemma HeldIsOpen(g: GateState, w: WorkItem, o: Ending, at: U64)
    requires HasHeard(g, w, o, 1) && o != Rejection && g.receipt.value.settlement.None?
    ensures
      var t := Revoke(g.receipt.value, g.receipt.value.control.(cancelledAt := Some(at)), at);
      t.disposition != Released
  {
    hide HearsOthers, KnowsLast;
  }

  lemma HearsAfter(g: GateState, h: GateState)
    requires g.receipt.Some? && h.receipt.Some? && OnlyControl(g.receipt.value, h.receipt.value)
    requires HearsOthers(g.receipt.value) && IsFromOthers(h.receipt.value.control.stop)
    ensures HearsOthers(h.receipt.value)
  {
  }

  /** The gate takes the answer to a stop. */
  lemma StopIsHeard(g: GateState, w: WorkItem, at: U64, told: StopAcknowledgement, now: U64)
    requires Listens(g, now) && HasHeard(g, w, Cancellation, 1) && g.receipt.value.disposition != Released
    requires g.receipt.value.control == ControlFacts(Some(at), None, None, Some(at), StopPending, None) && at <= now
    requires told in {Acknowledged, Refused, Unavailable}
    ensures var e := StopAcknowledgementEvidence(w.authority, told, EvidenceRecord(STOP, now, 1));
      var h := ObserveStopAcknowledgement(g, e).0;
      && HasHeard(h, w, Cancellation, 1) && OnlyControl(g.receipt.value, h.receipt.value)
      && h.receipt.value.control == g.receipt.value.control.(stopAcknowledgement := told, stop := Some(e.record))
      && h.lastNativeRecord == g.lastNativeRecord
  {
    hide Inv, GateEndsBy, Listens, HearsOthers;
    ListeningMeans(g, now);
    var e := StopAcknowledgementEvidence(w.authority, told, EvidenceRecord(STOP, now, 1));
    GE.StopResponseIsExact(g, e);
    HearsAfter(g, ObserveStopAcknowledgement(g, e).0);
  }

  /** The adapter's answer goes to the gate, if there is one. */
  lemma StopIsTaken(s: SampleState, w: WorkItem, at: U64)
    requires Listens(s.gate, s.now) && HasHeard(s.gate, w, Cancellation, 1) && s.adapter.pending == Some(w)
    requires s.gate.receipt.value.disposition != Released && at <= s.now && IsBeforeDeadline(s)
    requires s.gate.receipt.value.control == ControlFacts(Some(at), None, None, Some(at), StopPending, None)
    requires Listens(s.gate, Read(s).now)
    ensures var t := StopWork(s, w.authority);
      && HasHeard(t.gate, w, Cancellation, 1) && IsBeforeDeadline(t) && t.gate.receipt.Some?
      && t.gate.receipt.value.control.cancelledAt == Some(at)
      && t.gate.receipt.value.control.stopAcknowledgement == Told(s.adapter.cancellation)
      && t.adapter == Stopped(s.adapter, w.authority) && t.staged == s.staged && t.current == s.current
      && t.prepared == s.prepared
  {
    hide Listens, HasHeard, IsBeforeDeadline, Callable, ObserveStopAcknowledgement, Read;
    ReadsOnly(s);
    HeardIsDispatched(s.gate, w, Cancellation, 1);
    var a := s.(adapter := Stopped(s.adapter, w.authority));
    SameDeadline(s, a);
    ReadsOnly(a);
    assert Read(a).now == Read(s).now && Read(a).readings == Read(s).readings by { ReadIgnoresAdapter(s, a.adapter); }
    ListeningMeans(s.gate, s.now);
    if s.adapter.cancellation != Silent {
      StopIsHeard(s.gate, w, at, Told(s.adapter.cancellation), Read(s).now);
      AskingStops(s.gate);
      HeardIsDispatched(StopWork(s, w.authority).gate, w, Cancellation, 1);
      SameDeadline(Read(a), StopWork(s, w.authority));
    }
  }

  lemma ReadIgnoresAdapter(s: SampleState, a: AdapterState)
    ensures Read(s.(adapter := a)) == Read(s).(adapter := a)
  {
  }

  lemma AskingStops(g: GateState)
    requires Callable(g)
    ensures forall e :: Asked(g, CallObserveStop(e)) == ObserveStopAcknowledgement(g, e).0
    ensures forall a, at :: Asked(g, CallRequestCancel(a, at)) == GateSpec.RequestCancel(g, a, at).0
  {
    hide Callable, ObserveStopAcknowledgement, GateSpec.RequestCancel;
  }

  /** What is the same story for work that was cancelled. */
  lemma SameStory(g: GateState, w: WorkItem, o: Ending, v: WorkItem)
    requires v == w.(cancelled := v.cancelled)
    ensures HasHeard(g, w, o, 1) <==> HasHeard(g, v, o, 1)
  {
    hide KnowsNatives, KnowsRest, HearsOthers;
  }

  /** The gate cancels work that is held. */
  lemma HeldIsAsked(s: SampleState, w: WorkItem, o: Ending)
    requires IsHolding(s, w, o) && s.gate.receipt.Some? && IsUntouched(s.gate.receipt.value.control)
    ensures var (h, d) := GateSpec.RequestCancel(s.gate, w.authority, s.now);
      var t := Ask(s, CallRequestCancel(w.authority, s.now));
      && d == ControlDecision(ControlApplied, true) && t == s.(gate := h) && SampleInv(t) && IsBeforeDeadline(t)
      && HasHeard(h, w, Cancellation, 1) && h.receipt.Some? && h.receipt.value.disposition != Released
      && h.receipt.value.control == ControlFacts(Some(s.now), None, None, Some(s.now), StopPending, None)
  {
    hide SampleInv, HasHeard, IsBeforeDeadline, GateSpec.RequestCancel, Listens, Stays, Callable;
    GateListens(s);
    HeardIsDispatched(s.gate, w, o, 1);
    HeldIsCancelled(s.gate, w, o, s.now, s.now);
    ListeningMeans(s.gate, s.now);
    AskingStops(s.gate);
    var t := Ask(s, CallRequestCancel(w.authority, s.now));
    HeardIsDispatched(t.gate, w, Cancellation, 1);
    SameDeadline(s, t);
    AskKeeps(s, CallRequestCancel(w.authority, s.now));
    WhatLeads(s, t);
  }

  lemma UntouchedReads(s: SampleState)
    ensures Read(s).gate == s.gate && Read(s).adapter == s.adapter
  {
  }

  /**
   Cancelling work that is held, the first time: the gate asks for a native stop and hears what the adapter answers,
   and the work is cancelled if and only if the adapter cooperates. It then comes to its end as cancelled.
   */
  lemma CancelReachesWork(s: SampleState, w: WorkItem, o: Ending)
    requires IsHolding(s, w, o) && s.gate.receipt.Some? && IsUntouched(s.gate.receipt.value.control)
    ensures var (t, d) := Cancel(s, w.authority);
      && d == ControlDecision(ControlApplied, true) && t.adapter.results == s.adapter.results
      && t.adapter.pending == Some(w.(cancelled := w.cancelled || s.adapter.cancellation == Cooperative))
      && t.gate.receipt.Some? && t.gate.receipt.value.control.cancelledAt.Some?
      && t.gate.receipt.value.control.stopAcknowledgement == Told(s.adapter.cancellation)
      && (s.adapter.cancellation == Cooperative ==> IsHolding(t, w.(cancelled := true), Cancellation))
  {
    hide SampleInv, HasHeard, IsBeforeDeadline, PollSample, GateSpec.RequestCancel, Listens, Stays, Asked, StopWork,
         Read;
    CancelKeepsSample(s, w.authority);
    HoldingReads(s, w, o);
    HoldingReads(Read(s), w, o);
    UntouchedReads(s);
    UntouchedReads(Read(s));
    var p := Read(Read(s));
    HeldIsAsked(p, w, o);
    var u := Ask(p, CallRequestCancel(w.authority, p.now));
    ReadKeeps(u);
    WhatLeads(u, Read(u));
    GateListens(u);
    GateListens(Read(u));
    UntouchedReads(u);
    StopIsTaken(u, w, p.now);
    var t := Cancel(s, w.authority).0;
    WhatLeads(s, t);
    assert t == StopWork(u, w.authority);
    SameStory(t.gate, w, Cancellation, w.(cancelled := true));
  }

  /** Work that a cooperative adapter holds, cancelled and then completed, ends as cancelled, without a result. */
  lemma CancelledWorkEnds(s: SampleState, w: WorkItem, o: Ending)
    requires IsHolding(s, w, o) && s.adapter.cancellation == Cooperative
    requires s.gate.receipt.Some? && IsUntouched(s.gate.receipt.value.control)
    ensures var t := CompleteDeferred(Cancel(s, w.authority).0).0;
      SampleInv(t)
      && var u := ProcessAll(t);
         && u.gate.receipt.Some? && u.gate.receipt.value.authority == w.authority
         && u.gate.receipt.value.disposition == Released && u.gate.receipt.value.native.cancelled.Some?
         && u.gate.receipt.value.native.succeeded.None? && u.adapter.results == s.adapter.results
  {
    hide SampleInv, IsHolding, IsTelling, Cancel, CompleteDeferred, ProcessAll;
    CancelReachesWork(s, w, o);
    var t, v := Cancel(s, w.authority).0, w.(cancelled := true);
    HeldWorkEnds(t, v, Cancellation);
    ToldIsCancelled(ProcessAll(CompleteDeferred(t).0), v);
  }

  lemma ToldIsCancelled(s: SampleState, w: WorkItem)
    requires IsTelling(s, w, Cancellation, LengthOf(Cancellation))
    ensures s.gate.receipt.Some? && s.gate.receipt.value.authority == w.authority
    ensures s.gate.receipt.value.native.cancelled.Some? && s.gate.receipt.value.native.succeeded.None?
  {
    hide SampleInv, IsOrderly, KnowsLast, KnowsRest, HearsOthers, IsBeforeDeadline;
  }
}
