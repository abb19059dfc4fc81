/**
 A request that the sample host takes up while it has nothing else in hand is served: it is dispatched, the gate
 believes all that is said of it, it ends released, and its result is in the sink if and only if it was neither
 rejected nor made to fail.
 */
module SampleRequests {
  import opened Machine
  import opened GateTypes
  import opened GateSpec
  import opened GateInvariant
  import opened GateEffects
  import GL = GateLaws
  import opened SampleSpec
  import opened SampleInvariant
  import opened SampleSteps
  import opened SampleRuns
  import opened SampleService

  // ---------- A host with nothing in hand ----------

  /** The adapter serves and reports. */
  predicate IsServing(a: AdapterState) {
    a.workerReady && a.sinkReady && !a.closed && a.listening && a.settlementReporting
  }

  /** Nothing is staged or pending, and earlier work is released. */
  predicate IsIdle(s: SampleState) {
    && s.staged == [] && s.adapter.pending.None?
    && (s.gate.receipt.Some? ==> s.gate.receipt.value.disposition == Released)
  }

  /** The deadline asked for lies after all that the clock will show. */
  predicate LeavesTime(s: SampleState, q: SampleRequest) {
    q.deadline.Some? ==>
      s.now < q.deadline.value && forall k :: 0 <= k < |s.readings| ==> s.readings[k] < q.deadline.value
  }

  /** Released work has no deadline any more. */
  lemma IdleLooks(s: SampleState)
    requires Inv(s.gate) && IsIdle(s)
    ensures ObserveAt(s, s.now) == s
  {
    hide Inv, GateSpec.ObserveTime;
    if s.current.Some? {
      InvIsCallable(s.gate);
      GL.ExpiryIsExact(s.gate, s.current.value, s.now);
    }
  }

  /** An idle host is polled. */
  lemma IdlePoll(s: SampleState)
    requires Inv(s.gate) && IsIdle(s) && IsServing(s.adapter)
    ensures PollSample(s) == Read(s)
  {
    hide Inv, ObserveAt;
    IdleLooks(Read(s));
  }

  // ---------- A fresh host ----------

  /** Opening a fresh host's gate, fact by fact. */
  lemma FreshFact(s: SampleState, kind: StartupEvidenceKind, source: string, role: Role, sequence: U64)
    requires s.gate.phase == Active && s.gate.initialization == RecoveryRequired && s.gate.receipt.None?
    requires s.gate.lastNativeRecord.None?
    requires s.gate.config == ConfigAt(s.gate.config.startedAt) && s.gate.config.startedAt <= s.now
    requires s.gate.Fact(role) == NO_FACT && RoleOf(kind, s.gate.config) == Some(role)
    requires source == SourceOf(role, s.gate.config) != "" && sequence != 0
    ensures var t := StartupFor(s, kind, source, true, sequence);
      && t == s.(now := t.now, readings := t.readings, gate := t.gate) && t.now >= s.now
      && var known := s.gate.WithFact(role, StartupFact(true, true, Some(EvidenceRecord(source, t.now, sequence))));
         t.gate == known.(initialization := if IsReady(known) then Ready else RecoveryRequired)
  {
  }

  /** A fresh host that is initialized is ready to take up its first request. */
  lemma FreshHostIsReady(deferred: bool, now: U64, readings: seq<U64>)
    ensures var s := Initialize(NewSample(deferred, now).(readings := readings));
      && s.gate.phase == Active && s.gate.initialization == Ready && s.gate.nextOperationId == 1
      && IsIdle(s) && IsServing(s.adapter) && !s.isShutdown
  {
    hide StartupFor;
    var s := NewSample(deferred, now).(readings := readings);
    FreshFact(CountBinding(s), BindingIdleAndSettled, ADAPTER, BindingRole, 1);
    var t := DeclareBinding(s);
    FreshFact(CountWorker(t), WorkerReady, WORKER, WorkerRole, 1);
    var u := DeclareWorker(t);
    FreshFact(CountSink(u), ResultSinkReady, SINK, SinkRole, 1);
  }

  // ---------- Taking up ----------

  /** What a host needs to take up a request at a time. */
  predicate TakesUp(g: GateState, q: SampleRequest, at: U64) {
    && IsRequest(q) && g.phase == Active && g.initialization == Ready && g.nextOperationId != 0
    && g.config.binding.effectDomain == BINDING.effectDomain && (q.deadline.Some? ==> at < q.deadline.value)
  }

  /** The host just after it has taken up a request. */
  predicate HasTakenUp(s: SampleState, t: SampleState, q: SampleRequest, a: OperationAuthority) {
    && a == OperationAuthority(s.gate.nextOperationId, s.gate.config.binding, t.now)
    && t.gate.receipt == Some(NewReceipt(a, OperationFor(q, t.now))) && t.gate.lastNativeRecord.None?
    && t.gate.phase == Active && t.gate.initialization == Ready && t.gate.config == s.gate.config
    && t.current == Some(a) && t.prepared == Some(a) && t.request == Some(q) && t.staged == [] && t.adapter == s.adapter
    && t.isShutdown == s.isShutdown
  }

  lemma AdmissionOf(g: GateState, q: SampleRequest, now: U64)
    requires GateFits(g, now) && IsRequest(q) && (g.receipt.Some? ==> g.receipt.value.disposition == Released)
    ensures AdmissionRefusal(g, OperationFor(q, now)).None? <==> TakesUp(g, q, now)
  {
    hide Inv, AdmissionRefusal, EndsBy;
    GL.AdmissionChecks(g, OperationFor(q, now));
  }

  /**
   An idle host takes up a request if and only if it is a proper one, the binding is live and ready, identities are
   left and the deadline is not reached; it is then prepared, and otherwise only the clock has moved.
   */
  lemma PrepareIsExact(s: SampleState, q: SampleRequest)
    requires SampleInv(s) && IsIdle(s) && IsServing(s.adapter)
    ensures var (t, d) := Prepare(s, q);
      if TakesUp(s.gate, q, Read(Read(s)).now) then
        && d.status == SamplePrepared && d.authority.Some? && HasTakenUp(s, t, q, d.authority.value)
        && t.readings == Read(Read(s)).readings && t.now == Read(Read(s)).now
      else d.status != SamplePrepared && d.authority.None? && t == s.(now := t.now, readings := t.readings)
  {
    hide SampleInv, GateFits, IsRequest, TakesUp, AdmissionRefusal, ObserveAt, PollSample;
    ReadKeeps(s);
    WhatLeads(s, Read(s));
    ReadKeeps(Read(s));
    var p := Read(Read(s));
    WhatLeads(Read(s), p);
    IdleFits(s);
    IdleFits(p);
    IdlePoll(s);
    IdleLooks(p);
    if IsRequest(q) { AdmissionOf(p.gate, q, p.now); }
    assert TakesUp(s.gate, q, p.now) ==> IsRequest(q) && p.gate.phase == Active && p.gate.initialization == Ready by {
      TakingUpNeeds(s.gate, q, p.now);
    }
  }

  lemma TakingUpNeeds(g: GateState, q: SampleRequest, at: U64)
    ensures TakesUp(g, q, at) ==> IsRequest(q) && g.phase == Active && g.initialization == Ready
  {
  }

  lemma IdleFits(s: SampleState)
    requires SampleInv(s)
    ensures GateFits(s.gate, s.now) && Inv(s.gate)
  {
    hide Inv, GateEndsBy, AllAnswer, SinkAgrees;
  }

  // ---------- Starting ----------

  /** How a story ends that the adapter starts now. */
  function FateOf(a: AdapterState): Ending {
    if a.rejectNext then Rejection else if a.failNext then Failure else Success
  }

  /** Starting work at once stages its whole story. */
  lemma StartingStages(s: SampleState, w: WorkItem)
    requires IsServing(s.adapter) && !s.adapter.deferred && !w.cancelled
    ensures var t := StartWork(s, w);
      HasStaged(s, t) && IsRest(t.staged[|s.staged|..], w, FateOf(s.adapter), 0)
  {
    hide Emit, EmitWithoutOutput, FinishWork, IsRest, IsBeforeDeadline;
    if s.adapter.rejectNext {
      RejectingStages(s, w);
    } else {
      AcceptingStages(s, w);
    }
  }

  lemma RejectingStages(s: SampleState, w: WorkItem)
    requires IsServing(s.adapter) && s.adapter.rejectNext
    ensures var t := StartWork(s, w); HasStaged(s, t) && IsRest(t.staged[|s.staged|..], w, Rejection, 0)
  {
    hide EmitWithoutOutput, IsRest, IsBeforeDeadline;
    var c := CountSubmission(s).(adapter := CountSubmission(s).adapter.(rejectNext := false));
    assert HasStaged(s, c) by { SameStaged(s, c); }
    WithoutOutputStages(c, w, RejectedCallback, 1);
    StagedTwice(s, c, StartWork(s, w));
    var more := StartWork(s, w).staged[|s.staged|..];
    forall j | 0 <= j < |more| ensures IsPart(more[j], w, Rejection, 0 + j) {
    }
    PartsAreRest(more, w, Rejection, 0);
  }

  lemma SameStaged(s: SampleState, t: SampleState)
    requires t == s.(adapter := t.adapter)
    requires t.adapter == s.adapter.(rejectNext := t.adapter.rejectNext, counts := t.adapter.counts)
    ensures HasStaged(s, t)
  {
  }

  lemma AcceptingStages(s: SampleState, w: WorkItem)
    requires IsServing(s.adapter) && !s.adapter.deferred && !s.adapter.rejectNext && !w.cancelled
    ensures var t := StartWork(s, w); HasStaged(s, t) && IsRest(t.staged[|s.staged|..], w, FateOf(s.adapter), 0)
  {
    hide Emit, FinishWork, IsRest, IsBeforeDeadline;
    var c := CountSubmission(s);
    assert HasStaged(s, c) by { SameStaged(s, c); }
    EmitStages(c, w, AcceptedCallback, 1, None);
    var t := EmitPlain(c, w, AcceptedCallback, 1);
    StagedOn(s, c, t, w, AcceptedCallback, 1, None);
    FinishingStages(t, w);
    var u := FinishWork(t, w);
    StagedTwice(s, t, u);
    assert u == StartWork(s, w) && EndingOf(t, w) == FateOf(s.adapter);
    var n := |s.staged|;
    assert u.staged[n] == u.staged[..|t.staged|][n] == t.staged[n];
    assert u.staged[n..] == [t.staged[n]] + u.staged[|t.staged|..];
    StoryStarts(t.staged[n], u.staged[|t.staged|..], w, FateOf(s.adapter));
  }

  lemma StoryStarts(e: Staged, staged: seq<Staged>, w: WorkItem, o: Ending)
    requires o == Success || o == Failure
    requires IsPart(e, w, o, 0) && IsRest(staged, w, o, 1)
    requires forall j :: 0 <= j < |staged| ==> e.at <= staged[j].at
    ensures IsRest([e] + staged, w, o, 0)
  {
    hide IsPart;
    var all := [e] + staged;
    forall j | 0 <= j < |all| ensures IsPart(all[j], w, o, 0 + j) {
      if j > 0 { assert all[j] == staged[j - 1] && IsPart(staged[j - 1], w, o, 1 + (j - 1)); }
    }
  }

  // ---------- Serving ----------

  /** Fresh work is in hand, prepared for a request, and its deadline is ahead. */
  ghost predicate IsPrepared(s: SampleState, q: SampleRequest, a: OperationAuthority, at: U64) {
    && SampleInv(s) && s.gate.receipt == Some(NewReceipt(a, OperationFor(q, at))) && at == a.admittedAt
    && s.gate.lastNativeRecord.None? && s.gate.phase == Active && s.gate.initialization == Ready
    && s.gate.config.binding == a.binding && s.current == Some(a) && s.staged == [] && s.adapter.pending.None?
    && IsServing(s.adapter) && IsBeforeDeadline(s)
  }

  /** Nobody has cancelled, and no deadline has passed. */
  predicate IsUntouched(c: ControlFacts) {
    c == ControlFacts(None, None, None, None, NotRequested, None)
  }

  /** The gate grants fresh work its dispatch, and has then heard nothing of it. */
  lemma FreshIsGranted(g: GateState, q: SampleRequest, w: WorkItem, at: U64, now: U64)
    requires g.receipt == Some(NewReceipt(w.authority, OperationFor(q, at))) && at == w.authority.admittedAt <= now
    requires g.lastNativeRecord.None? && g.phase == Active && g.initialization == Ready
    requires g.config.binding == w.authority.binding && w.identity != ""
    requires q.deadline.Some? ==> now < q.deadline.value
    ensures MayDispatch(g, w.authority, now)
    ensures var h := GateSpec.ClaimDispatch(g, w.authority, now).0;
      && (forall o :: HasHeard(h, w, o, 0)) && h.receipt.Some? && h.receipt.value.dispatch.at == Some(now)
      && h.lastNativeRecord.None? && h.receipt.value.deadline == q.deadline && IsUntouched(h.receipt.value.control)
  {
  }

  lemma Granted(s: SampleState, q: SampleRequest, a: OperationAuthority, at: U64)
    requires IsPrepared(s, q, a, at)
    ensures var (t, granted) := Permit(s, a);
      && granted && Leads(s, t) && t.now >= s.now && t.adapter == s.adapter && t.staged == [] && t.current == s.current
      && t.prepared == s.prepared && t.history == s.history && IsBeforeDeadline(t) && t.gate.lastNativeRecord.None?
      && (forall o :: HasHeard(t.gate, WorkFor(a, q), o, 0))
      && t.gate.receipt.value.dispatch.at == Some(t.now) && IsUntouched(t.gate.receipt.value.control)
  {
    hide SampleInv, HasHeard, ObserveAt, GateFits, Stays, MayDispatch, Decimal;
    PermitKeeps(s, a);
    ReadKeeps(s);
    var t := Read(s);
    WhatLeads(s, t);
    IdleFits(t);
    ReadStays(s);
    NothingIsDue(t);
    AdmittedBefore(s, q, a, at);
    FreshIsGranted(t.gate, q, WorkFor(a, q), at, t.now);
  }

  lemma AdmittedBefore(s: SampleState, q: SampleRequest, a: OperationAuthority, at: U64)
    requires IsPrepared(s, q, a, at)
    ensures at <= s.now && (q.deadline.Some? ==> Read(s).now < q.deadline.value)
  {
    hide Inv, AllAnswer, SinkAgrees;
  }

  /** The parts of a story staged on nothing are orderly. */
  lemma StagedIsOrderly(s: SampleState, t: SampleState)
    requires HasStaged(s, t) && s.staged == [] && s.gate.receipt.Some? && s.gate.lastNativeRecord.None?
    requires s.gate.receipt.value.dispatch.at == Some(s.now)
    ensures IsOrderly(t.gate, t.staged) && t.staged[|s.staged|..] == t.staged
  {
    hide IsBeforeDeadline;
  }

  /** Once its work is started the host is telling the whole story of it. */
  lemma StartedIsTold(s: SampleState, w: WorkItem)
    requires SampleInv(s) && WorkAnswers(w, s.history) && HasHeard(s.gate, w, FateOf(s.adapter), 0) && !w.cancelled
    requires s.staged == [] && s.prepared.None? && s.adapter.pending.None? && s.current == Some(w.authority)
    requires IsServing(s.adapter) && !s.adapter.deferred && IsBeforeDeadline(s) && s.gate.lastNativeRecord.None?
    requires s.gate.receipt.value.dispatch.at == Some(s.now)
    ensures var t := StartWork(s, w);
      IsTelling(t, w, FateOf(s.adapter), 0) && !t.adapter.deferred && t.adapter.results == s.adapter.results
  {
    hide SampleInv, HasHeard, IsRest, IsOrderly, IsBeforeDeadline, StartWork, Stays, WorkAnswers;
    StartWorkKeeps(s, w);
    StartingStages(s, w);
    HasHeardReceipt(s.gate, w, FateOf(s.adapter));
    var t := StartWork(s, w);
    WhatLeads(s, t);
    StagedIsOrderly(s, t);
  }

  lemma HasHeardReceipt(g: GateState, w: WorkItem, o: Ending)
    requires HasHeard(g, w, o, 0)
    ensures g.receipt.Some?
  {
  }

  /** The work is dispatched and its story told. */
  lemma PreparedIsServed(s: SampleState, q: SampleRequest, a: OperationAuthority, at: U64)
    requires IsPrepared(s, q, a, at) && s.prepared == Some(a) && s.request == Some(q) && !s.isShutdown
    requires !s.adapter.deferred
    ensures SampleInv(s)
    ensures var (t, sent) := DispatchPrepared(s, a);
      sent && IsTelling(t, WorkFor(a, q), FateOf(s.adapter), LengthOf(FateOf(s.adapter)))
      && t.gate.receipt.value.disposition == Released
      && t.adapter.results == s.adapter.results
                              + (if FateOf(s.adapter) == Success then [ResultOf(a.operationId, q)] else [])
  {
    hide SampleInv, HasHeard, IsTelling, IsBeforeDeadline, StartWork, ProcessAll, Permit, PollSample, WorkAnswers,
         Decimal, Stays, Squares, SumOf;
    IdleFits(s);
    QuietPoll(s);
    ReadKeeps(s);
    var p := Read(s);
    WhatLeads(s, p);
    ForgetPrepared(p);
    PreparedAnswers(p);
    var u := p.(prepared := None, request := None);
    WhatLeads(p, u);
    SameDeadline(p, u);
    Granted(u, q, a, at);
    var v, w := Permit(u, a).0, WorkFor(a, q);
    WhatLeads(u, v);
    StartedIsTold(v, w);
    StoryEnds(StartWork(v, w), w, FateOf(s.adapter), 0);
  }

  /** What the gate has heard once a story is told. */
  lemma ToldIsKnown(s: SampleState, w: WorkItem, o: Ending)
    requires IsTelling(s, w, o, LengthOf(o)) && o != Cancellation
    ensures s.gate.receipt.Some? && s.gate.receipt.value.authority == w.authority && s.staged == []
    ensures s.adapter.pending.None? && s.gate.phase == Active
    ensures var n := s.gate.receipt.value.native;
      && (n.rejected.Some? <==> o == Rejection) && (n.failed.Some? <==> o == Failure)
      && (n.succeeded.Some? <==> o == Success)
  {
    hide SampleInv, IsOrderly, KnowsLast, KnowsRest, HearsOthers, IsBeforeDeadline;
  }

  /**
   A request taken up by an idle host is served. Its dispatch is granted, and it ends released; the gate knows how.
   Its result is added to the sink if and only if it was neither rejected nor made to fail. The host can then take up
   another.
   */
  lemma RequestIsServed(s: SampleState, q: SampleRequest)
    requires SampleInv(s) && IsIdle(s) && IsServing(s.adapter) && !s.isShutdown && LeavesTime(s, q)
             && !s.adapter.deferred
    requires Prepare(s, q).1.status == SamplePrepared
    ensures Prepare(s, q).1.authority.Some? && SampleInv(Prepare(s, q).0)
    ensures var a := Prepare(s, q).1.authority.value;
      var (t, sent) := DispatchPrepared(Prepare(s, q).0, a);
      && sent && IsIdle(t) && t.gate.receipt.Some? && t.gate.receipt.value.authority == a
      && t.gate.receipt.value.disposition == Released
      && var r := t.gate.receipt.value.native;
         && (r.rejected.Some? <==> s.adapter.rejectNext)
         && (r.failed.Some? <==> !s.adapter.rejectNext && s.adapter.failNext)
         && (r.succeeded.Some? <==> !s.adapter.rejectNext && !s.adapter.failNext)
         && t.adapter.results == s.adapter.results + (if r.succeeded.Some? then [ResultOf(a.operationId, q)] else [])
  {
    hide SampleInv, Prepare, DispatchPrepared, IsTelling, TakesUp, Squares, SumOf, Stays;
    PrepareIsExact(s, q);
    PrepareKeeps(s, q);
    var (p, d) := Prepare(s, q);
    var a := d.authority.value;
    assert IsBeforeDeadline(p);
    PreparedIsServed(p, q, a, p.now);
    ToldIsKnown(DispatchPrepared(p, a).0, WorkFor(a, q), FateOf(s.adapter));
  }
}
