/**
 The sample host's two objects agree: the sink holds the result of the operation in hand exactly when
 the gate has accepted it, the operations in the sink are in order, and each result answers its request.
 */
module SampleInvariant {
  import opened Machine
  import opened GateTypes
  import opened GateSpec
  import opened GateInvariant
  import opened GateEffects
  import opened SampleSpec

  // ---------- What the host keeps ----------

  predicate AuthorityAgrees(s: SampleState) {
    && (s.gate.receipt.Some? <==> s.current.Some?)
    && (s.current.Some? ==> s.gate.receipt.value.authority == s.current.value)
  }

  predicate IsAccepted(g: GateState) {
    g.receipt.Some? && g.receipt.value.output.disposition == OutputAccepted
  }

  predicate IsOrdered(results: seq<SampleResult>) {
    forall i, j :: 0 <= i < j < |results| ==> results[i].operationId < results[j].operationId
  }

  /** The sink has the result of this operation. */
  predicate Holds(results: seq<SampleResult>, operationId: U64) {
    results != [] && results[|results| - 1].operationId == operationId
  }

  /** Results are in the order of their operations, none is ahead of the gate, and the last agrees with it. */
  predicate SinkAgrees(results: seq<SampleResult>, g: GateState) {
    && IsOrdered(results)
    && (results != [] ==>
        g.receipt.Some? && results[|results| - 1].operationId <= g.receipt.value.authority.operationId)
    && (g.receipt.Some? ==> (Holds(results, g.receipt.value.authority.operationId) <==> IsAccepted(g)))
  }

  predicate Answers(r: SampleResult, history: map<U64, SampleRequest>) {
    r.operationId in history && r == ResultOf(r.operationId, history[r.operationId])
  }

  predicate CallbackAnswers(c: Callback, history: map<U64, SampleRequest>) {
    c.result.Some? ==> Answers(c.result.value, history)
  }

  predicate IsGood(e: Staged, history: map<U64, SampleRequest>, now: U64) {
    CallbackAnswers(e.callback, history) && e.at <= now
  }

  predicate WorkAnswers(w: WorkItem, history: map<U64, SampleRequest>) {
    w.authority.operationId in history && history[w.authority.operationId] == w.request
  }

  /** Every result there is, wherever it is, answers the request of its operation. */
  predicate AllAnswer(s: SampleState) {
    && (forall k :: 0 <= k < |s.staged| ==> IsGood(s.staged[k], s.history, s.now))
    && (forall k :: 0 <= k < |s.adapter.results| ==> Answers(s.adapter.results[k], s.history))
    && (s.adapter.replay.Some? ==> CallbackAnswers(s.adapter.replay.value, s.history))
    && (s.adapter.pending.Some? ==> WorkAnswers(s.adapter.pending.value, s.history))
    && (s.prepared.Some? && s.request.Some? ==>
          s.prepared.value.operationId in s.history && s.history[s.prepared.value.operationId] == s.request.value)
  }

  /** Operations not yet admitted have no history. */
  predicate HistoryEnds(s: SampleState) {
    forall id :: id in s.history ==> s.gate.receipt.Some? && id <= s.gate.receipt.value.authority.operationId
  }

  /** The gate is as this host made it, but for its binding. */
  predicate IsOwnGate(g: GateState) {
    g.config == ConfigAt(g.config.startedAt).(binding := g.config.binding)
  }

  ghost predicate GateFits(g: GateState, now: U64) {
    InTime(g, now) && IsOwnGate(g)
  }

  ghost predicate SampleInv(s: SampleState) {
    && GateFits(s.gate, s.now) && AuthorityAgrees(s) && SinkAgrees(s.adapter.results, s.gate)
    && AllAnswer(s) && HistoryEnds(s) && (s.isShutdown ==> s.adapter.closed)
  }

  lemma NewSampleIsValid(deferred: bool, now: U64)
    ensures SampleInv(NewSample(deferred, now))
  {
    hide Inv;
    InitialGateIsValid(ConfigAt(now));
  }

  /** The sink stays, or takes the result of the operation in hand. */
  predicate SinkGrows(current: Option<OperationAuthority>, before: seq<SampleResult>, after: seq<SampleResult>) {
    || after == before
    || (|after| == |before| + 1 && before <= after && current.Some? && Holds(after, current.value.operationId))
  }

  /** How far one state may move from another while the same operation is in hand. */
  predicate Stays(s: SampleState, t: SampleState) {
    && t.current == s.current && t.history == s.history && t.now >= s.now && t.isShutdown == s.isShutdown
    && SinkGrows(s.current, s.adapter.results, t.adapter.results)
    && (s.adapter.closed ==> t.adapter.closed && t.adapter.results == s.adapter.results)
    && (t.gate.phase == Preparing ==> s.gate.phase == Preparing)
    && (t.prepared.Some? ==> t.prepared == s.prepared)
  }

  ghost predicate Leads(s: SampleState, t: SampleState) {
    SampleInv(t) && Stays(s, t)
  }

  /** A sink in order takes the result of one operation once. */
  lemma SinkGrowsOn(current: Option<OperationAuthority>, a: seq<SampleResult>, b: seq<SampleResult>,
                    c: seq<SampleResult>)
    requires SinkGrows(current, a, b) && SinkGrows(current, b, c) && IsOrdered(c)
    ensures SinkGrows(current, a, c)
  {
  }

  lemma LeadsOn(s: SampleState, t: SampleState, u: SampleState)
    requires Leads(s, t) && Leads(t, u)
    ensures Leads(s, u)
  {
    hide GateFits, AllAnswer, IsOrdered, SinkGrows, Holds;
    SinkGrowsOn(s.current, s.adapter.results, t.adapter.results, u.adapter.results);
  }

  lemma LeadsThrice(s: SampleState, t: SampleState, u: SampleState, v: SampleState)
    requires Leads(s, t) && Leads(t, u) && Leads(u, v)
    ensures Leads(s, v)
  {
    LeadsOn(s, t, u);
    LeadsOn(s, u, v);
  }

  lemma StandingStill(s: SampleState)
    requires SampleInv(s)
    ensures Leads(s, s)
  {
    hide SampleInv;
  }

  lemma WhatLeads(s: SampleState, t: SampleState)
    requires Leads(s, t)
    ensures SampleInv(t) && Stays(s, t)
  {
    hide SampleInv;
  }

  // ---------- Weight ----------

  /** What is left to process: the events staged, and the three that discarding prepared work would stage. */
  function Weight(s: SampleState): nat {
    |s.staged| + if s.prepared.Some? then 3 else 0
  }

  // ---------- One step at a time ----------

  lemma ReadKeeps(s: SampleState)
    requires SampleInv(s)
    ensures Leads(s, Read(s)) && Read(s) == s.(now := Read(s).now, readings := Read(s).readings)
  {
    hide Inv, GateEndsBy, IsOrdered, Answers, CallbackAnswers;
    EndsByLater(s.gate, s.now, Read(s).now);
  }

  lemma CallFits(g: GateState, c: Call, now: U64)
    requires GateFits(g, now) && TimeOf(c) <= now
    ensures GateFits(Asked(g, c), now) && Callable(g)
  {
    hide InTime, Asked, TimeOf, Callable;
    CallStaysInTime(g, c, now);
  }

  /** The gate a plain call leaves behind. */
  ghost predicate Follows(g: GateState, h: GateState, now: U64) {
    && GateFits(h, now) && (h.phase == Preparing ==> g.phase == Preparing) && (h.receipt.Some? <==> g.receipt.Some?)
    && (g.receipt.Some? ==>
          && h.receipt.value.authority == g.receipt.value.authority
          && (h.receipt.value.output.disposition == OutputAccepted <==>
              g.receipt.value.output.disposition == OutputAccepted))
  }

  predicate IsEasy(c: Call) {
    !c.CallAdmit? && !c.CallObserveOutput? && !c.CallBeginRebind?
  }

  lemma EasyCallFollows(g: GateState, c: Call, now: U64)
    requires GateFits(g, now) && IsEasy(c) && TimeOf(c) <= now
    ensures Follows(g, Asked(g, c), now)
  {
    hide GateFits, TimeOf, Callable, ObserveNative, ObserveSettlement;
    CallFits(g, c, now);
    if IsPlain(c) { PlainCallEffects(g, c); }
    if c.CallObserveSettlement? { SettlementEffects(g, c.settlement); }
    if c.CallObserveNative? { NativeEffects(g, c.native); }
    OnlyBeginPrepares(g, c);
    if IsPlain(c) { hide Next; }
  }

  lemma GateStepKeeps(s: SampleState, h: GateState)
    requires SampleInv(s) && Follows(s.gate, h, s.now)
    ensures Leads(s, s.(gate := h))
  {
    hide GateFits, IsOrdered, AllAnswer;
    assert AllAnswer(s.(gate := h)) by { SameAnswers(s, s.(gate := h)); }
  }

  lemma SameAnswers(s: SampleState, t: SampleState)
    requires AllAnswer(s) && t.staged == s.staged && t.adapter == s.adapter && t.prepared == s.prepared
             && t.request == s.request
    requires t.history == s.history && t.now == s.now
    ensures AllAnswer(t)
  {
  }

  lemma AskKeeps(s: SampleState, c: Call)
    requires SampleInv(s) && IsEasy(c) && TimeOf(c) <= s.now
    ensures Leads(s, Ask(s, c))
  {
    hide Follows, Leads, Asked;
    EasyCallFollows(s.gate, c, s.now);
    GateStepKeeps(s, Asked(s.gate, c));
  }

  // ---------- Callbacks ----------

  lemma StageKeeps(s: SampleState, c: Callback, keeps: bool)
    requires SampleInv(s) && CallbackAnswers(c, s.history)
    ensures Leads(s, s.(adapter := if keeps then s.adapter.(replay := Some(c))
                        else s.adapter, staged := s.staged + [Staged(c, s.now)]))
  {
    hide GateFits, CallbackAnswers, Answers, SinkAgrees;
  }

  /** A callback is staged, and perhaps kept. */
  lemma EmitKeeps(s: SampleState, w: WorkItem, kind: CallbackKind, sequence: U64, result: Option<SampleResult>)
    requires SampleInv(s) && (result.Some? ==> Answers(result.value, s.history))
    ensures var t := Emit(s, w, kind, sequence, result);
      Leads(s, t) && |t.staged| <= |s.staged| + 1 && t.prepared == s.prepared && t.gate == s.gate
      && t.adapter.results == s.adapter.results && t.adapter.pending == s.adapter.pending
  {
    hide SampleInv, Answers, Stays;
    ReadKeeps(s);
    StandingStill(s);
    if (kind == SettledCallback && !s.adapter.settlementReporting) || !s.adapter.listening { return; }
    var t := Read(s);
    var c := Callback(kind, w.authority, w.identity, sequence, result);
    WhatLeads(s, t);
    StageKeeps(t, c, kind == ResultCallback && s.adapter.replayEnabled && s.adapter.replay.None?);
    LeadsOn(s, t, Emit(s, w, kind, sequence, result));
  }

  lemma EmitUnsubmittedKeeps(s: SampleState, w: WorkItem)
    requires SampleInv(s)
    ensures var t := EmitUnsubmitted(s, w);
      Leads(s, t) && |t.staged| <= |s.staged| + 3 && t.prepared == s.prepared && t.gate == s.gate
      && t.adapter.results == s.adapter.results
  {
    hide SampleInv, Emit, Stays, Answers;
    EmitKeeps(s, w, NotSubmittedCallback, 1, None);
    var t := EmitPlain(s, w, NotSubmittedCallback, 1);
    WhatLeads(s, t);
    EmitKeeps(t, w, NoOutputCallback, 2, None);
    var u := EmitPlain(t, w, NoOutputCallback, 2);
    WhatLeads(t, u);
    EmitKeeps(u, w, SettledCallback, 3, None);
    LeadsThrice(s, t, u, EmitUnsubmitted(s, w));
  }

  lemma EmitWithoutOutputKeeps(s: SampleState, w: WorkItem, kind: CallbackKind, sequence: U64)
    requires SampleInv(s)
    ensures var t := EmitWithoutOutput(s, w, kind, sequence);
      Leads(s, t) && t.adapter.results == s.adapter.results && t.gate == s.gate
  {
    hide SampleInv, Emit, Stays, Answers;
    EmitKeeps(s, w, kind, sequence, None);
    var t := EmitPlain(s, w, kind, sequence);
    WhatLeads(s, t);
    EmitKeeps(t, w, NoOutputCallback, 1, None);
    var u := EmitPlain(t, w, NoOutputCallback, 1);
    WhatLeads(t, u);
    EmitKeeps(u, w, SettledCallback, 2, None);
    LeadsThrice(s, t, u, EmitWithoutOutput(s, w, kind, sequence));
  }

  // ---------- Control ----------

  /** A step that neither delivers nor adds to what is left to process. */
  ghost predicate Quietly(s: SampleState, t: SampleState) {
    Leads(s, t) && t.adapter.results == s.adapter.results && Weight(t) <= Weight(s)
  }

  lemma QuietlyOn(s: SampleState, t: SampleState, u: SampleState)
    requires Quietly(s, t) && Quietly(t, u)
    ensures Quietly(s, u)
  {
    hide Leads, Weight;
    LeadsOn(s, t, u);
  }

  lemma ForgetPrepared(s: SampleState)
    requires SampleInv(s)
    ensures Leads(s, s.(prepared := None, request := None))
  {
    hide GateFits, Answers, CallbackAnswers, SinkAgrees;
  }

  lemma DiscardKeeps(s: SampleState)
    requires SampleInv(s)
    ensures Quietly(s, DiscardPrepared(s)) && DiscardPrepared(s).gate == s.gate
  {
    hide SampleInv, EmitUnsubmitted, Stays;
    StandingStill(s);
    if s.prepared.Some? {
      ForgetPrepared(s);
      var t := s.(prepared := None, request := None);
      WhatLeads(s, t);
      var w := WorkItem(s.prepared.value, NO_REQUEST, "", false);
      EmitUnsubmittedKeeps(t, w);
      LeadsOn(s, t, EmitUnsubmitted(t, w));
    }
  }

  /** Work being cancelled is still the same work. */
  lemma AdapterStepKeeps(s: SampleState, a: AdapterState)
    requires SampleInv(s) && a.results == s.adapter.results && a.replay == s.adapter.replay
             && a.closed == s.adapter.closed
    requires a.pending.Some? ==> WorkAnswers(a.pending.value, s.history)
    ensures Leads(s, s.(adapter := a))
  {
    hide GateFits, Answers, CallbackAnswers, SinkAgrees, WorkAnswers;
  }

  /** The adapter step of another kind: results, replay and closure as before, and the same work if any. */
  predicate SameAdapter(a: AdapterState, b: AdapterState) {
    && b.results == a.results && b.replay == a.replay && b.closed == a.closed
    && (b.pending.Some? ==>
          a.pending.Some? && b.pending.value.authority == a.pending.value.authority
            && b.pending.value.request == a.pending.value.request)
  }

  lemma StoppedIsSame(a: AdapterState, authority: OperationAuthority)
    ensures SameAdapter(a, Stopped(a, authority))
  {
  }

  lemma DeniedIsSame(a: AdapterState)
    ensures SameAdapter(a, Denied(a))
  {
  }

  lemma SameAdapterKeeps(s: SampleState, a: AdapterState)
    requires SampleInv(s) && SameAdapter(s.adapter, a)
    ensures Quietly(s, s.(adapter := a))
  {
    assert a.pending.Some? ==> WorkAnswers(a.pending.value, s.history);
    AdapterStepKeeps(s, a);
  }

  lemma StoppedKeeps(s: SampleState, authority: OperationAuthority)
    requires SampleInv(s)
    ensures Quietly(s, s.(adapter := Stopped(s.adapter, authority)))
  {
    hide SampleInv, Quietly, SameAdapter, Stopped;
    StoppedIsSame(s.adapter, authority);
    SameAdapterKeeps(s, Stopped(s.adapter, authority));
  }

  lemma StopWorkKeeps(s: SampleState, authority: OperationAuthority)
    requires SampleInv(s)
    ensures Quietly(s, StopWork(s, authority))
  {
    hide SampleInv, Asked, Stopped, StopAnswer, Stays;
    StoppedKeeps(s, authority);
    var acknowledgement := StopAnswer(s.adapter, authority);
    var t := s.(adapter := Stopped(s.adapter, authority));
    WhatLeads(s, t);
    if acknowledgement.Some? {
      ReadKeeps(t);
      var u := Read(t);
      WhatLeads(t, u);
      var c := CallObserveStop(StopAcknowledgementEvidence(authority, acknowledgement.value,
                                                           EvidenceRecord(STOP, u.now, 1)));
      AskKeeps(u, c);
      assert Quietly(t, u) && Quietly(u, Ask(u, c));
      QuietlyOn(s, t, u);
      QuietlyOn(s, u, Ask(u, c));
    }
  }

  lemma ApplyControlKeeps(s: SampleState, authority: OperationAuthority, d: ControlDecision)
    requires SampleInv(s)
    ensures Quietly(s, ApplyControl(s, authority, d))
    ensures d.status != ControlApplied ==> ApplyControl(s, authority, d) == s
  {
    hide SampleInv, Stays, DiscardPrepared, StopWork;
    StandingStill(s);
    DiscardKeeps(s);
    var named := s.prepared.Some? && s.prepared.value.operationId == authority.operationId;
    var t := if named then DiscardPrepared(s) else s;
    WhatLeads(s, t);
    StopWorkKeeps(t, authority);
    if d.shouldRequestNativeStop { QuietlyOn(s, t, StopWork(t, authority)); }
  }

  lemma ObserveAtKeeps(s: SampleState, time: U64)
    requires SampleInv(s) && time <= s.now
    ensures Quietly(s, ObserveAt(s, time))
  {
    hide SampleInv, Asked, ApplyControl, GateSpec.ObserveTime, Stays;
    StandingStill(s);
    if s.current.Some? {
      var c := CallObserveTime(s.current.value, time);
      AskKeeps(s, c);
      var d := GateSpec.ObserveTime(s.gate, s.current.value, time).1;
      WhatLeads(s, Ask(s, c));
      ApplyControlKeeps(Ask(s, c), s.current.value, d);
      QuietlyOn(s, Ask(s, c), ObserveAt(s, time));
    }
  }

  lemma LookKeeps(s: SampleState)
    requires SampleInv(s)
    ensures Quietly(s, Look(s).0) && Look(s).1 <= Look(s).0.now && SampleInv(Look(s).0)
  {
    ReadKeeps(s);
    var t := Read(s);
    WhatLeads(s, t);
    ObserveAtKeeps(t, t.now);
    WhatLeads(t, ObserveAt(t, t.now));
    assert Quietly(s, t);
    QuietlyOn(s, t, ObserveAt(t, t.now));
  }

  lemma WithdrawKeepsSample(s: SampleState, expected: BindingIdentity)
    requires SampleInv(s)
    ensures Quietly(s, Withdraw(s, expected).0)
  {
    hide SampleInv, Stays, Asked, GateSpec.WithdrawBinding, DiscardPrepared, ApplyControl;
    ReadKeeps(s);
    var t := Read(s);
    var d := GateSpec.WithdrawBinding(t.gate, expected, t.now).1;
    var c := CallWithdraw(expected, t.now);
    AskKeeps(t, c);
    var u := Ask(t, c);
    LeadsOn(s, t, u);
    assert Quietly(s, u);
    if d.status == Applied {
      WhatLeads(s, u);
      DiscardKeeps(u);
      var v := DiscardPrepared(u);
      QuietlyOn(s, u, v);
      if d.nativeStopAuthority.Some? {
        WhatLeads(u, v);
        ApplyControlKeeps(v, d.nativeStopAuthority.value, ControlDecision(ControlApplied, true));
        QuietlyOn(s, v, Withdraw(s, expected).0);
      }
    }
  }

  /** Polling brings no new work and delivers nothing. */
  lemma PollKeeps(s: SampleState)
    requires SampleInv(s)
    ensures Quietly(s, PollSample(s))
  {
    hide SampleInv, Stays, Withdraw, ObserveAt;
    ReadKeeps(s);
    var t := Read(s);
    StandingStill(t);
    WithdrawKeepsSample(t, t.gate.config.binding);
    var lost := t.gate.initialization == Ready && !IsServiceable(t.adapter);
    var u := if lost then Withdraw(t, t.gate.config.binding).0 else t;
    assert Quietly(s, t);
    QuietlyOn(s, t, u);
    WhatLeads(t, u);
    ObserveAtKeeps(u, u.now);
    QuietlyOn(s, u, ObserveAt(u, u.now));
  }

  lemma CancelKeepsSample(s: SampleState, authority: OperationAuthority)
    requires SampleInv(s)
    ensures Quietly(s, Cancel(s, authority).0)
  {
    hide SampleInv, Stays, PollSample, ApplyControl, GateSpec.RequestCancel, Asked;
    PollKeeps(s);
    var p := PollSample(s);
    WhatLeads(s, p);
    ReadKeeps(p);
    var t := Read(p);
    assert Quietly(p, t);
    QuietlyOn(s, p, t);
    var d := GateSpec.RequestCancel(t.gate, authority, t.now).1;
    WhatLeads(p, t);
    AskKeeps(t, CallRequestCancel(authority, t.now));
    var u := Ask(t, CallRequestCancel(authority, t.now));
    assert Quietly(t, u);
    WhatLeads(t, u);
    ApplyControlKeeps(u, authority, d);
    QuietlyOn(s, t, u);
    QuietlyOn(s, u, ApplyControl(u, authority, d));
  }
}
