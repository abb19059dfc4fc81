/**
 Runs of the sample host: any interleaving of its public calls, under a clock that never runs backwards.
 The results in the sink are those of the operations whose output the gate has accepted, in order, once
 each despite replays, and each answers the request it was made for.
 */
module SampleRuns {
  import opened Machine
  import opened GateTypes
  import opened GateSpec
  import opened GateInvariant
  import opened GateEffects
  import opened SampleSpec
  import opened SampleInvariant
  import opened SampleSteps

  // ---------- Starting ----------

  lemma NumbersKeep(s: SampleState, n: Numbers)
    requires SampleInv(s)
    ensures Leads(s, s.(numbers := n))
  {
    hide GateFits, IsGood, Answers, SinkAgrees;
  }

  lemma StartupForKeeps(s: SampleState, kind: StartupEvidenceKind, source: string, observed: bool, n: Numbers,
                        sequence: U64)
    requires SampleInv(s)
    ensures Leads(s, StartupFor(s.(numbers := n), kind, source, observed, sequence))
  {
    hide SampleInv, Asked, Stays;
    NumbersKeep(s, n);
    var r := s.(numbers := n);
    WhatLeads(s, r);
    ReadKeeps(r);
    var t := Read(r);
    WhatLeads(r, t);
    var c := CallObserveStartup(StartupEvidence(kind, t.gate.config.binding, EvidenceRecord(source, t.now, sequence),
                                                observed));
    AskKeeps(t, c);
    LeadsThrice(s, r, t, Ask(t, c));
  }

  lemma DeclarationsKeep(s: SampleState)
    requires SampleInv(s)
    ensures Leads(s, DeclareBinding(s)) && Leads(s, DeclareWorker(s)) && Leads(s, DeclareSink(s))
  {
    hide SampleInv, StartupFor, Leads;
    var t, u, v := CountBinding(s), CountWorker(s), CountSink(s);
    StartupForKeeps(s, BindingIdleAndSettled, ADAPTER, t.adapter.pending.None?, t.numbers, t.numbers.binding);
    StartupForKeeps(s, WorkerReady, WORKER, u.adapter.workerReady && !u.adapter.closed, u.numbers, u.numbers.worker);
    StartupForKeeps(s, ResultSinkReady, SINK, IsServiceableSink(v.adapter), v.numbers, v.numbers.sink);
  }

  lemma InitializeKeeps(s: SampleState)
    requires SampleInv(s)
    ensures Leads(s, Initialize(s))
  {
    hide SampleInv, PollSample, DeclareBinding, DeclareWorker, DeclareSink, Stays;
    StandingStill(s);
    PollKeeps(s);
    var t := if s.gate.initialization == Ready && !IsServiceable(s.adapter) then PollSample(s) else s;
    WhatLeads(s, t);
    DeclarationsKeep(t);
    var u := DeclareBinding(t);
    WhatLeads(t, u);
    DeclarationsKeep(u);
    var v := DeclareWorker(u);
    WhatLeads(u, v);
    DeclarationsKeep(v);
    LeadsThrice(t, u, v, Initialize(s));
    LeadsOn(s, t, Initialize(s));
  }

  // ---------- Rebinding ----------

  /** All but the gate's binding and the adapter's disposition is as it was. */
  predicate SameHands(s: SampleState, t: SampleState) {
    && t.adapter.results == s.adapter.results && t.adapter.replay == s.adapter.replay && t.staged == s.staged
    && (t.isShutdown ==> t.adapter.closed == s.adapter.closed)
    && t.current == s.current && t.prepared == s.prepared && t.request == s.request && t.history == s.history
    && t.isShutdown == s.isShutdown && t.now >= s.now && t.gate.receipt == s.gate.receipt
    && (t.adapter.pending.Some? ==> t.adapter.pending == s.adapter.pending)
  }

  lemma SameHandsKeep(s: SampleState, t: SampleState)
    requires SampleInv(s) && SameHands(s, t) && GateFits(t.gate, t.now)
    ensures SampleInv(t)
  {
    hide GateFits, Answers, CallbackAnswers, IsOrdered, WorkAnswers;
  }

  lemma SameHandsOn(s: SampleState, t: SampleState, u: SampleState)
    requires SameHands(s, t) && SameHands(t, u)
    ensures SameHands(s, u)
  {
  }

  ghost predicate Preparing(s: SampleState, b: BindingIdentity) {
    PreparesFor(s.gate, s.now, b)
  }

  ghost predicate PreparesFor(g: GateState, now: U64, b: BindingIdentity) {
    GateFits(g, now) && g.phase == BindingPhase.Preparing && g.candidate.Some? && g.candidate.value.binding == b
  }

  lemma GateTakesOffer(g: GateState, e: BindingReadinessEvidence, now: U64, b: BindingIdentity)
    requires PreparesFor(g, now, b) && e.record.observedAt <= now
    ensures var h := Asked(g, CallObserveReadiness(e));
      PreparesFor(h, now, b) && h.receipt == g.receipt && h.config == g.config
  {
    hide GateFits, ObserveReadiness, Callable;
    CallFits(g, CallObserveReadiness(e), now);
    OfferEffects(g, CallObserveReadiness(e));
  }

  /** A state with nothing but its gate exchanged. */
  lemma OnlyTheGate(s: SampleState, h: GateState)
    requires h.receipt == s.gate.receipt
    ensures SameHands(s, s.(gate := h))
  {
  }

  lemma OfferForKeeps(s: SampleState, b: BindingIdentity, kind: StartupEvidenceKind, source: string, at: U64,
                      sequence: U64)
    requires Preparing(s, b) && at <= s.now && at < MAX_U64
    ensures var t := OfferFor(s, b, kind, source, at, sequence);
      Preparing(t, b) && SameHands(s, t) && t.now == s.now && t.adapter == s.adapter && t.gate.config == s.gate.config
  {
    hide PreparesFor, Asked, SameHands;
    var e := BindingReadinessEvidence(kind, b, EvidenceRecord(source, at, sequence), true, at + 1);
    GateTakesOffer(s.gate, e, s.now, b);
    OnlyTheGate(s, Asked(s.gate, CallObserveReadiness(e)));
  }

  lemma OfferAllKeeps(s: SampleState, b: BindingIdentity, at: U64)
    requires Preparing(s, b) && at <= s.now && at < MAX_U64
    ensures var t := OfferAll(s, b, at);
      Preparing(t, b) && SameHands(s, t) && t.now == s.now && t.adapter == s.adapter && t.gate.config == s.gate.config
  {
    hide GateFits, OfferFor;
    var t := CountBinding(s);
    OfferForKeeps(t, b, BindingIdleAndSettled, ADAPTER, at, t.numbers.binding);
    var u := CountWorker(OfferFor(t, b, BindingIdleAndSettled, ADAPTER, at, t.numbers.binding));
    OfferForKeeps(u, b, WorkerReady, WORKER, at, u.numbers.worker);
    var v := CountSink(OfferFor(u, b, WorkerReady, WORKER, at, u.numbers.worker));
    OfferForKeeps(v, b, ResultSinkReady, SINK, at, v.numbers.sink);
  }

  /** What the gate comes to when a candidate is installed, or abandoned at once. */
  lemma GateCommitsOrAbandons(g: GateState, b: BindingIdentity, now: U64)
    requires PreparesFor(g, now, b)
    ensures var (h, d) := CommitRebind(g, b, now);
      && h == Asked(g, CallCommit(b, now)) && GateFits(h, now) && h.receipt == g.receipt
      && (d.status == Applied ==> h.phase == Active && h.config.binding == b)
      && (d.status != Applied ==>
            var k := Asked(h, CallWithdraw(b, now));
            GateFits(k, now) && k.receipt == g.receipt && k.phase == Withdrawn && k.config == g.config)
  {
    hide GateFits, CommitRebind, GateSpec.WithdrawBinding, Callable;
    CallFits(g, CallCommit(b, now), now);
    CommitEffects(g, b, now);
    CallFits(g, CallWithdraw(b, now), now);
    AbandonEffects(g, b, now);
  }

  /** Whatever becomes of a candidate, none is left behind. */
  lemma CommitOrAbandonKeeps(s: SampleState, b: BindingIdentity, deferred: bool)
    requires Preparing(s, b) && s.adapter.pending.None? && !s.isShutdown
    ensures var (t, d) := CommitOrAbandon(s, b, deferred, s.now);
      && SameHands(s, t) && GateFits(t.gate, t.now)
      && (d.status == Applied ==> t.gate.phase == Active && t.gate.config.binding == b)
      && (d.status != Applied ==> t.gate.phase == Withdrawn && t.gate.config == s.gate.config && t.adapter == s.adapter)
  {
    hide GateFits, CommitRebind, Asked, PreparesFor;
    GateCommitsOrAbandons(s.gate, b, s.now);
  }

  /** A candidate can always be abandoned. */
  lemma AbandonEffects(g: GateState, b: BindingIdentity, now: U64)
    requires GateFits(g, now) && g.phase == BindingPhase.Preparing && g.candidate.Some?
             && g.candidate.value.binding == b
    ensures var h := GateSpec.WithdrawBinding(g, b, now).0;
            h.phase == Withdrawn && h.receipt == g.receipt && h.config == g.config
  {
    hide LatestBindingTime, GateEndsBy, Inv;
    LatestIsLeast(g, now);
  }

  /** What a rebind comes to. */
  ghost predicate Rebinds(s: SampleState, t: SampleState, d: BindingDecision, provider: string) {
    && SampleInv(t) && SameHands(s, t) && t.gate.phase != BindingPhase.Preparing
    && (d.status == Applied ==>
          && s.gate.generationHighWater < MAX_U64 && t.gate.phase == Active
          && t.gate.config.binding == NextBinding(s.gate, provider))
    && (d.status != Applied ==>
          t.gate.phase == s.gate.phase && t.gate.config.binding == s.gate.config.binding && t.adapter == s.adapter)
  }

  lemma BeginKeepsSample(s: SampleState, expected: BindingIdentity, provider: string)
    requires SampleInv(s) && s.now < MAX_U64
    ensures var c := BeginFor(s, expected, provider, s.now);
      var t := Ask(s, c);
      && SameHands(s, t) && GateFits(t.gate, t.now) && t.gate.config == s.gate.config && t.adapter == s.adapter
        && t.now == s.now
      && AnswerOf(s.gate, c).Binding?
      && var d := AnswerOf(s.gate, c).binding;
         && (d.status != Applied ==> t.gate == s.gate)
         && (d.status == Applied ==>
               && s.gate.generationHighWater < MAX_U64 && d.candidate == Some(NextBinding(s.gate, provider))
               && s.gate.phase == Withdrawn && Preparing(t, NextBinding(s.gate, provider)))
  {
    hide GateFits, BeginRebind, Callable, AllAnswer, SinkAgrees;
    var c := BeginFor(s, expected, provider, s.now);
    CallFits(s.gate, c, s.now);
    BeginEffects(s.gate, expected, provider, c.closure, s.now);
    BeginsFromWithdrawn(s.gate, expected, provider, c.closure, s.now);
  }

  lemma BeginsFromWithdrawn(g: GateState, expected: BindingIdentity, provider: string, e: BindingReadinessEvidence,
                            now: U64)
    requires Callable(g)
    ensures BeginRebind(g, expected, provider, e, now).1.status == Applied ==> g.phase == Withdrawn
  {
    hide LatestBindingTime, OldWorkClosed, ClosesOldScope;
  }

  lemma RebindFromKeeps(s: SampleState, expected: BindingIdentity, provider: string, deferred: bool)
    requires SampleInv(s) && s.now < MAX_U64 && s.adapter.pending.None? && !s.isShutdown
             && s.gate.phase != BindingPhase.Preparing
    ensures Rebinds(s, RebindFrom(s, expected, provider, deferred).0, RebindFrom(s, expected, provider, deferred).1,
                    provider)
  {
    hide SampleInv, GateFits, Asked, AnswerOf, Preparing, OfferAll, CommitOrAbandon;
    var t := CountBinding(s);
    NumbersKeep(s, t.numbers);
    WhatLeads(s, t);
    BeginKeepsSample(t, expected, provider);
    var c := BeginFor(t, expected, provider, t.now);
    var u := Ask(t, c);
    var begun := AnswerOf(t.gate, c).binding;
    if begun.status == Applied {
      var b := NextBinding(s.gate, provider);
      OfferAllKeeps(u, b, t.now);
      var v := OfferAll(u, b, t.now);
      CommitOrAbandonKeeps(v, b, deferred);
      SameHandsOn(s, u, v);
      SameHandsOn(s, v, CommitOrAbandon(v, b, deferred, t.now).0);
      SameHandsKeep(s, CommitOrAbandon(v, b, deferred, t.now).0);
    } else {
      SameHandsKeep(s, u);
    }
  }

  /**
   A provider is replaced only when nothing is pending, prepared or staged, and then by the next generation.
   When it is not, the old binding and the old adapter stand, and no candidate stays.
   */
  lemma RebindKeeps(s: SampleState, expected: BindingIdentity, provider: string, deferred: bool)
    requires SampleInv(s) && s.gate.phase != BindingPhase.Preparing
    ensures var p := Read(PollSample(s));
      var (t, d) := Rebind(s, expected, provider, deferred);
      && Leads(s, p) && p.adapter.results == s.adapter.results && Rebinds(p, t, d, provider)
      && (d.status == Applied ==> p.adapter.pending.None? && p.prepared.None? && p.staged == [] && !s.isShutdown)
  {
    hide SampleInv, PollSample, SinkGrows, RebindFrom;
    PollKeeps(s);
    var q := PollSample(s);
    WhatLeads(s, q);
    ReadKeeps(q);
    var p := Read(q);
    LeadsOn(s, q, p);
    WhatLeads(s, p);
    if p.adapter.pending.None? && !p.isShutdown && p.now < MAX_U64 { RebindFromKeeps(p, expected, provider, deferred); }
  }

  // ---------- The other calls ----------

  /** After a dispatch the events are taken: one where work is deferred, all where it is not. */
  function TakeEvents(s: SampleState): SampleState
    requires SampleInv(s)
  {
    if s.adapter.deferred then ProcessNext(s).0 else ProcessAll(s)
  }

  lemma TakeEventsKeeps(s: SampleState)
    requires SampleInv(s)
    ensures Leads(s, TakeEvents(s))
  {
    hide SampleInv, ProcessNext, Stays;
    ProcessNextKeeps(s);
    ProcessAllKeeps(s);
  }

  function DispatchPrepared(s: SampleState, authority: OperationAuthority): (SampleState, bool)
    requires SampleInv(s)
  {
    PollKeeps(s);
    var t := PollSample(s);
    if s.prepared == Some(authority) && t.prepared.None? then (TakeEvents(t), false)
    else if t.prepared != Some(authority) || t.request.None? || t.isShutdown then (t, false)
    else
      ForgetPrepared(t);
      PreparedAnswers(t);
      var u := t.(prepared := None, request := None);
      DispatchWorkKeeps(u, authority, t.request.value);
      var (v, sent) := DispatchWork(u, authority, t.request.value);
      (TakeEvents(v), sent)
  }

  lemma PreparedAnswers(s: SampleState)
    requires SampleInv(s) && s.prepared.Some? && s.request.Some?
    ensures WorkAnswers(WorkFor(s.prepared.value, s.request.value), s.history)
  {
    hide GateFits, Decimal;
  }

  lemma DispatchKeepsSample(s: SampleState, authority: OperationAuthority)
    requires SampleInv(s)
    ensures Leads(s, DispatchPrepared(s, authority).0)
  {
    hide SampleInv, PollSample, TakeEvents, DispatchWork, Stays, WorkAnswers;
    PollKeeps(s);
    var t := PollSample(s);
    WhatLeads(s, t);
    TakeEventsKeeps(t);
    LeadsOn(s, t, TakeEvents(t));
    if t.prepared == Some(authority) && t.request.Some? {
      ForgetPrepared(t);
      PreparedAnswers(t);
      var u := t.(prepared := None, request := None);
      WhatLeads(t, u);
      DispatchWorkKeeps(u, authority, t.request.value);
      var v := DispatchWork(u, authority, t.request.value).0;
      WhatLeads(u, v);
      TakeEventsKeeps(v);
      LeadsThrice(t, u, v, TakeEvents(v));
      LeadsOn(s, t, TakeEvents(v));
    }
  }

  function CompleteDeferred(s: SampleState): (SampleState, bool) {
    var t := PollSample(s);
    if t.adapter.pending.None? || t.adapter.closed then (t, false) else (FinishPending(t), true)
  }

  lemma CompleteKeeps(s: SampleState)
    requires SampleInv(s)
    ensures Leads(s, CompleteDeferred(s).0)
  {
    hide SampleInv, PollSample, FinishPending, Stays;
    PollKeeps(s);
    var t := PollSample(s);
    WhatLeads(s, t);
    FinishPendingKeeps(t);
    LeadsOn(s, t, FinishPending(t));
  }

  function Closed(a: AdapterState): AdapterState {
    (if a.closed then a else a.(workerReady := false, sinkReady := false, replay := None, replayEnabled := false,
                                closed := true))
    .(listening := false)
  }

  /** Everything up to the closing of the adapter. */
  function WindDown(s: SampleState): SampleState {
    FinishPending(DiscardPrepared(Ask(PollSample(s), CallCloseAdmission)))
  }

  lemma WindDownKeeps(s: SampleState)
    requires SampleInv(s)
    ensures Leads(s, WindDown(s))
  {
    hide SampleInv, PollSample, Asked, DiscardPrepared, FinishPending, Stays;
    PollKeeps(s);
    var t := PollSample(s);
    WhatLeads(s, t);
    AskKeeps(t, CallCloseAdmission);
    var u := Ask(t, CallCloseAdmission);
    WhatLeads(t, u);
    DiscardKeeps(u);
    var v := DiscardPrepared(u);
    WhatLeads(u, v);
    FinishPendingKeeps(v);
    LeadsThrice(s, t, u, v);
    LeadsOn(s, v, FinishPending(v));
  }

  function Shutdown(s: SampleState): SampleState
    requires SampleInv(s)
  {
    if s.isShutdown then s
    else
      WindDownKeeps(s);
      var t := ProcessAll(WindDown(s));
      t.(adapter := Closed(t.adapter), isShutdown := true)
  }

  /** A shutdown leaves nothing staged. */
  lemma ShutdownKeeps(s: SampleState)
    requires SampleInv(s)
    ensures var t := Shutdown(s);
      && SampleInv(t) && t.isShutdown && t.current == s.current && t.history == s.history && t.now >= s.now
      && SinkGrows(s.current, s.adapter.results, t.adapter.results)
      && (t.gate.phase == BindingPhase.Preparing ==> s.gate.phase == BindingPhase.Preparing)
      && (!s.isShutdown ==> t.staged == [])
      && (s.adapter.closed ==> t.adapter.results == s.adapter.results)
  {
    hide WindDown, ProcessAll, SampleInv;
    WindDownKeeps(s);
    WhatLeads(s, WindDown(s));
    ProcessAllKeeps(WindDown(s));
    var t := ProcessAll(WindDown(s));
    LeadsOn(s, WindDown(s), t);
    WhatLeads(s, t);
    ClosedAdapterKeeps(t);
  }

  lemma ClosedAdapterKeeps(t: SampleState)
    requires SampleInv(t)
    ensures SampleInv(t.(adapter := Closed(t.adapter), isShutdown := true))
  {
    hide GateFits, IsGood, Answers, CallbackAnswers, SinkAgrees, WorkAnswers;
  }

  lemma ReplayKeeps(s: SampleState)
    requires SampleInv(s)
    ensures Leads(s, Replay(s).0)
  {
    StandingStill(s);
    if !s.adapter.closed && s.adapter.replay.Some? {
      ReadKeeps(s);
      var t := Read(s);
      var c := t.adapter.replay.value;
      WhatLeads(s, t);
      assert CallbackAnswers(c, t.history);
      StageFirstKeeps(t, c);
      LeadsOn(s, t, Replay(s).0);
    }
  }

  lemma StageFirstKeeps(s: SampleState, c: Callback)
    requires SampleInv(s) && CallbackAnswers(c, s.history)
    ensures Leads(s, s.(staged := [Staged(c, s.now)] + s.staged))
  {
    hide GateFits, CallbackAnswers, Answers, SinkAgrees;
  }

  // ---------- Every call ----------

  datatype Action =
    | DoInitialize
    | DoPrepare(request: SampleRequest)
    | DoDispatch(authority: OperationAuthority)
    | DoCancel(authority: OperationAuthority)
    | DoPoll
    | DoComplete
    | DoProcessNext
    | DoProcessAll
    | DoReplay
    | DoShutdown
    | DoWithdraw(binding: BindingIdentity)
    | DoRebind(expected: BindingIdentity, provider: string, deferred: bool)
    | DoConfigure(setting: Setting)

  datatype Setting =
    | WorkerReadiness(ready: bool)
    | SinkReadiness(ready: bool)
    | RejectNext
    | FailNext
    | CancellationIs(mode: CancellationMode)
    | SettlementReporting(enabled: bool)
    | ResultReplay(enabled: bool)

  function Configured(a: AdapterState, setting: Setting): AdapterState {
    match setting
    case WorkerReadiness(ready) => a.(workerReady := ready)
    case SinkReadiness(ready) => a.(sinkReady := ready)
    case RejectNext => a.(rejectNext := true)
    case FailNext => a.(failNext := true)
    case CancellationIs(mode) => a.(cancellation := mode)
    case SettlementReporting(enabled) => a.(settlementReporting := enabled)
    case ResultReplay(enabled) => a.(replayEnabled := enabled, replay := None)
  }

  function Configure(s: SampleState, setting: Setting): SampleState {
    s.(adapter := Configured(s.adapter, setting))
  }

  /** A public call, and what the clock shows while it lasts. */
  datatype SampleCall = SampleCall(action: Action, readings: seq<U64>)

  function Act(s: SampleState, a: Action): SampleState
    requires SampleInv(s)
  {
    match a
    case DoInitialize => Initialize(s)
    case DoPrepare(q) => Prepare(s, q).0
    case DoDispatch(authority) => DispatchPrepared(s, authority).0
    case DoCancel(authority) => Cancel(s, authority).0
    case DoPoll => PollSample(s)
    case DoComplete => CompleteDeferred(s).0
    case DoProcessNext => ProcessNext(s).0
    case DoProcessAll => ProcessAll(s)
    case DoReplay => Replay(s).0
    case DoShutdown => Shutdown(s)
    case DoWithdraw(b) => Withdraw(s, b).0
    case DoRebind(b, provider, deferred) => Rebind(s, b, provider, deferred).0
    case DoConfigure(setting) => Configure(s, setting)
  }

  function SampleNext(s: SampleState, c: SampleCall): SampleState
    requires SampleInv(s)
  {
    ReadingsKeep(s, c.readings);
    Act(s.(readings := c.readings), c.action)
  }

  lemma ReadingsKeep(s: SampleState, readings: seq<U64>)
    requires SampleInv(s)
    ensures SampleInv(s.(readings := readings))
  {
    hide GateFits, IsGood, Answers, SinkAgrees;
  }

  lemma ConfiguredKeeps(s: SampleState, setting: Setting)
    requires SampleInv(s)
    ensures Leads(s, Configure(s, setting))
  {
    if setting.ResultReplay? {
      ForgetReplay(s, setting.enabled);
    } else {
      AdapterStepKeeps(s, Configured(s.adapter, setting));
    }
  }

  lemma ForgetReplay(s: SampleState, enabled: bool)
    requires SampleInv(s)
    ensures Leads(s, s.(adapter := s.adapter.(replayEnabled := enabled, replay := None)))
  {
    hide GateFits, IsGood, Answers, SinkAgrees, WorkAnswers;
  }

  /** What holds between public calls: the invariant, and no candidate half made. */
  ghost predicate Rests(s: SampleState) {
    SampleInv(s) && s.gate.phase != BindingPhase.Preparing
  }

  lemma RestsIsSound(s: SampleState)
    requires Rests(s)
    ensures SampleInv(s)
  {
    hide SampleInv;
  }

  /** The operation in hand is the same and may deliver its result, or another is taken up and none is delivered. */
  predicate HandsOn(s: SampleState, t: SampleState) {
    || (t.current == s.current && t.history == s.history && SinkGrows(s.current, s.adapter.results, t.adapter.results))
    || (t.adapter.results == s.adapter.results && t.current.Some? && t.current.value.operationId !in s.history
        && t.current.value.operationId in t.history
        && t.history == s.history[t.current.value.operationId := t.history[t.current.value.operationId]])
  }

  ghost predicate Moves(s: SampleState, t: SampleState) {
    && Rests(t) && HandsOn(s, t)
    && (s.isShutdown ==> t.isShutdown && t.adapter.results == s.adapter.results)
  }

  lemma LeadsMoves(s: SampleState, t: SampleState)
    requires Rests(s) && Leads(s, t)
    ensures Moves(s, t)
  {
    hide GateFits, AllAnswer, SinkAgrees, SinkGrows;
  }

  lemma PreparedMoves(s: SampleState, q: SampleRequest)
    requires Rests(s)
    ensures Moves(s, Prepare(s, q).0)
  {
    hide SampleInv, Prepare, SinkGrows;
    PrepareKeeps(s, q);
    if Prepare(s, q).1.authority.None? { LeadsMoves(s, Prepare(s, q).0); }
  }

  lemma ReboundMoves(s: SampleState, expected: BindingIdentity, provider: string, deferred: bool)
    requires Rests(s)
    ensures Moves(s, Rebind(s, expected, provider, deferred).0)
  {
    hide SampleInv, Rebind, PollSample;
    RebindKeeps(s, expected, provider, deferred);
    var p := Read(PollSample(s));
    LeadsMoves(s, p);
  }

  lemma ShutdownMoves(s: SampleState)
    requires Rests(s)
    ensures Moves(s, Shutdown(s))
  {
    hide SampleInv, Shutdown, SinkGrows;
    ShutdownKeeps(s);
    ShutdownStays(s);
  }

  lemma ShutdownStays(s: SampleState)
    requires SampleInv(s)
    ensures s.isShutdown ==> Shutdown(s) == s
  {
    hide SampleInv, ProcessAll, WindDown;
  }

  predicate IsWork(a: Action) {
    a.DoInitialize? || a.DoPrepare? || a.DoDispatch?
  }

  predicate IsSetup(a: Action) {
    a.DoRebind? || a.DoConfigure? || a.DoShutdown?
  }

  lemma ConfiguredMoves(s: SampleState, setting: Setting)
    requires Rests(s)
    ensures Moves(s, Configure(s, setting))
  {
    hide Moves, SampleInv, Configure;
    ConfiguredKeeps(s, setting);
    LeadsMoves(s, Configure(s, setting));
  }

  lemma WorkMoves(s: SampleState, a: Action)
    requires Rests(s) && IsWork(a)
    ensures Moves(s, Act(s, a))
  {
    hide Moves, Leads, SampleInv, Initialize, Prepare, DispatchPrepared;
    match a
    case DoInitialize => InitializeKeeps(s); LeadsMoves(s, Initialize(s));
    case DoPrepare(q) => PreparedMoves(s, q);
    case DoDispatch(authority) => DispatchKeepsSample(s, authority); LeadsMoves(s, DispatchPrepared(s, authority).0);
  }

  lemma SetupMoves(s: SampleState, a: Action)
    requires Rests(s) && IsSetup(a)
    ensures Moves(s, Act(s, a))
  {
    hide Moves, SampleInv, Rebind, Configure, Shutdown;
    match a
    case DoRebind(b, provider, deferred) => ReboundMoves(s, b, provider, deferred);
    case DoShutdown => ShutdownMoves(s);
    case DoConfigure(setting) => ConfiguredMoves(s, setting);
  }

  lemma EventMoves(s: SampleState, a: Action)
    requires Rests(s) && !IsWork(a) && !IsSetup(a)
    ensures Moves(s, Act(s, a))
  {
    hide Moves, Leads, SampleInv, Cancel, PollSample, CompleteDeferred, ProcessNext, ProcessAll, Replay, Withdraw;
    match a
    case DoCancel(authority) => CancelKeepsSample(s, authority); LeadsMoves(s, Cancel(s, authority).0);
    case DoPoll => PollKeeps(s); LeadsMoves(s, PollSample(s));
    case DoComplete => CompleteKeeps(s); LeadsMoves(s, CompleteDeferred(s).0);
    case DoProcessNext => ProcessNextKeeps(s); LeadsMoves(s, ProcessNext(s).0);
    case DoProcessAll => ProcessAllKeeps(s); LeadsMoves(s, ProcessAll(s));
    case DoReplay => ReplayKeeps(s); LeadsMoves(s, Replay(s).0);
    case DoWithdraw(b) => WithdrawKeepsSample(s, b); LeadsMoves(s, Withdraw(s, b).0);
  }

  /** Every public call keeps the invariant, and delivers at most the result of the operation in hand. */
  lemma CallMoves(s: SampleState, c: SampleCall)
    requires Rests(s)
    ensures Moves(s, SampleNext(s, c))
  {
    hide Moves, SampleInv, Act;
    ReadingsKeep(s, c.readings);
    var t := s.(readings := c.readings);
    if IsWork(c.action) {
      WorkMoves(t, c.action);
    } else if IsSetup(c.action) {
      SetupMoves(t, c.action);
    } else {
      EventMoves(t, c.action);
    }
    MovesFromReadings(s, c.readings, SampleNext(s, c));
  }

  lemma MovesFromReadings(s: SampleState, readings: seq<U64>, u: SampleState)
    requires Moves(s.(readings := readings), u)
    ensures Moves(s, u)
  {
    hide SampleInv, SinkGrows;
  }

  // ---------- Runs ----------

  lemma MovesRests(s: SampleState, t: SampleState)
    requires Moves(s, t)
    ensures Rests(t)
  {
    hide SampleInv, HandsOn;
  }

  /** What a caller may count on, whichever call it makes: the sink only grows, and not once shut down. */
  lemma MovesKeepSink(s: SampleState, t: SampleState)
    requires Moves(s, t)
    ensures s.adapter.results <= t.adapter.results && |t.adapter.results| <= |s.adapter.results| + 1
    ensures s.isShutdown ==> t.isShutdown && t.adapter.results == s.adapter.results
  {
    hide SampleInv, Rests;
  }

  /** A host made at `start`, after some calls. */
  ghost function After(deferred: bool, start: U64, calls: seq<SampleCall>): (s: SampleState)
    ensures Rests(s)
  {
    if calls == [] then NewSampleRests(deferred, start); NewSample(deferred, start)
    else
      var s := After(deferred, start, calls[..|calls| - 1]);
      CallMoves(s, calls[|calls| - 1]);
      MovesRests(s, SampleNext(s, calls[|calls| - 1]));
      SampleNext(s, calls[|calls| - 1])
  }

  lemma NewSampleRests(deferred: bool, start: U64)
    ensures Rests(NewSample(deferred, start))
  {
    hide SampleInv;
    NewSampleIsValid(deferred, start);
  }

  /** One call further. */
  lemma AfterOneMore(deferred: bool, start: U64, calls: seq<SampleCall>)
    requires calls != []
    ensures var s := After(deferred, start, calls[..|calls| - 1]);
      Rests(s) && Moves(s, After(deferred, start, calls))
  {
    hide SampleInv, SampleNext, Moves;
    var s := After(deferred, start, calls[..|calls| - 1]);
    CallMoves(s, calls[|calls| - 1]);
  }

  /** Whether the sink has a result of this operation. */
  predicate InSink(s: SampleState, operationId: U64) {
    exists k :: 0 <= k < |s.adapter.results| && s.adapter.results[k].operationId == operationId
  }

  /** Whether the gate has, at this moment, accepted output of this operation. */
  predicate Accepts(s: SampleState, operationId: U64) {
    IsAccepted(s.gate) && s.gate.receipt.value.authority.operationId == operationId
  }

  lemma AcceptedIsInSink(s: SampleState, operationId: U64)
    requires Rests(s)
    ensures Accepts(s, operationId) ==> InSink(s, operationId)
  {
    assert Accepts(s, operationId) ==> s.adapter.results[|s.adapter.results| - 1].operationId == operationId;
  }

  lemma InSinkOf(results: seq<SampleResult>, more: seq<SampleResult>, k: nat)
    requires results <= more && k < |results|
    ensures more[k] == results[k]
  {
  }

  /** What a call adds to the sink, the gate has just accepted. */
  lemma AddedIsAccepted(s: SampleState, t: SampleState, operationId: U64)
    requires Rests(s) && Moves(s, t)
    ensures InSink(s, operationId) ==> InSink(t, operationId)
    ensures InSink(t, operationId) && !InSink(s, operationId) ==> Accepts(t, operationId)
  {
    hide GateFits, AllAnswer, IsOrdered;
    var before, after := s.adapter.results, t.adapter.results;
    if InSink(s, operationId) {
      var k :| 0 <= k < |before| && before[k].operationId == operationId;
      InSinkOf(before, after, k);
    } else if InSink(t, operationId) {
      var k :| 0 <= k < |after| && after[k].operationId == operationId;
      if k < |before| { InSinkOf(before, after, k); }
    }
  }

  ghost predicate AcceptsAfter(deferred: bool, start: U64, calls: seq<SampleCall>, operationId: U64) {
    Accepts(After(deferred, start, calls), operationId)
  }

  /** Whether the gate has accepted output of this operation at some moment of a run. */
  ghost predicate EverAccepted(deferred: bool, start: U64, calls: seq<SampleCall>, operationId: U64) {
    exists m: nat :: m <= |calls| && AcceptsAfter(deferred, start, calls[..m], operationId)
  }

  lemma EverAcceptedNow(deferred: bool, start: U64, calls: seq<SampleCall>, operationId: U64)
    requires calls != []
    ensures EverAccepted(deferred, start, calls, operationId) <==>
            || EverAccepted(deferred, start, calls[..|calls| - 1], operationId)
            || AcceptsAfter(deferred, start, calls, operationId)
  {
    hide AcceptsAfter;
    var before := calls[..|calls| - 1];
    assert calls[..|calls|] == calls;
    assert forall m: nat :: m <= |before| ==> before[..m] == calls[..m];
  }

  lemma EverAcceptedAtStart(deferred: bool, start: U64, operationId: U64)
    ensures !EverAccepted(deferred, start, [], operationId) && !InSink(After(deferred, start, []), operationId)
  {
    hide SampleInv;
    var none: seq<SampleCall> := [];
    forall m: nat | m <= 0 ensures !AcceptsAfter(deferred, start, none[..m], operationId) {
      assert none[..m] == none;
    }
  }

  /**
   In every run, an operation's result is in the sink exactly when the gate has at some moment accepted its
   output.
   */
  lemma {:induction false} SinkIsWhatWasAccepted(deferred: bool, start: U64, calls: seq<SampleCall>, operationId: U64)
    ensures InSink(After(deferred, start, calls), operationId) <==> EverAccepted(deferred, start, calls, operationId)
  {
    hide SampleInv, SampleNext, InSink, Accepts, EverAccepted, Rests, Moves;
    if calls == [] {
      EverAcceptedAtStart(deferred, start, operationId);
    } else {
      var before := calls[..|calls| - 1];
      SinkIsWhatWasAccepted(deferred, start, before, operationId);
      EverAcceptedNow(deferred, start, calls, operationId);
      AfterOneMore(deferred, start, calls);
      AddedIsAccepted(After(deferred, start, before), After(deferred, start, calls), operationId);
      AcceptedIsInSink(After(deferred, start, calls), operationId);
    }
  }

  /** In every run, the sink is in strictly increasing order of operations, so each has one result at most. */
  lemma SinkIsOrdered(deferred: bool, start: U64, calls: seq<SampleCall>)
    ensures IsOrdered(After(deferred, start, calls).adapter.results)
  {
    hide After, GateFits, AllAnswer, IsOrdered;
    assert Rests(After(deferred, start, calls));
  }

  /**
   In every run, each result in the sink is of an operation that was prepared with a request, for that request's
   reference: each of its values squared, in order, and the sum of these squares.
   */
  lemma ResultsAnswerRequests(deferred: bool, start: U64, calls: seq<SampleCall>, k: nat)
    requires k < |After(deferred, start, calls).adapter.results|
    ensures var s := After(deferred, start, calls);
      var r := s.adapter.results[k];
      && r.operationId in s.history
      && var q := s.history[r.operationId];
         && r.reference == q.reference && |r.squares| == |q.values|
         && (forall i :: 0 <= i < |q.values| ==> r.squares[i] == q.values[i] * q.values[i])
         && r.sum == SumOf(r.squares)
  {
    hide After, GateFits, SinkAgrees;
    assert Answers(After(deferred, start, calls).adapter.results[k], After(deferred, start, calls).history);
  }

  /** What an operation was prepared with never changes in the history. */
  lemma HistoryStays(deferred: bool, start: U64, calls: seq<SampleCall>, operationId: U64)
    requires calls != [] && operationId in After(deferred, start, calls[..|calls| - 1]).history
    ensures var h := After(deferred, start, calls).history;
      operationId in h && h[operationId] == After(deferred, start, calls[..|calls| - 1]).history[operationId]
  {
    hide SampleInv, SampleNext, Rests, SinkGrows;
    AfterOneMore(deferred, start, calls);
  }

  /** In every run, once shut down the sink is final. */
  lemma ShutdownIsFinal(deferred: bool, start: U64, calls: seq<SampleCall>)
    requires calls != [] && After(deferred, start, calls[..|calls| - 1]).isShutdown
    ensures var s, t := After(deferred, start, calls[..|calls| - 1]), After(deferred, start, calls);
      t.isShutdown && t.adapter.results == s.adapter.results
  {
    hide SampleInv, SampleNext, Rests, HandsOn;
    AfterOneMore(deferred, start, calls);
  }
}
