/**
 Runs of the compute host: any sequence of its public calls, under a clock that never runs backwards
 and whatever the system answers. An operation is released only once its child is gone, no call ever
 drops a live child, and the result shown is the one the gate accepted.
 */
module HostRuns {
  import opened Machine
  import opened Sums
  import opened GateTypes
  import opened GateSpec
  import opened GateInvariant
  import opened GateEffects
  import opened ProcessSpec
  import opened HostSpec
  import opened HostInvariant
  import opened HostSteps

  // ---------- Starting ----------

  lemma StartupForKeeps(s: HostState, kind: StartupEvidenceKind, source: string, time: U64, observed: bool)
    requires HostInv(s) && time <= s.now
    ensures Leads(s, StartupFor(s, kind, source, time, observed))
  {
    hide HostInv, Leads, Asked, AnswerOf;
    ReportKeeps(s, CallObserveStartup(StartupEvidence(kind, s.gate.config.binding, RecordBy(s, source, time),
                                                      observed)));
  }

  lemma DeclareKeeps(s: HostState, time: U64, ready: bool)
    requires HostInv(s) && time <= s.now
    ensures Leads(s, Declare(s, time, ready))
  {
    hide HostInv, StartupFor, ChildStays;
    StartupForKeeps(s, BindingIdleAndSettled, OBSERVER, time, true);
    var t := StartupFor(s, BindingIdleAndSettled, OBSERVER, time, true);
    HostInvOf(s, t);
    StartupForKeeps(t, AdapterReady, OBSERVER, time, ready);
    var u := StartupFor(t, AdapterReady, OBSERVER, time, ready);
    HostInvOf(t, u);
    StartupForKeeps(u, ResultSinkReady, RESULT_SINK, time, true);
    LeadsThrice(s, t, u, Declare(s, time, ready));
  }

  lemma InitializeKeeps(s: HostState, i: HostInput)
    requires HostInv(s)
    ensures Leads(s, Initialize(s, i))
  {
    hide HostInv, ObserveLaunchable, Declare, ChildStays;
    ReadKeeps(s);
    var t := Read(s);
    if t.shutdown == ShutdownOpen && t.gate.phase == Active {
      ObserveLaunchableKeeps(t, t.now, i);
      var (u, ready) := ObserveLaunchable(t, t.now, i);
      LeadsOn(s, t, u);
      HostInvOf(t, u);
      if !u.flags.initialized {
        DeclareKeeps(u, t.now, ready);
        var v := Declare(u, t.now, ready);
        HostInvOf(u, v);
        FlagKeeps(v, Initialize(s, i).flags);
        LeadsThrice(s, u, v, Initialize(s, i));
      }
    }
  }

  // ---------- Rebinding ----------

  /** All but the gate's binding and the provider is as it was. */
  predicate SameHands(s: HostState, t: HostState) {
    && t.process == s.process && t.authority == s.authority && t.request == s.request && t.result == s.result
    && t.shutdown == s.shutdown && t.flags.evidenceError == s.flags.evidenceError && t.now >= s.now
      && (s.wrapped ==> t.wrapped)
    && t.gate.receipt == s.gate.receipt && t.stopGrace == s.stopGrace
  }

  lemma SameHandsKeep(s: HostState, t: HostState)
    requires HostInv(s) && SameHands(s, t) && GateFits(t.gate, t.now)
    ensures HostInv(t)
  {
    hide GateFits, ClosesLast, ExpectedSum, Completed, StoppedShort, FellShort;
  }

  /** A host whose gate prepares the candidate `b`. */
  ghost predicate Prepares(s: HostState, b: BindingIdentity) {
    GateFits(s.gate, s.now) && s.gate.phase == Preparing && s.gate.candidate.Some?
      && s.gate.candidate.value.binding == b
  }

  lemma OfferKeeps(s: HostState, b: BindingIdentity, c: Call)
    requires Prepares(s, b) && TimeOf(c) <= s.now
    requires c.CallObserveReadiness? || (c.CallObserveCapabilities? && c.offered.binding == b)
    ensures var t := Ask(Numbered(s), c);
      Prepares(t, b) && SameHands(s, t) && t.gate.config == s.gate.config && t.worker == s.worker
  {
    hide GateFits, Next, TimeOf, Callable;
    CallFits(s.gate, c, s.now);
    OfferEffects(s.gate, c);
  }

  lemma OfferAllKeeps(s: HostState, b: BindingIdentity, ready: bool)
    requires Prepares(s, b)
    ensures var t := OfferAll(s, b, ready);
      Prepares(t, b) && SameHands(s, t) && t.gate.config == s.gate.config && t.now == s.now && t.worker == s.worker
  {
    hide Prepares, Asked;
    OfferKeeps(s, b, CallObserveReadiness(BindingReadinessEvidence(BindingIdleAndSettled, b,
                                                                   RecordBy(s, OBSERVER, s.now), true, Expiry(s.now))));
    var s1 := OfferFor(s, b, BindingIdleAndSettled, OBSERVER, s.now, true);
    OfferKeeps(s1, b, CallObserveReadiness(BindingReadinessEvidence(AdapterReady, b, RecordBy(s1, OBSERVER, s.now),
                                                                    ready, Expiry(s.now))));
    var s2 := OfferFor(s1, b, AdapterReady, OBSERVER, s.now, ready);
    OfferKeeps(s2, b,
               CallObserveReadiness(BindingReadinessEvidence(ResultSinkReady, b, RecordBy(s2, RESULT_SINK, s.now),
                                                             true, Expiry(s.now))));
    var s3 := OfferFor(s2, b, ResultSinkReady, RESULT_SINK, s.now, true);
    OfferKeeps(s3, b, CallObserveCapabilities(ExecutionCapabilities(b, COMPUTE_CAPABILITY, PROFILE,
                                                                    s.maximumIterations, ready,
                                                                    RecordBy(s3, OBSERVER, s.now), Expiry(s.now))));
  }

  lemma PreparesLater(s: HostState, b: BindingIdentity)
    requires Prepares(s, b)
    ensures Prepares(Read(s), b) && SameHands(s, Read(s))
  {
    hide GateEndsBy, Inv;
    EndsByLater(s.gate, s.now, Read(s).now);
  }

  /** A candidate can always be abandoned. */
  lemma AbandonEffects(s: HostState, b: BindingIdentity)
    requires Prepares(s, b)
    ensures var h := GateSpec.WithdrawBinding(s.gate, b, s.now).0;
      h.phase == Withdrawn && h.receipt == s.gate.receipt && h.config == s.gate.config
  {
    hide LatestBindingTime, GateEndsBy, Inv;
    LatestIsLeast(s.gate, s.now);
  }

  lemma AbandonKeeps(s: HostState, b: BindingIdentity)
    requires Prepares(s, b)
    ensures var u := Read(s);
      var t := Ask(u, CallWithdraw(b, u.now));
      SameHands(s, t) && GateFits(t.gate, t.now) && t.gate.phase == Withdrawn && t.gate.config == s.gate.config
        && t.worker == s.worker
  {
    hide GateFits, GateSpec.WithdrawBinding, Callable;
    PreparesLater(s, b);
    var u := Read(s);
    CallFits(u.gate, CallWithdraw(b, u.now), u.now);
    AbandonEffects(u, b);
  }

  /** Whatever becomes of a candidate, none is left behind. */
  lemma CommitOrAbandonKeeps(s: HostState, b: BindingIdentity, executable: string)
    requires Prepares(s, b)
    ensures var (t, d) := CommitOrAbandon(s, b, executable);
      && SameHands(s, t) && GateFits(t.gate, t.now)
      && (d.status == Applied ==> t.gate.phase == Active && t.gate.config.binding == b && t.worker == executable)
      && (d.status != Applied ==> t.gate.phase == Withdrawn && t.gate.config == s.gate.config && t.worker == s.worker)
  {
    CallFits(s.gate, CallCommit(b, s.now), s.now);
    CommitEffects(s.gate, b, s.now);
    if GateSpec.CommitRebind(s.gate, b, s.now).1.status != Applied {
      AbandonKeeps(s, b);
      assert Ask(s, CallCommit(b, s.now)) == s;
    }
  }

  lemma BeginKeepsHost(s: HostState, expected: BindingIdentity, provider: string)
    requires HostInv(s)
    ensures var c := BeginFor(s, expected, provider);
      var t := Ask(Numbered(s), c);
      && HostInv(t) && SameHands(s, t) && t.gate.config == s.gate.config && t.worker == s.worker
      && AnswerOf(s.gate, c).Binding?
      && var d := AnswerOf(s.gate, c).binding;
         && (d.status != Applied ==> t.gate == s.gate)
         && (d.status == Applied ==>
               && s.gate.generationHighWater < MAX_U64 && d.candidate == Some(NextBinding(s.gate, provider))
               && Prepares(t, NextBinding(s.gate, provider)))
  {
    hide GateFits, BeginRebind, Callable, ClosesLast, ExpectedSum, AuthorityAgrees, ProcessAgrees, ResultAgrees,
         EndsAgree, ShutdownAgrees;
    var c := BeginFor(s, expected, provider);
    CallFits(s.gate, c, s.now);
    BeginEffects(s.gate, expected, provider, c.closure, s.now);
    var t := Ask(Numbered(s), c);
    SameHandsKeep(s, t);
  }

  lemma SameHandsOn(s: HostState, t: HostState, u: HostState)
    requires SameHands(s, t) && SameHands(t, u)
    ensures SameHands(s, u)
  {
  }

  /** From the candidate's beginning to its end. */
  lemma CandidateSettles(s: HostState, b: BindingIdentity, executable: string, i: HostInput)
    requires HostInv(s) && Prepares(s, b)
    ensures var (t, d) := CommitOrAbandon(Read(OfferAll(Read(s), b, i.canLaunch)), b, executable);
      && HostInv(t) && SameHands(s, t)
      && (d.status == Applied ==> t.gate.phase == Active && t.gate.config.binding == b && t.worker == executable)
      && (d.status != Applied ==>
            t.gate.phase == Withdrawn && t.gate.config.binding == s.gate.config.binding && t.worker == s.worker)
  {
    hide HostInv, Prepares, GateFits, SameHands, OfferAll, CommitOrAbandon;
    PreparesLater(s, b);
    var u := Read(s);
    OfferAllKeeps(u, b, i.canLaunch);
    var v := OfferAll(u, b, i.canLaunch);
    PreparesLater(v, b);
    CommitOrAbandonKeeps(Read(v), b, executable);
    var t := CommitOrAbandon(Read(v), b, executable).0;
    SameHandsOn(s, u, v);
    SameHandsOn(s, v, Read(v));
    SameHandsOn(s, Read(v), t);
    SameHandsKeep(s, t);
  }

  /** What a rebind comes to, given that it was not refused at once. */
  ghost predicate Rebinds(s: HostState, t: HostState, d: BindingDecision, provider: string, executable: string) {
    && HostInv(t) && SameHands(s, t) && t.gate.phase != Preparing
    && (d.status == Applied ==>
          && s.gate.generationHighWater < MAX_U64 && t.gate.phase == Active
          && t.gate.config.binding == NextBinding(s.gate, provider) && t.worker == executable)
    && (d.status != Applied ==>
          t.gate.phase == s.gate.phase && t.gate.config.binding == s.gate.config.binding && t.worker == s.worker)
  }

  lemma RebindFromKeeps(s: HostState, expected: BindingIdentity, provider: string, executable: string, i: HostInput)
    requires HostInv(s) && s.gate.phase == Withdrawn
    ensures Rebinds(s, RebindFrom(s, expected, provider, executable, i).0,
                    RebindFrom(s, expected, provider, executable, i).1, provider, executable)
  {
    hide HostInv, Asked, AnswerOf, Prepares, CommitOrAbandon, OfferAll;
    BeginKeepsHost(s, expected, provider);
    var begun := AnswerOf(s.gate, BeginFor(s, expected, provider));
    var t := Ask(Numbered(s), BeginFor(s, expected, provider));
    if begun.binding.status == Applied {
      var b := NextBinding(s.gate, provider);
      CandidateSettles(t, b, executable, i);
      SameHandsOn(s, t, CommitOrAbandon(Read(OfferAll(Read(t), b, i.canLaunch)), b, executable).0);
    }
  }

  /**
   A provider is replaced only when nothing of the old scope is left, and then by the next generation
   on the same domain. When it is not, the old binding stands, withdrawn if it was, and no candidate stays.
   */
  lemma RebindKeeps(s: HostState, expected: BindingIdentity, provider: string, executable: string, i: HostInput)
    requires HostInv(s) && s.gate.phase != Preparing
    ensures var (t, d) := Rebind(s, expected, provider, executable, i);
      Rebinds(s, t, d, provider, executable) && (d.status == Applied ==> OldScopeIsClear(s))
  {
    hide HostInv, Stays, OldScopeIsClear, ChildStays, RebindFrom;
    ReadKeeps(s);
    ReadKeeps(Read(s));
    var s2 := Read(Read(s));
    if RebindRefusal(Read(s), expected, provider, executable).None? {
      RebindFromKeeps(s2, expected, provider, executable, i);
      ClearEarlier(s);
      SameHandsOn(s, s2, RebindFrom(s2, expected, provider, executable, i).0);
    }
  }

  lemma ClearEarlier(s: HostState)
    ensures OldScopeIsClear(Read(s)) == OldScopeIsClear(s)
  {
  }

  // ---------- Every call ----------

  datatype Action =
    | DoInitialize
    | DoPrepare(request: ComputeRequest)
    | DoDispatch(authority: OperationAuthority)
    | DoCancel(authority: OperationAuthority)
    | DoPoll
    | DoBeginShutdown
    | DoWithdraw(binding: BindingIdentity)
    | DoRebind(expected: BindingIdentity, provider: string, executable: string)

  /** A public call, with what the system answers and the clock shows while it lasts. */
  datatype HostCall = HostCall(action: Action, input: HostInput, readings: seq<U64>)

  function HostNext(s: HostState, c: HostCall): HostState {
    var t := s.(readings := c.readings);
    match c.action
    case DoInitialize => Initialize(t, c.input)
    case DoPrepare(q) => Prepare(t, q, c.input).0
    case DoDispatch(a) => HostSpec.Dispatch(t, a, c.input).0
    case DoCancel(a) => CancelFor(t, a, c.input).0
    case DoPoll => PollHost(t, c.input)
    case DoBeginShutdown => BeginShutdown(t, c.input)
    case DoWithdraw(b) => Withdraw(t, b, c.input).0
    case DoRebind(b, provider, executable) => Rebind(t, b, provider, executable, c.input).0
  }

  /** What holds between public calls: the invariant, and no candidate half made. */
  ghost predicate Rests(s: HostState) {
    HostInv(s) && s.gate.phase != Preparing
  }

  /** The operation in hand stays in hand, or had nothing left to own when another took its place. */
  ghost predicate HandsOver(s: HostState, t: HostState) {
    && Rests(t) && (ChildStays(s, t) || (OwnsNothing(s) && t.process.None?))
    && (s.shutdown == ShutdownClosed ==> t.shutdown == ShutdownClosed && t.authority == s.authority)
    && (s.flags.evidenceError ==> t.flags.evidenceError && t.authority == s.authority)
  }

  lemma HandsOverRests(s: HostState, t: HostState)
    requires HandsOver(s, t)
    ensures Rests(t)
  {
    hide HostInv;
  }

  lemma LeadsHandsOver(s: HostState, t: HostState)
    requires Rests(s) && Leads(s, t)
    ensures HandsOver(s, t)
  {
    hide HostInv, ChildStays, OwnsNothing;
  }

  lemma ContinuesHandsOver(s: HostState, t: HostState)
    requires Rests(s) && HostInv(t) && Continues(s, t)
    ensures HandsOver(s, t)
  {
    hide HostInv, ChildStays, OwnsNothing;
  }

  lemma PreparedHandsOver(s: HostState, q: ComputeRequest, i: HostInput)
    requires Rests(s)
    ensures HandsOver(s, Prepare(s, q, i).0)
  {
    hide HostInv, Prepare, ChildStays, OwnsNothing;
    PrepareKeeps(s, q, i);
    if Prepare(s, q, i).1.authority.None? {
      LeadsHandsOver(s, Prepare(s, q, i).0);
    } else {
      PreparedWhenOpen(s, q, i);
    }
  }

  lemma PreparedWhenOpen(s: HostState, q: ComputeRequest, i: HostInput)
    requires Prepare(s, q, i).1.authority.Some?
    ensures s.shutdown == ShutdownOpen && !s.flags.evidenceError
  {
    hide GateSpec.Admit, ObserveLaunchable, Ask, TakeUp, IsRequest, OperationFor;
  }

  lemma ReboundHandsOver(s: HostState, t: HostState)
    requires Rests(s) && Rests(t) && SameHands(s, t)
    ensures HandsOver(s, t)
  {
    hide HostInv, OwnsNothing;
  }

  lemma ReadingsDoNotMatter(s: HostState, readings: seq<U64>)
    requires Rests(s)
    ensures var t := s.(readings := readings);
      Rests(t) && (forall u :: HandsOver(t, u) ==> HandsOver(s, u))
  {
    hide GateFits, ClosesLast, ExpectedSum, Completed, StoppedShort, FellShort;
  }

  predicate IsControl(a: Action) {
    a.DoCancel? || a.DoPoll? || a.DoBeginShutdown? || a.DoWithdraw?
  }

  lemma ControlHandsOver(s: HostState, c: HostCall)
    requires Rests(s) && s.readings == c.readings && IsControl(c.action)
    ensures HandsOver(s, HostNext(s, c))
  {
    hide HandsOver, HostInv, Leads, Continues, CancelFor, PollHost, BeginShutdown, Withdraw;
    assert s == s.(readings := c.readings);
    match c.action
    case DoCancel(a) => CancelKeepsHost(s, a, c.input); LeadsHandsOver(s, CancelFor(s, a, c.input).0);
    case DoPoll => PollKeepsHost(s, c.input); ContinuesHandsOver(s, PollHost(s, c.input));
    case DoBeginShutdown => BeginShutdownKeeps(s, c.input); ContinuesHandsOver(s, BeginShutdown(s, c.input));
    case DoWithdraw(b) => WithdrawKeepsHost(s, b, c.input); LeadsHandsOver(s, Withdraw(s, b, c.input).0);
  }

  lemma WorkHandsOver(s: HostState, c: HostCall)
    requires Rests(s) && s.readings == c.readings && !IsControl(c.action)
    ensures HandsOver(s, HostNext(s, c))
  {
    hide HandsOver, HostInv, Leads, SameHands, Initialize, Prepare, HostSpec.Dispatch, Rebind;
    assert s == s.(readings := c.readings);
    match c.action
    case DoInitialize => InitializeKeeps(s, c.input); LeadsHandsOver(s, Initialize(s, c.input));
    case DoPrepare(q) => PreparedHandsOver(s, q, c.input);
    case DoDispatch(a) => DispatchKeepsHost(s, a, c.input); LeadsHandsOver(s, HostSpec.Dispatch(s, a, c.input).0);
    case DoRebind(b, provider, executable) =>
      RebindKeeps(s, b, provider, executable, c.input);
      ReboundHandsOver(s, Rebind(s, b, provider, executable, c.input).0);
  }

  /** Every public call keeps the invariant and hands the child over properly. */
  lemma CallHandsOver(s: HostState, c: HostCall)
    requires Rests(s)
    ensures HandsOver(s, HostNext(s, c))
  {
    hide HandsOver, Rests, HostNext;
    ReadingsDoNotMatter(s, c.readings);
    var t := s.(readings := c.readings);
    ReadAtStart(s, c);
    if IsControl(c.action) { ControlHandsOver(t, c); } else { WorkHandsOver(t, c); }
  }

  lemma ReadAtStart(s: HostState, c: HostCall)
    ensures HostNext(s, c) == HostNext(s.(readings := c.readings), c)
  {
  }

  /** A child that was launched and whose channels are not closed: somebody has to tend to it. */
  predicate OwnsChild(s: HostState) {
    s.process.Some? && s.process.value.launched && !s.process.value.channels.closed
  }

  /** Of a child that is gone the exit is recorded, the stream has ended and the channels are closed. */
  predicate IsGone(p: ProcessState) {
    HasExited(p) && p.stream.eof && p.channels.closed
  }

  /** No child was launched for the operation in hand, or it is gone. */
  predicate HasNoChild(s: HostState) {
    s.process.Some? && s.process.value.launched ==> IsGone(s.process.value)
  }

  lemma ClosedHasNoChild(s: HostState)
    requires HostInv(s) && s.shutdown == ShutdownClosed
    ensures HasNoChild(s)
  {
    hide GateFits, ExpectedSum, Completed, ResultAgrees, EndsAgree;
  }

  lemma IdleHasNoChild(s: HostState)
    requires HostInv(s) && OwnsNothing(s)
    ensures HasNoChild(s)
  {
    hide GateFits, ExpectedSum, Completed, ResultAgrees, EndsAgree;
  }

  /** What a caller may count on, whichever call it makes. */
  lemma WhatCallsKeep(s: HostState, c: HostCall)
    requires Rests(s)
    ensures var t := HostNext(s, c);
      && Rests(t) && (s.shutdown == ShutdownClosed ==> t.shutdown == ShutdownClosed)
      && (t.shutdown == ShutdownClosed ==> HasNoChild(t))
  {
    hide HostNext, HostInv, HasNoChild, ChildStays, OwnsNothing;
    CallHandsOver(s, c);
    if HostNext(s, c).shutdown == ShutdownClosed { ClosedHasNoChild(HostNext(s, c)); }
  }

  lemma SameAfterReadings(s: HostState, readings: seq<U64>)
    requires Rests(s)
    ensures Rests(s.(readings := readings)) && HasNoChild(s.(readings := readings)) == HasNoChild(s)
  {
    hide HandsOver;
    ReadingsDoNotMatter(s, readings);
  }

  /** Work is taken up only where no child is left to tend to. */
  lemma PreparedHadNoChild(s: HostState, q: ComputeRequest, i: HostInput)
    requires Rests(s) && Prepare(s, q, i).1.authority.Some?
    ensures HasNoChild(s) && Prepare(s, q, i).0.authority == Prepare(s, q, i).1.authority
  {
    hide HostInv, Prepare, HasNoChild, OwnsNothing;
    PrepareKeeps(s, q, i);
    IdleHasNoChild(s);
  }

  /** A provider is replaced only where no child is left, and then by the one asked for. */
  lemma ReboundHadNoChild(s: HostState, expected: BindingIdentity, provider: string, executable: string, i: HostInput)
    requires Rests(s) && Rebind(s, expected, provider, executable, i).1.status == Applied
    ensures var t := Rebind(s, expected, provider, executable, i).0;
      HasNoChild(s) && t.worker == executable && t.gate.config.binding.providerId == provider && t.gate.phase == Active
  {
    hide HostInv, Rebind, SameHands;
    RebindKeeps(s, expected, provider, executable, i);
  }

  // ---------- Runs ----------

  ghost predicate IsNew(s: HostState) {
    exists maximum: U64, grace: U64, worker: string, domain: string, generation: U64, now: U64 ::
      domain != "" && generation > 0 && s == NewHost(maximum, grace, worker, domain, generation, now)
  }

  /** The states a host passes through, call by call. */
  ghost predicate IsRun(states: seq<HostState>, calls: seq<HostCall>) {
    && |states| == |calls| + 1 && IsNew(states[0])
    && forall k :: 0 <= k < |calls| ==> states[k + 1] == HostNext(states[k], calls[k])
  }

  lemma {:induction false} AlwaysRests(states: seq<HostState>, calls: seq<HostCall>, k: nat)
    requires IsRun(states, calls) && k < |states|
    ensures Rests(states[k])
  {
    hide HostNext, HostInv, IsNew;
    if k == 0 {
      NewHostRests(states[0]);
    } else {
      AlwaysRests(states, calls, k - 1);
      CallHandsOver(states[k - 1], calls[k - 1]);
    }
  }

  lemma NewHostRests(s: HostState)
    requires IsNew(s)
    ensures Rests(s)
  {
    hide HostInv, NewHost;
    forall maximum: U64, grace: U64, worker: string, domain: string, generation: U64, now: U64 |
      domain != "" && generation > 0 && s == NewHost(maximum, grace, worker, domain, generation, now)
      ensures Rests(s)
    {
      NewHostIsValid(maximum, grace, worker, domain, generation, now);
    }
  }

  /** In every run, an operation is Released only when its child, if one was launched, is gone. */
  lemma ReleasedMeansGone(states: seq<HostState>, calls: seq<HostCall>, k: nat)
    requires IsRun(states, calls) && k < |states|
    requires states[k].gate.receipt.Some? && states[k].gate.receipt.value.disposition == Released
    ensures states[k].process.Some? && states[k].process.value.launched ==> IsGone(states[k].process.value)
  {
    AlwaysRests(states, calls, k);
    ReleasedOwnsNothing(states[k]);
  }

  lemma ReleasedOwnsNothing(s: HostState)
    requires HostInv(s) && s.gate.receipt.Some? && s.gate.receipt.value.disposition == Released
    ensures OwnsNothing(s) && (IsLaunched(s) ==> IsGone(s.process.value))
  {
    ReleasedIsSettled(s.gate);
  }

  /** In every run, no call drops a child it still owns, or mistakes another for it. */
  lemma ChildIsNeverDropped(states: seq<HostState>, calls: seq<HostCall>, k: nat)
    requires IsRun(states, calls) && k + 1 < |states| && OwnsChild(states[k])
    ensures IsLaunched(states[k + 1]) && SameChild(states[k].process.value, states[k + 1].process.value)
    ensures states[k + 1].process.value.channels.closed ==> IsGone(states[k + 1].process.value)
  {
    hide HostNext, GateFits, ExpectedSum, Completed;
    AlwaysRests(states, calls, k);
    AlwaysRests(states, calls, k + 1);
    CallHandsOver(states[k], calls[k]);
  }

  /** In every run, until the evidence counter has run through, a result is shown exactly when the gate accepted it. */
  lemma ShownResultIsAccepted(states: seq<HostState>, calls: seq<HostCall>, k: nat)
    requires IsRun(states, calls) && k < |states|
    ensures !states[k].wrapped || !states[k].flags.evidenceError ==> Agrees(states[k])
    ensures IsAccepted(states[k]) ==> states[k].result.Some?
  {
    hide GateFits, ExpectedSum, Completed;
    AlwaysRests(states, calls, k);
  }

  /** The result shown is the exact sum for the operation in hand, and its child ran to its end and said so. */
  predicate IsEarned(s: HostState) {
    && s.result.Some? && s.authority.Some? && s.request.Some? && s.process.Some?
    && s.gate.receipt.Some? && s.gate.receipt.value.authority == s.authority.value
    && s.result.value.operationId == s.authority.value.operationId
    && s.result.value.iterations == s.request.value.iterations
    && s.result.value.sum == SumTo(s.request.value.iterations)
    && Completed(s.process.value, s.request.value.iterations)
  }

  /** In every run, whatever output the gate has accepted was earned. */
  lemma AcceptedResultIsEarned(states: seq<HostState>, calls: seq<HostCall>, k: nat)
    requires IsRun(states, calls) && k < |states| && IsAccepted(states[k])
    ensures IsEarned(states[k])
  {
    hide HostInv, IsEarned, IsAccepted, IsRun;
    AlwaysRests(states, calls, k);
    EarnedWhenAccepted(states[k]);
  }

  lemma EarnedWhenAccepted(s: HostState)
    requires HostInv(s) && IsAccepted(s)
    ensures IsEarned(s)
  {
    AcceptedMeansSucceeded(s.gate);
    SupportedSumsDoNotWrap(s.request.value.iterations);
  }

  /** In every run, a shutdown that reports itself closed has settled its work and owns no child. */
  lemma ClosedMeansGone(states: seq<HostState>, calls: seq<HostCall>, k: nat)
    requires IsRun(states, calls) && k < |states| && states[k].shutdown == ShutdownClosed
    ensures states[k].gate.receipt.Some? ==> states[k].gate.receipt.value.settlement.Some?
    ensures IsLaunched(states[k]) ==> IsGone(states[k].process.value)
    ensures k + 1 < |states| ==> states[k + 1].shutdown == ShutdownClosed
  {
    hide HostNext, GateFits, ExpectedSum, Completed;
    AlwaysRests(states, calls, k);
    if k + 1 < |states| { CallHandsOver(states[k], calls[k]); }
  }
}
