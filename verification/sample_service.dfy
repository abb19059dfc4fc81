/**
 What becomes of a request the sample host takes up: whatever the adapter makes of it, its story is told to the
 end, the gate believes every part of it, and the work is released. A result reaches the sink if and only if the
 work succeeded.
 */
module SampleService {
  import opened Machine
  import opened GateTypes
  import opened GateSpec
  import opened GateInvariant
  import opened GateEffects
  import GL = GateLaws
  import GE = GateEvidence
  import opened SampleSpec
  import opened SampleInvariant
  import opened SampleSteps

  // ---------- Stories ----------

  datatype Ending = Success | Failure | Rejection | Cancellation

  /** The native events of a story, in order; each is numbered by its place. */
  function NativesOf(o: Ending): seq<CallbackKind> {
    match o
    case Success => [AcceptedCallback, StartedCallback, SucceededCallback]
    case Failure => [AcceptedCallback, StartedCallback, FailedCallback]
    case Rejection => [RejectedCallback]
    case Cancellation => [AcceptedCallback, CancelledCallback]
  }

  /** After them comes the result, or that there is none, and that all is settled. */
  function LengthOf(o: Ending): nat {
    |NativesOf(o)| + 2
  }

  function KindAt(o: Ending, k: nat): CallbackKind
    requires k < LengthOf(o)
  {
    if k < |NativesOf(o)| then NativesOf(o)[k]
    else if k == |NativesOf(o)| then if o == Success then ResultCallback else NoOutputCallback
    else SettledCallback
  }

  function NumberAt(o: Ending, k: nat): U64
    requires k < LengthOf(o)
  {
    if k < |NativesOf(o)| || o == Success then k + 1 else k + 1 - |NativesOf(o)|
  }

  /** The part of a story from a place on, as it was staged. */
  predicate IsRest(staged: seq<Staged>, w: WorkItem, o: Ending, k: nat) {
    && k <= LengthOf(o) && |staged| == LengthOf(o) - k
    && (forall j :: 0 <= j < |staged| ==> IsPart(staged[j], w, o, k + j))
    && (forall i, j :: 0 <= i < j < |staged| ==> staged[i].at <= staged[j].at)
  }

  predicate IsPart(e: Staged, w: WorkItem, o: Ending, k: nat) {
    && k < LengthOf(o) && e.callback.kind == KindAt(o, k) && e.callback.sequence == NumberAt(o, k)
    && e.callback.authority == w.authority && e.callback.identity == w.identity
    && (e.callback.kind == ResultCallback ==> e.callback.result == Some(ResultOf(w.authority.operationId, w.request)))
  }

  // ---------- What the gate knows of a story ----------

  /** The native events up to a place are on record, and no others. */
  predicate KnowsNatives(n: NativeFacts, o: Ending, k: nat) {
    && (n.accepted.Some? <==> o != Rejection && k >= 1)
    && (n.rejected.Some? <==> o == Rejection && k >= 1)
    && (n.started.Some? <==> (o == Success || o == Failure) && k >= 2)
    && (n.succeeded.Some? <==> o == Success && k >= 3)
    && (n.failed.Some? <==> o == Failure && k >= 3)
    && (n.cancelled.Some? <==> o == Cancellation && k >= 2)
  }

  /** The record of how the work ended. */
  function EndRecord(n: NativeFacts, o: Ending): Option<EvidenceRecord> {
    match o
    case Success => n.succeeded
    case Failure => n.failed
    case Rejection => n.rejected
    case Cancellation => n.cancelled
  }

  /** The last native record is that of the last native event before a place. */
  predicate KnowsLast(g: GateState, n: NativeFacts, w: WorkItem, o: Ending, k: nat) {
    && (k == 0 ==> g.lastNativeRecord.None?)
    && (k > 0 ==>
          && n.identity == w.identity && g.lastNativeRecord.Some? && g.lastNativeRecord.value.source == WORKER
          && g.lastNativeRecord.value.sequence == (if k < |NativesOf(o)| then k else |NativesOf(o)|))
    && (k == 1 && o != Rejection ==> n.accepted == g.lastNativeRecord)
    && (k >= |NativesOf(o)| ==> EndRecord(n, o) == g.lastNativeRecord)
  }

  /** What is known of the output and the settlement. */
  predicate KnowsRest(r: OperationReceipt, o: Ending, k: nat) {
    && (if k <= |NativesOf(o)| then r.output == OutputFacts(OutputPending, "", None, None, None)
        else if o == Success then r.output.disposition == OutputAccepted && r.output.reason.None?
        else r.output.disposition == NotDelivered && r.output.reason == Some(NoOutputProduced))
    && (r.settlement.Some? <==> k == LengthOf(o))
  }

  /** Records of the adapter itself are only those at the end of the story. */
  predicate IsFromOthers(e: Option<EvidenceRecord>) {
    e.Some? ==> e.value.source == WORKER || e.value.source == SINK || e.value.source == STOP
  }

  predicate HearsOthers(r: OperationReceipt) {
    && IsFromOthers(r.native.accepted) && IsFromOthers(r.native.rejected) && IsFromOthers(r.native.started)
    && IsFromOthers(r.native.succeeded) && IsFromOthers(r.native.failed) && IsFromOthers(r.native.cancelled)
    && IsFromOthers(r.output.delivered) && IsFromOthers(r.control.stop) && r.dispatch.notSubmitted.None?
    && (r.output.notDelivered.Some? ==>
        r.output.notDelivered.value.source == ADAPTER && r.output.notDelivered.value.sequence == 1)
  }

  /** The gate has heard a story up to a place. */
  predicate HasHeard(g: GateState, w: WorkItem, o: Ending, k: nat) {
    && k <= LengthOf(o) && g.phase == Active && g.receipt.Some? && g.receipt.value.authority == w.authority
    && w.authority.binding == g.config.binding && w.identity != ""
    && var r := g.receipt.value;
       && r.dispatch.status == Submitted && r.dispatch.at.Some?
       && KnowsNatives(r.native, o, k) && KnowsLast(g, r.native, w, o, k) && KnowsRest(r, o, k) && HearsOthers(r)
       && (o == Success ==> r.control.cancelledAt.None? && r.control.expiredAt.None? && r.control.withdrawnAt.None?)
  }

  /** What is still to be heard was staged after all that was heard, and before now. */
  predicate IsOrderly(g: GateState, staged: seq<Staged>)
    requires g.receipt.Some? && g.receipt.value.dispatch.at.Some?
  {
    forall j :: 0 <= j < |staged| ==>
      && staged[j].at >= g.receipt.value.dispatch.at.value
      && (g.lastNativeRecord.Some? ==> staged[j].at >= g.lastNativeRecord.value.observedAt)
  }

  // ---------- One part of a story, heard by the gate ----------

  ghost predicate Listens(g: GateState, now: U64) {
    GateFits(g, now)
  }

  lemma ListeningMeans(g: GateState, now: U64)
    requires Listens(g, now)
    ensures Inv(g) && GateEndsBy(g, now) && Callable(g)
    ensures g.config.nativeSource == WORKER && g.config.settlementSource == ADAPTER
            && g.config.resultSinkObserver == SINK
    ensures g.config.settlementScope == SCOPE && g.config.stopSource == STOP
    ensures g.receipt.Some? ==> EffectsEndBy(g.receipt.value, now)
  {
    hide Inv, EffectsEndBy, ControlEndsBy, BindingEndsBy;
    InvIsCallable(g);
  }

  function NativePart(w: WorkItem, o: Ending, k: nat, at: U64): NativeEvidence
    requires k < |NativesOf(o)|
  {
    NativeEvidence(w.authority, w.identity, NativeKind(NativesOf(o)[k]).value, EvidenceRecord(WORKER, at, k + 1))
  }

  lemma NativeIsHeard(g: GateState, w: WorkItem, o: Ending, k: nat, at: U64, now: U64)
    requires Listens(g, now) && HasHeard(g, w, o, k) && k < |NativesOf(o)|
    requires at >= g.receipt.value.dispatch.at.value
    requires g.lastNativeRecord.Some? ==> at >= g.lastNativeRecord.value.observedAt
    ensures Callable(g)
    ensures var h := ObserveNative(g, NativePart(w, o, k, at)).0;
      HasHeard(h, w, o, k + 1) && h.lastNativeRecord == Some(EvidenceRecord(WORKER, at, k + 1))
        && h.receipt.value.dispatch == g.receipt.value.dispatch && h.receipt.value.deadline == g.receipt.value.deadline
  {
    hide Inv, GateEndsBy, EffectsEndBy, Listens, ObserveNative;
    ListeningMeans(g, now);
    var e := NativePart(w, o, k, at);
    GE.NativeIsExact(g, e);
    NativeChanges(g, e);
    EventsSpelledOut(g.receipt.value.native, ObserveNative(g, e).0.receipt.value.native, e);
  }

  lemma EventsSpelledOut(n: NativeFacts, m: NativeFacts, e: NativeEvidence)
    ensures GE.RecordsEvent(n, m, e) ==>
              && m.identity == e.nativeIdentity
              && m.accepted == (if e.kind == AcceptedEvent then Some(e.record) else n.accepted)
              && m.rejected == (if e.kind == RejectedEvent then Some(e.record) else n.rejected)
              && m.started == (if e.kind == StartedEvent then Some(e.record) else n.started)
              && m.succeeded == (if e.kind == TerminalSucceeded then Some(e.record) else n.succeeded)
              && m.failed == (if e.kind == TerminalFailed then Some(e.record) else n.failed)
              && m.cancelled == (if e.kind == TerminalCancelled then Some(e.record) else n.cancelled)
  {
    if GE.RecordsEvent(n, m, e) {
      assert e.kind != AcceptedEvent ==> GE.EventRecord(m, AcceptedEvent) == GE.EventRecord(n, AcceptedEvent);
      assert e.kind != RejectedEvent ==> GE.EventRecord(m, RejectedEvent) == GE.EventRecord(n, RejectedEvent);
      assert e.kind != StartedEvent ==> GE.EventRecord(m, StartedEvent) == GE.EventRecord(n, StartedEvent);
      assert e.kind != TerminalSucceeded ==>
             GE.EventRecord(m, TerminalSucceeded) == GE.EventRecord(n, TerminalSucceeded);
      assert e.kind != TerminalFailed ==> GE.EventRecord(m, TerminalFailed) == GE.EventRecord(n, TerminalFailed);
      assert e.kind != TerminalCancelled ==>
             GE.EventRecord(m, TerminalCancelled) == GE.EventRecord(n, TerminalCancelled);
    }
  }

  lemma NativeChanges(g: GateState, e: NativeEvidence)
    requires Callable(g) && g.receipt.Some?
    ensures var h := ObserveNative(g, e).0;
      && h.phase == g.phase && h.config == g.config && h.receipt.Some?
      && var r, t := g.receipt.value, h.receipt.value;
         && t.authority == r.authority && t.deadline == r.deadline && t.dispatch == r.dispatch && t.output == r.output
         && t.control == r.control && t.settlement == r.settlement
  {
    hide DispositionOf, AfterNative, RecordNative, ContradictsNative, IsWellFormed;
  }

  lemma NoOutputIsHeard(g: GateState, w: WorkItem, o: Ending, at: U64, now: U64)
    requires Listens(g, now) && o != Success && HasHeard(g, w, o, |NativesOf(o)|)
    requires g.lastNativeRecord.Some? ==> at >= g.lastNativeRecord.value.observedAt
    ensures var e := NonDeliveryEvidence(w.authority, NoOutputProduced, "", EvidenceRecord(ADAPTER, at, 1));
      var h := ObserveOutputNotDelivered(g, e).0;
      HasHeard(h, w, o, |NativesOf(o)| + 1) && h.receipt.value.dispatch == g.receipt.value.dispatch
        && h.receipt.value.deadline == g.receipt.value.deadline && h.lastNativeRecord == g.lastNativeRecord
  {
    hide Inv, GateEndsBy, EffectsEndBy, Listens, ObserveOutputNotDelivered, GE.IsNewest;
    ListeningMeans(g, now);
    var e := NonDeliveryEvidence(w.authority, NoOutputProduced, "", EvidenceRecord(ADAPTER, at, 1));
    GE.NonDeliveryIsExact(g, e);
    AdapterIsNewest(g.receipt.value, e.record);
    NonDeliveryChanges(g, e);
  }

  /** Nothing was heard of the adapter itself yet, or only that there is no output. */
  lemma AdapterIsNewest(r: OperationReceipt, e: EvidenceRecord)
    requires HearsOthers(r) && r.settlement.None? && e.source == ADAPTER
    requires r.output.notDelivered.None? || e.sequence > 1
    ensures GE.IsNewest(e, r)
  {
    assert ADAPTER != WORKER && ADAPTER != SINK && ADAPTER != STOP by { NamesDiffer(); }
    forall known | known in GE.RecordsOf(r) && known.Some? && known.value.source == e.source
      ensures e.sequence > known.value.sequence
    {
    }
  }

  lemma NamesDiffer()
    ensures ADAPTER != WORKER && ADAPTER != SINK && ADAPTER != STOP
  {
    assert ADAPTER[0] == 'd' && SINK[0] == 'm' && STOP[0] == 'n' && ADAPTER[21] == 'a' && WORKER[21] == 'w';
  }

  lemma NonDeliveryChanges(g: GateState, e: NonDeliveryEvidence)
    requires g.receipt.Some?
    ensures var h := ObserveOutputNotDelivered(g, e).0;
      && h.phase == g.phase && h.config == g.config && h.receipt.Some? && h.lastNativeRecord == g.lastNativeRecord
      && var r, t := g.receipt.value, h.receipt.value;
         && t.authority == r.authority && t.deadline == r.deadline && t.dispatch == r.dispatch && t.native == r.native
         && t.control == r.control && t.settlement == r.settlement
  {
    hide DispositionOf, NonDeliveryPrerequisite, IsWellFormed, FollowsSameSource;
  }

  function ResultPart(w: WorkItem, at: U64): OutputEvidence {
    OutputEvidence(w.authority, ResultReference(w.authority.operationId), EvidenceRecord(SINK, at, 1))
  }

  lemma ResultIsHeard(g: GateState, w: WorkItem, now: U64)
    requires Listens(g, now) && HasHeard(g, w, Success, 3)
    requires g.receipt.value.deadline.Some? ==> now < g.receipt.value.deadline.value
    ensures CanDeliverResult(g, w.authority)
    ensures var h := ObserveOutputAccepted(g, ResultPart(w, now)).0;
      HasHeard(h, w, Success, 4) && h.receipt.value.dispatch == g.receipt.value.dispatch
        && h.receipt.value.deadline == g.receipt.value.deadline && h.lastNativeRecord == g.lastNativeRecord
  {
    hide Inv, GateEndsBy, Listens, ObserveOutputAccepted, CanDeliverResult, Decimal;
    ListeningMeans(g, now);
    GE.DeliverableIsExact(g, w.authority);
    GE.OutputIsExact(g, ResultPart(w, now));
    OutputChanges(g, ResultPart(w, now));
  }

  lemma OutputChanges(g: GateState, e: OutputEvidence)
    requires g.receipt.Some?
    ensures var h := ObserveOutputAccepted(g, e).0;
      && h.phase == g.phase && h.config == g.config && h.receipt.Some? && h.lastNativeRecord == g.lastNativeRecord
      && var r, t := g.receipt.value, h.receipt.value;
         && t.authority == r.authority && t.deadline == r.deadline && t.dispatch == r.dispatch && t.native == r.native
         && t.control == r.control && t.settlement == r.settlement
  {
    hide DispositionOf, CanDeliverResult, IsWellFormed, HasReachedDeadline;
  }

  lemma SettlementIsHeard(g: GateState, w: WorkItem, o: Ending, now: U64)
    requires Listens(g, now) && HasHeard(g, w, o, |NativesOf(o)| + 1)
    ensures var e := SettlementEvidence(w.authority, SCOPE, true,
                                        EvidenceRecord(ADAPTER, now, NumberAt(o, |NativesOf(o)| + 1)));
      var h := ObserveSettlement(g, e).0;
      HasHeard(h, w, o, LengthOf(o)) && h.receipt.value.disposition == Released
        && h.receipt.value.dispatch == g.receipt.value.dispatch && h.lastNativeRecord == g.lastNativeRecord
        && h.receipt.value.deadline == g.receipt.value.deadline
  {
    hide Inv, GateEndsBy, Listens, ObserveSettlement, GE.IsNewest, HasHeard, GE.IsAccountedFor, GE.Ends, HearsOthers;
    ListeningMeans(g, now);
    ReadyToSettle(g, w, o);
    var e := SettlementEvidence(w.authority, SCOPE, true,
                                EvidenceRecord(ADAPTER, now, NumberAt(o, |NativesOf(o)| + 1)));
    GE.SettlementIsExact(g, e);
    AdapterIsNewest(g.receipt.value, e.record);
    SettlementChanges(g, e);
    CallKeeps(g, CallObserveSettlement(e));
    SettledIsHeard(g, ObserveSettlement(g, e).0, w, o);
    EndIsRelease(ObserveSettlement(g, e).0, w, o);
  }

  lemma ReadyToSettle(g: GateState, w: WorkItem, o: Ending)
    requires HasHeard(g, w, o, |NativesOf(o)| + 1)
    ensures g.receipt.Some? && g.receipt.value.authority == w.authority && w.authority.binding == g.config.binding
    ensures var r := g.receipt.value;
      && GE.Ends(r.native) <= 1 && GE.IsAccountedFor(r) && r.settlement.None? && HearsOthers(r)
      && (r.output.notDelivered.Some? ==> NumberAt(o, |NativesOf(o)| + 1) > 1)
  {
  }

  lemma SettledIsHeard(g: GateState, h: GateState, w: WorkItem, o: Ending)
    requires HasHeard(g, w, o, |NativesOf(o)| + 1)
    requires h.phase == g.phase && h.config == g.config && h.receipt.Some? && h.lastNativeRecord == g.lastNativeRecord
    requires var r, t := g.receipt.value, h.receipt.value;
      && t.authority == r.authority && t.deadline == r.deadline && t.dispatch == r.dispatch && t.native == r.native
      && t.control == r.control && t.output == r.output && t.settlement.Some?
    ensures HasHeard(h, w, o, LengthOf(o))
  {
  }

  /** A story heard to its end is released. */
  lemma EndIsRelease(g: GateState, w: WorkItem, o: Ending)
    requires Inv(g) && HasHeard(g, w, o, LengthOf(o))
    ensures g.receipt.value.disposition == Released
  {
    hide Inv;
    GE.ValidOf(g);
    GE.FactsDecide(g.receipt.value);
  }

  lemma SettlementChanges(g: GateState, e: SettlementEvidence)
    requires g.receipt.Some?
    ensures var h := ObserveSettlement(g, e).0;
      && h.phase == g.phase && h.config == g.config && h.receipt.Some? && h.lastNativeRecord == g.lastNativeRecord
      && var r, t := g.receipt.value, h.receipt.value;
         && t.authority == r.authority && t.deadline == r.deadline && t.dispatch == r.dispatch && t.native == r.native
         && t.control == r.control && t.output == r.output
  {
    hide DispositionOf, HasResolvedEffects, FollowsSameSource, LatestEffectTime, IsWellFormed;
  }

  // ---------- The host, telling a story ----------

  /** The deadline of the operation in hand is not reached, nor will it be while the clock readings last. */
  predicate IsBeforeDeadline(s: SampleState) {
    s.gate.receipt.Some? && s.gate.receipt.value.deadline.Some? ==>
      s.now < s.gate.receipt.value.deadline.value
        && forall k :: 0 <= k < |s.readings| ==> s.readings[k] < s.gate.receipt.value.deadline.value
  }

  /** The host has told a story up to a place, and has staged the rest. */
  ghost predicate IsTelling(s: SampleState, w: WorkItem, o: Ending, k: nat) {
    && SampleInv(s) && HasHeard(s.gate, w, o, k) && IsRest(s.staged, w, o, k) && IsOrderly(s.gate, s.staged)
    && s.current == Some(w.authority) && s.prepared.None? && s.adapter.pending.None?
    && s.adapter.workerReady && s.adapter.sinkReady && !s.adapter.closed && IsBeforeDeadline(s)
  }

  lemma TellingListens(s: SampleState, w: WorkItem, o: Ending, k: nat)
    requires IsTelling(s, w, o, k)
    ensures Listens(s.gate, s.now) && Inv(s.gate) && Callable(s.gate)
  {
    hide GateFits, HasHeard, IsRest, IsOrderly, AllAnswer, SinkAgrees, Inv;
    ListeningMeans(s.gate, s.now);
  }

  lemma ReadStays(s: SampleState)
    requires IsBeforeDeadline(s)
    ensures IsBeforeDeadline(Read(s))
  {
  }

  lemma ReadsOnly(s: SampleState)
    ensures var t := Read(s);
      t == s.(now := t.now, readings := t.readings) && t.now >= s.now && (IsBeforeDeadline(s) ==> IsBeforeDeadline(t))
  {
  }

  /** A deadline that is not reached changes nothing. */
  lemma NothingIsDue(s: SampleState)
    requires Inv(s.gate) && IsBeforeDeadline(s)
    ensures ObserveAt(s, s.now) == s
  {
    hide Inv, GateSpec.ObserveTime, EndsBy;
    if s.current.Some? {
      InvIsCallable(s.gate);
      GL.ExpiryIsExact(s.gate, s.current.value, s.now);
      if GateSpec.ObserveTime(s.gate, s.current.value, s.now).1.status == ControlApplied {
        OnlyReceiptsExpire(s.gate, s.current.value, s.now);
      }
    }
  }

  lemma OnlyReceiptsExpire(g: GateState, a: OperationAuthority, at: U64)
    requires GateSpec.ObserveTime(g, a, at).1.status == ControlApplied
    ensures g.receipt.Some? && HasReachedDeadline(g.receipt.value, at)
  {
    hide LatestTime, Revoke;
  }

  /** A poll of a host whose adapter serves, and of which nothing is due, only reads the clock. */
  lemma QuietPoll(s: SampleState)
    requires Inv(s.gate) && IsBeforeDeadline(s) && s.adapter.workerReady && s.adapter.sinkReady && !s.adapter.closed
    ensures PollSample(s) == Read(s) && IsBeforeDeadline(Read(s))
  {
    hide Inv, ObserveAt, IsBeforeDeadline;
    ReadStays(s);
    NothingIsDue(Read(s));
  }

  /** While a story is told, a poll only reads the clock. */
  lemma PollOnlyReads(s: SampleState, w: WorkItem, o: Ending, k: nat)
    requires IsTelling(s, w, o, k)
    ensures PollSample(s) == Read(s) && IsTelling(Read(s), w, o, k)
  {
    hide SampleInv, HasHeard, IsRest, IsOrderly, ObserveAt, Stays, IsBeforeDeadline;
    ReadKeeps(s);
    WhatLeads(s, Read(s));
    TellingListens(s, w, o, k);
    QuietPoll(s);
  }

  lemma RestGoesOn(staged: seq<Staged>, w: WorkItem, o: Ending, k: nat)
    requires IsRest(staged, w, o, k) && k < LengthOf(o)
    ensures staged != [] && IsPart(staged[0], w, o, k) && IsRest(staged[1..], w, o, k + 1)
    ensures forall j :: 0 <= j < |staged| - 1 ==> staged[1..][j].at >= staged[0].at
  {
    hide IsPart;
    forall j | 0 <= j < |staged| - 1 ensures IsPart(staged[1..][j], w, o, k + 1 + j) {
      assert IsPart(staged[j + 1], w, o, k + (j + 1));
    }
    assert IsPart(staged[0], w, o, k + 0);
  }

  /** The host about to take the event at a place of the story. */
  ghost predicate IsTaking(s: SampleState, w: WorkItem, o: Ending, k: nat, e: Staged) {
    && k < LengthOf(o) && IsPart(e, w, o, k) && HasHeard(s.gate, w, o, k) && IsRest(s.staged, w, o, k + 1)
    && IsOrderly(s.gate, [e] + s.staged) && (forall j :: 0 <= j < |s.staged| ==> s.staged[j].at >= e.at)
    && Listens(s.gate, s.now) && s.current == Some(w.authority) && s.prepared.None? && s.adapter.pending.None?
    && s.adapter.workerReady && s.adapter.sinkReady && !s.adapter.closed && IsBeforeDeadline(s)
  }

  lemma TellingTakes(s: SampleState, w: WorkItem, o: Ending, k: nat)
    requires IsTelling(s, w, o, k) && k < LengthOf(o)
    ensures s.staged != [] && IsTaking(s.(staged := s.staged[1..]), w, o, k, s.staged[0])
  {
    hide SampleInv, HasHeard, IsRest, IsPart, IsBeforeDeadline, Listens;
    TellingListens(s, w, o, k);
    RestGoesOn(s.staged, w, o, k);
    var t := s.(staged := s.staged[1..]);
    assert [s.staged[0]] + s.staged[1..] == s.staged;
    assert IsBeforeDeadline(t) by { SameDeadline(s, t); }
  }

  lemma SameDeadline(s: SampleState, t: SampleState)
    requires t.now == s.now && t.readings == s.readings && (s.gate.receipt.Some? <==> t.gate.receipt.Some?)
    requires s.gate.receipt.Some? ==> t.gate.receipt.value.deadline == s.gate.receipt.value.deadline
    ensures IsBeforeDeadline(t) == IsBeforeDeadline(s)
  {
  }

  /** What the step from one place of a story to the next leaves, but for the host's invariant. */
  ghost predicate HasTaken(s: SampleState, t: SampleState, w: WorkItem, o: Ending, k: nat) {
    && HasHeard(t.gate, w, o, k + 1) && t.staged == s.staged && IsRest(t.staged, w, o, k + 1)
    && IsOrderly(t.gate, t.staged) && t.current == s.current && t.prepared == s.prepared
    && t.adapter == s.adapter.(results := t.adapter.results) && IsBeforeDeadline(t)
    && t.adapter.results == s.adapter.results
                            + (if o == Success && k == 3 then [ResultOf(w.authority.operationId, w.request)] else [])
    && (k + 1 == LengthOf(o) ==> t.gate.receipt.value.disposition == Released)
  }

  lemma StillOrderly(g: GateState, h: GateState, e: Staged, staged: seq<Staged>)
    requires g.receipt.Some? && g.receipt.value.dispatch.at.Some? && h.receipt.Some?
    requires h.receipt.value.dispatch == g.receipt.value.dispatch && IsOrderly(g, [e] + staged)
    requires h.lastNativeRecord == g.lastNativeRecord
             || (h.lastNativeRecord.Some? && h.lastNativeRecord.value.observedAt == e.at
                 && forall j :: 0 <= j < |staged| ==> staged[j].at >= e.at)
    ensures IsOrderly(h, staged) && e.at >= g.receipt.value.dispatch.at.value
    ensures g.lastNativeRecord.Some? ==> e.at >= g.lastNativeRecord.value.observedAt
  {
    var all := [e] + staged;
    assert all[0] == e;
    forall j | 0 <= j < |staged|
      ensures staged[j].at >= h.receipt.value.dispatch.at.value
      ensures h.lastNativeRecord.Some? ==> staged[j].at >= h.lastNativeRecord.value.observedAt
    {
      assert all[j + 1] == staged[j];
    }
  }

  lemma AskingIsObserving(g: GateState)
    requires Callable(g)
    ensures forall e :: Asked(g, CallObserveNative(e)) == ObserveNative(g, e).0
    ensures forall e :: Asked(g, CallObserveNonDelivery(e)) == ObserveOutputNotDelivered(g, e).0
    ensures forall e :: Asked(g, CallObserveOutput(e)) == ObserveOutputAccepted(g, e).0
    ensures forall e :: Asked(g, CallObserveSettlement(e)) == ObserveSettlement(g, e).0
  {
    hide Callable, ObserveNative, ObserveOutputNotDelivered, ObserveOutputAccepted, ObserveSettlement;
  }

  /** Taking a native event. */
  lemma NativeEvent(s: SampleState, w: WorkItem, o: Ending, k: nat, e: Staged)
    requires IsPart(e, w, o, k) && k < |NativesOf(o)|
    ensures TakeEvent(s, e) == Ask(s, CallObserveNative(NativePart(w, o, k, e.at)))
  {
    hide Asked, IsPart, NativePart, TakeResult, TakeSettlement;
    PartIsNative(e, w, o, k);
  }

  lemma PartIsNative(e: Staged, w: WorkItem, o: Ending, k: nat)
    requires IsPart(e, w, o, k) && k < |NativesOf(o)|
    ensures NativeKind(e.callback.kind).Some? && NativePart(w, o, k, e.at)
         == NativeEvidence(e.callback.authority, e.callback.identity, NativeKind(e.callback.kind).value,
                           EvidenceRecord(WORKER, e.at, e.callback.sequence))
  {
  }

  lemma NativeIsTaken(s: SampleState, w: WorkItem, o: Ending, k: nat, e: Staged)
    requires IsTaking(s, w, o, k, e) && k < |NativesOf(o)|
    ensures HasTaken(s, TakeEvent(s, e), w, o, k)
  {
    hide HasHeard, IsRest, IsBeforeDeadline, Listens, IsOrderly, ObserveNative, Callable, Asked, TakeEvent, IsPart;
    ListeningMeans(s.gate, s.now);
    AskingIsObserving(s.gate);
    HeardIsDispatched(s.gate, w, o, k);
    StillOrderly(s.gate, s.gate, e, s.staged);
    NativeIsHeard(s.gate, w, o, k, e.at, s.now);
    NativeEvent(s, w, o, k, e);
    var t := TakeEvent(s, e);
    HeardIsDispatched(t.gate, w, o, k + 1);
    StillOrderly(s.gate, t.gate, e, s.staged);
    SameDeadline(s, t);
  }

  lemma HeardIsDispatched(g: GateState, w: WorkItem, o: Ending, k: nat)
    requires HasHeard(g, w, o, k)
    ensures g.receipt.Some? && g.receipt.value.dispatch.at.Some?
  {
    hide KnowsNatives, KnowsLast, KnowsRest, HearsOthers;
  }

  lemma NoOutputIsTaken(s: SampleState, w: WorkItem, o: Ending, e: Staged)
    requires IsTaking(s, w, o, |NativesOf(o)|, e) && o != Success
    ensures HasTaken(s, TakeEvent(s, e), w, o, |NativesOf(o)|)
  {
    hide HasHeard, IsRest, IsBeforeDeadline, Listens, IsOrderly, ObserveOutputNotDelivered, Callable, Asked;
    ListeningMeans(s.gate, s.now);
    AskingIsObserving(s.gate);
    HeardIsDispatched(s.gate, w, o, |NativesOf(o)|);
    StillOrderly(s.gate, s.gate, e, s.staged);
    NoOutputIsHeard(s.gate, w, o, e.at, s.now);
    var t := TakeEvent(s, e);
    HeardIsDispatched(t.gate, w, o, |NativesOf(o)| + 1);
    StillOrderly(s.gate, t.gate, e, s.staged);
    SameDeadline(s, t);
  }

  lemma ListensLater(s: SampleState)
    requires Listens(s.gate, s.now)
    ensures Listens(s.gate, Read(s).now)
  {
    hide Inv, GateEndsBy;
    EndsByLater(s.gate, s.now, Read(s).now);
  }

  /** Taking the result, at a time when nothing else is due and it may be delivered. */
  lemma ResultEvent(s: SampleState, w: WorkItem, e: Staged)
    requires IsPart(e, w, Success, 3) && ObserveAt(Read(s), Read(s).now) == Read(s)
    requires CanDeliverResult(s.gate, w.authority) && s.adapter.sinkReady && !s.adapter.closed
    ensures var u, r := Read(s), ResultOf(w.authority.operationId, w.request);
      TakeEvent(s, e) == Ask(u.(adapter := u.adapter.(results := u.adapter.results + [r])),
                             CallObserveOutput(ResultPart(w, u.now)))
  {
    hide Asked, ObserveAt, CanDeliverResult, ResultReference, Squares, SumOf;
  }

  lemma ResultIsTaken(s: SampleState, w: WorkItem, e: Staged)
    requires IsTaking(s, w, Success, 3, e)
    ensures HasTaken(s, TakeEvent(s, e), w, Success, 3)
  {
    hide HasHeard, IsRest, IsBeforeDeadline, Listens, IsOrderly, ObserveOutputAccepted, Callable, ObserveAt,
         CanDeliverResult, Decimal,
         Squares, SumOf, Asked, TakeEvent, IsPart, ResultOf, ResultReference;
    ListeningMeans(s.gate, s.now);
    AskingIsObserving(s.gate);
    ReadStays(s);
    ListensLater(s);
    var u := Read(s);
    NothingIsDue(u);
    HeardIsDispatched(s.gate, w, Success, 3);
    StillOrderly(s.gate, s.gate, e, s.staged);
    DeadlineIsAhead(u);
    ResultIsHeard(u.gate, w, u.now);
    ResultEvent(s, w, e);
    var t := TakeEvent(s, e);
    HeardIsDispatched(t.gate, w, Success, 4);
    StillOrderly(s.gate, t.gate, e, s.staged);
    SameDeadline(u, t);
  }

  lemma DeadlineIsAhead(s: SampleState)
    requires IsBeforeDeadline(s) && s.gate.receipt.Some?
    ensures s.gate.receipt.value.deadline.Some? ==> s.now < s.gate.receipt.value.deadline.value
  {
  }

  /** Taking the end of a story, at a time when nothing else is due. */
  lemma SettlementEvent(s: SampleState, w: WorkItem, o: Ending, e: Staged)
    requires IsPart(e, w, o, |NativesOf(o)| + 1) && ObserveAt(Read(s), Read(s).now) == Read(s)
    ensures TakeEvent(s, e)
         == Ask(Read(s), CallObserveSettlement(SettlementEvidence(w.authority, SCOPE, true,
                                                                  EvidenceRecord(ADAPTER, Read(s).now,
                                                                                 NumberAt(o, |NativesOf(o)| + 1)))))
  {
    hide Asked, ObserveAt;
  }

  lemma SettlementIsTaken(s: SampleState, w: WorkItem, o: Ending, e: Staged)
    requires IsTaking(s, w, o, |NativesOf(o)| + 1, e)
    ensures HasTaken(s, TakeEvent(s, e), w, o, |NativesOf(o)| + 1)
  {
    hide HasHeard, IsRest, IsBeforeDeadline, Listens, IsOrderly, ObserveSettlement, Callable, ObserveAt, Asked,
         TakeEvent, IsPart;
    ListeningMeans(s.gate, s.now);
    AskingIsObserving(s.gate);
    ReadStays(s);
    ListensLater(s);
    var u := Read(s);
    ListeningMeans(u.gate, u.now);
    NothingIsDue(u);
    HeardIsDispatched(s.gate, w, o, |NativesOf(o)| + 1);
    StillOrderly(s.gate, s.gate, e, s.staged);
    SettlementIsHeard(u.gate, w, o, u.now);
    SettlementEvent(s, w, o, e);
    var t := TakeEvent(s, e);
    HeardIsDispatched(t.gate, w, o, LengthOf(o));
    StillOrderly(s.gate, t.gate, e, s.staged);
    SameDeadline(u, t);
  }

  lemma EventIsTaken(s: SampleState, w: WorkItem, o: Ending, k: nat, e: Staged)
    requires IsTaking(s, w, o, k, e)
    ensures HasTaken(s, TakeEvent(s, e), w, o, k)
  {
    hide IsTaking, HasTaken, TakeEvent;
    TakingIsInside(s, w, o, k, e);
    if k < |NativesOf(o)| { NativeIsTaken(s, w, o, k, e); }
    else if k > |NativesOf(o)| { SettlementIsTaken(s, w, o, e); }
    else if o == Success { ResultIsTaken(s, w, e); }
    else { NoOutputIsTaken(s, w, o, e); }
  }

  lemma TakingIsInside(s: SampleState, w: WorkItem, o: Ending, k: nat, e: Staged)
    requires IsTaking(s, w, o, k, e)
    ensures k < LengthOf(o) && (o == Success ==> |NativesOf(o)| == 3)
  {
  }

  /** One event of a story brings the host to the next place. */
  lemma StoryGoesOn(s: SampleState, w: WorkItem, o: Ending, k: nat)
    requires IsTelling(s, w, o, k) && k < LengthOf(o)
    ensures var (t, took) := ProcessNext(s);
      && took && IsTelling(t, w, o, k + 1)
      && t.adapter.results == s.adapter.results
                              + (if o == Success && k == 3 then [ResultOf(w.authority.operationId, w.request)] else [])
      && (k + 1 == LengthOf(o) ==> t.gate.receipt.value.disposition == Released)
  {
    hide SampleInv, HasHeard, IsRest, IsOrderly, IsBeforeDeadline, PollSample, TakeEvent, IsTaking, Stays, Squares,
         SumOf;
    PollOnlyReads(s, w, o, k);
    var p := Read(s);
    TellingTakes(p, w, o, k);
    EventIsTaken(p.(staged := p.staged[1..]), w, o, k, p.staged[0]);
    ProcessNextKeeps(s);
    WhatLeads(s, ProcessNext(s).0);
  }

  /** A story once begun is told to its end. */
  lemma {:induction false} StoryEnds(s: SampleState, w: WorkItem, o: Ending, k: nat)
    requires IsTelling(s, w, o, k) && k < LengthOf(o)
    ensures SampleInv(s)
    ensures var t := ProcessAll(s);
      && IsTelling(t, w, o, LengthOf(o)) && t.gate.receipt.value.disposition == Released
      && t.adapter.results == s.adapter.results
                              + (if o == Success && k <= 3 then [ResultOf(w.authority.operationId, w.request)] else [])
    decreases LengthOf(o) - k
  {
    hide SampleInv, HasHeard, IsRest, IsOrderly, IsBeforeDeadline, ProcessNext, Stays, Squares, SumOf;
    ProcessNextKeeps(s);
    StoryGoesOn(s, w, o, k);
    var t := ProcessNext(s).0;
    if k + 1 < LengthOf(o) {
      StoryEnds(t, w, o, k + 1);
    } else {
      NothingIsLeft(t, w, o);
      PollOnlyReads(t, w, o, LengthOf(o));
      NothingMore(t, w, o);
    }
  }

  lemma NothingIsLeft(s: SampleState, w: WorkItem, o: Ending)
    requires IsTelling(s, w, o, LengthOf(o))
    ensures SampleInv(s) && s.staged == []
  {
    hide SampleInv, HasHeard, IsOrderly, IsBeforeDeadline;
  }

  lemma NothingMore(s: SampleState, w: WorkItem, o: Ending)
    requires IsTelling(s, w, o, LengthOf(o)) && s.staged == [] && PollSample(s) == Read(s)
    ensures SampleInv(s) && ProcessAll(s) == Read(s)
  {
    hide SampleInv, HasHeard, IsOrderly, IsBeforeDeadline, IsRest, TakeEvent, PollSample;
    ProcessNextKeeps(s);
  }

  // ---------- How stories begin ----------

  /** One callback more is staged, at the time of a clock reading; otherwise the host is as it was. */
  predicate HasEmitted(s: SampleState, t: SampleState, w: WorkItem, kind: CallbackKind, sequence: U64,
                       result: Option<SampleResult>)
  {
    && t.staged == s.staged + [Staged(Callback(kind, w.authority, w.identity, sequence, result), t.now)]
      && t.now >= s.now
    && t == s.(adapter := s.adapter.(replay := t.adapter.replay), staged := t.staged, now := t.now,
               readings := t.readings)
    && (IsBeforeDeadline(s) ==> IsBeforeDeadline(t))
  }

  lemma EmitStages(s: SampleState, w: WorkItem, kind: CallbackKind, sequence: U64, result: Option<SampleResult>)
    requires s.adapter.listening && s.adapter.settlementReporting
    ensures HasEmitted(s, Emit(s, w, kind, sequence, result), w, kind, sequence, result)
  {
    hide Read, IsBeforeDeadline;
    ReadsOnly(s);
    SameDeadline(Read(s), Emit(s, w, kind, sequence, result));
  }

  /** The parts of a story from a place on, in a row. */
  lemma PartsAreRest(staged: seq<Staged>, w: WorkItem, o: Ending, k: nat)
    requires k <= LengthOf(o) && |staged| == LengthOf(o) - k
    requires forall j :: 0 <= j < |staged| ==> IsPart(staged[j], w, o, k + j)
    requires forall j :: 0 <= j < |staged| - 1 ==> staged[j].at <= staged[j + 1].at
    ensures IsRest(staged, w, o, k)
  {
    hide IsPart;
    forall i, j | 0 <= i < j < |staged| ensures staged[i].at <= staged[j].at {
      SortedPairs(staged, i, j);
    }
  }

  lemma {:induction false} SortedPairs(staged: seq<Staged>, i: nat, j: nat)
    requires i < j < |staged|
    requires forall j :: 0 <= j < |staged| - 1 ==> staged[j].at <= staged[j + 1].at
    ensures staged[i].at <= staged[j].at
  {
    assert staged[j - 1].at <= staged[j - 1 + 1].at;
    if i < j - 1 { SortedPairs(staged, i, j - 1); }
  }

  /** How the adapter ends the work it does. */
  function EndingOf(s: SampleState, w: WorkItem): Ending {
    if w.cancelled then Cancellation else if s.adapter.failNext then Failure else Success
  }

  /** The host goes on from one state to another by staging alone. */
  predicate HasStaged(s: SampleState, t: SampleState) {
    && t.gate == s.gate && t.current == s.current && t.prepared == s.prepared && t.now >= s.now
    && t.adapter.results == s.adapter.results && t.adapter.pending == s.adapter.pending
    && t.adapter.workerReady == s.adapter.workerReady && t.adapter.sinkReady == s.adapter.sinkReady
    && t.adapter.closed == s.adapter.closed && t.adapter.deferred == s.adapter.deferred
    && (IsBeforeDeadline(s) ==> IsBeforeDeadline(t)) && t.adapter.listening == s.adapter.listening
      && t.adapter.settlementReporting == s.adapter.settlementReporting
    && |s.staged| <= |t.staged| && t.staged[..|s.staged|] == s.staged
    && forall j :: |s.staged| <= j < |t.staged| ==> s.now <= t.staged[j].at <= t.now
  }

  lemma StagedOn(s: SampleState, t: SampleState, u: SampleState, w: WorkItem, kind: CallbackKind, sequence: U64,
                 result: Option<SampleResult>)
    requires HasStaged(s, t) && HasEmitted(t, u, w, kind, sequence, result)
    ensures HasStaged(s, u) && u.staged == t.staged
            + [Staged(Callback(kind, w.authority, w.identity, sequence, result), u.now)]
    ensures forall j :: 0 <= j < |t.staged| ==> u.staged[j] == t.staged[j]
  {
    hide IsBeforeDeadline;
  }

  lemma StagesItself(s: SampleState)
    ensures HasStaged(s, s)
  {
  }

  /** Finishing work stages the rest of its story, from the place after its acceptance. */
  lemma FinishingStages(s: SampleState, w: WorkItem)
    requires s.adapter.listening && s.adapter.settlementReporting
    ensures var t, o := FinishWork(s, w), EndingOf(s, w);
      && HasStaged(s, t) && IsRest(t.staged[|s.staged|..], w, o, 1)
  {
    hide Emit, HasEmitted, HasStaged, IsRest, ResultOf, IsBeforeDeadline;
    if w.cancelled { CancellingStages(s, w); }
    else if s.adapter.failNext { FailingStages(s, w); }
    else { SucceedingStages(s, w); }
  }

  lemma CountingStages(s: SampleState)
    ensures HasStaged(s, CountExecution(s)) && CountExecution(s).staged == s.staged
    ensures HasStaged(s, s.(adapter := s.adapter.(failNext := false)))
  {
  }

  lemma StagedTwice(s: SampleState, t: SampleState, u: SampleState)
    requires HasStaged(s, t) && HasStaged(t, u)
    ensures HasStaged(s, u)
  {
    hide IsBeforeDeadline;
    forall j | |s.staged| <= j < |u.staged| ensures s.now <= u.staged[j].at <= u.now {
      if j < |t.staged| { assert u.staged[j] == u.staged[..|t.staged|][j] == t.staged[j]; }
    }
    assert u.staged[..|s.staged|] == u.staged[..|t.staged|][..|s.staged|];
  }

  lemma WithoutOutputStages(s: SampleState, w: WorkItem, kind: CallbackKind, sequence: U64)
    requires s.adapter.listening && s.adapter.settlementReporting
    ensures var t, n := EmitWithoutOutput(s, w, kind, sequence), |s.staged|;
      && HasStaged(s, t) && |t.staged| == n + 3
      && t.staged[n].callback == Callback(kind, w.authority, w.identity, sequence, None)
      && t.staged[n + 1].callback == Callback(NoOutputCallback, w.authority, w.identity, 1, None)
      && t.staged[n + 2].callback == Callback(SettledCallback, w.authority, w.identity, 2, None)
      && t.staged[n].at <= t.staged[n + 1].at <= t.staged[n + 2].at
  {
    hide Emit, IsBeforeDeadline;
    StagesItself(s);
    EmitStages(s, w, kind, sequence, None);
    var t := EmitPlain(s, w, kind, sequence);
    StagedOn(s, s, t, w, kind, sequence, None);
    EmitStages(t, w, NoOutputCallback, 1, None);
    var u := EmitPlain(t, w, NoOutputCallback, 1);
    StagedOn(s, t, u, w, NoOutputCallback, 1, None);
    EmitStages(u, w, SettledCallback, 2, None);
    StagedOn(s, u, EmitPlain(u, w, SettledCallback, 2), w, SettledCallback, 2, None);
  }

  lemma CancellingStages(s: SampleState, w: WorkItem)
    requires s.adapter.listening && s.adapter.settlementReporting && w.cancelled
    ensures var t := FinishWork(s, w); HasStaged(s, t) && IsRest(t.staged[|s.staged|..], w, Cancellation, 1)
  {
    hide EmitWithoutOutput, HasStaged, IsRest;
    WithoutOutputStages(s, w, CancelledCallback, 2);
    var more := FinishWork(s, w).staged[|s.staged|..];
    StagedLonger(s, FinishWork(s, w));
    forall j | 0 <= j < |more| ensures IsPart(more[j], w, Cancellation, 1 + j) {
    }
    PartsAreRest(more, w, Cancellation, 1);
  }

  lemma StagedLonger(s: SampleState, t: SampleState)
    requires HasStaged(s, t)
    ensures |s.staged| <= |t.staged|
  {
  }

  lemma FailingStages(s: SampleState, w: WorkItem)
    requires s.adapter.listening && s.adapter.settlementReporting && !w.cancelled && s.adapter.failNext
    ensures var t := FinishWork(s, w); HasStaged(s, t) && IsRest(t.staged[|s.staged|..], w, Failure, 1)
  {
    hide EmitWithoutOutput, Emit, IsRest, IsBeforeDeadline;
    CountingStages(s);
    var c := CountExecution(s);
    EmitStages(c, w, StartedCallback, 2, None);
    var t := EmitPlain(c, w, StartedCallback, 2);
    StagedOn(s, c, t, w, StartedCallback, 2, None);
    CountingStages(t);
    var u := t.(adapter := t.adapter.(failNext := false));
    WithoutOutputStages(u, w, FailedCallback, 3);
    var v := FinishWork(s, w);
    StagedTwice(t, u, v);
    StagedTwice(s, t, v);
    var n, more := |s.staged|, v.staged[|s.staged|..];
    assert v.staged[n] == v.staged[..|t.staged|][n] == t.staged[n];
    forall j | 0 <= j < |more| ensures IsPart(more[j], w, Failure, 1 + j) {
    }
    PartsAreRest(more, w, Failure, 1);
  }

  lemma SucceedingStages(s: SampleState, w: WorkItem)
    requires s.adapter.listening && s.adapter.settlementReporting && !w.cancelled && !s.adapter.failNext
    ensures var t := FinishWork(s, w); HasStaged(s, t) && IsRest(t.staged[|s.staged|..], w, Success, 1)
  {
    hide Emit, IsRest, IsBeforeDeadline, ResultOf;
    CountingStages(s);
    var c := CountExecution(s);
    EmitStages(c, w, StartedCallback, 2, None);
    var t := EmitPlain(c, w, StartedCallback, 2);
    StagedOn(s, c, t, w, StartedCallback, 2, None);
    EmitStages(t, w, SucceededCallback, 3, None);
    var u := EmitPlain(t, w, SucceededCallback, 3);
    StagedOn(s, t, u, w, SucceededCallback, 3, None);
    var r := Some(ResultOf(w.authority.operationId, w.request));
    EmitStages(u, w, ResultCallback, 4, r);
    var v := Emit(u, w, ResultCallback, 4, r);
    StagedOn(s, u, v, w, ResultCallback, 4, r);
    EmitStages(v, w, SettledCallback, 5, None);
    StagedOn(s, v, FinishWork(s, w), w, SettledCallback, 5, None);
    var more := FinishWork(s, w).staged[|s.staged|..];
    forall j | 0 <= j < |more| ensures IsPart(more[j], w, Success, 1 + j) {
    }
    PartsAreRest(more, w, Success, 1);
  }
}
