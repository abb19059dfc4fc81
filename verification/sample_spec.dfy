/**
 The sample execution host as functions on its state: a gate, a deterministic adapter whose callbacks
 are staged and delivered one at a time, and the sink its results end up in.
 `SampleExecutionHost` (sample_host.dfy) refines these functions.
 */
module SampleSpec {
  import opened Machine
  import opened GateTypes
  import opened GateSpec

  const CAPABILITY := "sample.square"
  const ADAPTER := "deterministic-sample-adapter"
  const WORKER := "deterministic-sample-worker"
  const SINK := "managed-sample-result-sink"
  const SCOPE := "worker-callbacks-and-managed-result"
  const STOP := "native-stop"
  const BINDING := BindingIdentity("deterministic-sample-worker", "managed-sample-result", 1, 1)
  const MAXIMUM_VALUES: nat := 16
  const MAXIMUM_VALUE: int := 10000

  datatype SampleRequest = SampleRequest(reference: string, values: seq<int>, deadline: Option<U64>)

  datatype SampleResult = SampleResult(operationId: U64, reference: string, squares: seq<int>, sum: int)

  datatype CallbackKind =
    | NotSubmittedCallback | AcceptedCallback | RejectedCallback | StartedCallback | SucceededCallback
    | FailedCallback | CancelledCallback | NoOutputCallback | ResultCallback | SettledCallback

  datatype Callback = Callback(kind: CallbackKind, authority: OperationAuthority, identity: string, sequence: U64,
                               result: Option<SampleResult>)

  datatype Staged = Staged(callback: Callback, at: U64)

  datatype WorkItem = WorkItem(authority: OperationAuthority, request: SampleRequest, identity: string, cancelled: bool)

  datatype CancellationMode = Cooperative | Ignoring | Refusing | NotAvailable | Silent

  datatype Counts = Counts(denials: nat, stops: nat, submissions: nat, executions: nat)

  datatype AdapterState = AdapterState(
    deferred: bool,
    listening: bool,
    workerReady: bool,
    sinkReady: bool,
    closed: bool,
    rejectNext: bool,
    failNext: bool,
    cancellation: CancellationMode,
    settlementReporting: bool,
    replayEnabled: bool,
    replay: Option<Callback>,
    pending: Option<WorkItem>,
    results: seq<SampleResult>,
    counts: Counts)

  datatype Numbers = Numbers(binding: U64, worker: U64, sink: U64)

  /** `readings` are what the clock will still show; `history` remembers what each operation asked for. */
  datatype SampleState = SampleState(
    gate: GateState,
    adapter: AdapterState,
    staged: seq<Staged>,
    current: Option<OperationAuthority>,
    prepared: Option<OperationAuthority>,
    request: Option<SampleRequest>,
    numbers: Numbers,
    isShutdown: bool,
    now: U64,
    readings: seq<U64>,
    history: map<U64, SampleRequest>)

  function NewAdapter(deferred: bool): AdapterState {
    AdapterState(deferred, true, true, true, false, false, false, Cooperative, true, false, None, None, [],
                 Counts(0, 0, 0, 0))
  }

  function ConfigAt(now: U64): GateConfig {
    GateConfig(BINDING, CAPABILITY, ADAPTER, WORKER, SINK, WORKER, ADAPTER, SCOPE, now, STOP, WorkerReady, "")
  }

  function NewSample(deferred: bool, now: U64): SampleState {
    SampleState(InitialGate(ConfigAt(now)), NewAdapter(deferred), [], None, None, None, Numbers(0, 0, 0), false, now,
                [], map[])
  }

  /** The next reading of a clock that never runs backwards. */
  function Read(s: SampleState): SampleState {
    if s.readings == [] then s else s.(now := Max(s.now, s.readings[0]), readings := s.readings[1..])
  }

  function Ask(s: SampleState, c: Call): SampleState {
    s.(gate := Asked(s.gate, c))
  }

  // ---------- What the adapter computes ----------

  predicate IsRequest(q: SampleRequest) {
    && q.reference != "" && q.values != [] && |q.values| <= MAXIMUM_VALUES
    && forall v :: v in q.values ==> -MAXIMUM_VALUE <= v <= MAXIMUM_VALUE
  }

  function SumOf(values: seq<int>): int {
    if values == [] then 0 else SumOf(values[..|values| - 1]) + values[|values| - 1]
  }

  function Squares(values: seq<int>): (r: seq<int>)
    ensures |r| == |values| && forall k :: 0 <= k < |values| ==> r[k] == values[k] * values[k]
  {
    seq(|values|, k requires 0 <= k < |values| => values[k] * values[k])
  }

  /** A sum starts at nothing and takes one value after another. */
  lemma SumOfAdds(values: seq<int>, more: int)
    ensures SumOf([]) == 0 && SumOf(values + [more]) == SumOf(values) + more
  {
    assert (values + [more])[..|values|] == values;
  }

  function ResultOf(operationId: U64, q: SampleRequest): SampleResult {
    SampleResult(operationId, q.reference, Squares(q.values), SumOf(Squares(q.values)))
  }

  /** No sum of squares that can be asked for comes near the limits of 64 bits. */
  lemma SumFits(q: SampleRequest)
    requires IsRequest(q)
    ensures 0 <= SumOf(Squares(q.values)) <= 1_600_000_000
  {
    var squares := Squares(q.values);
    forall k | 0 <= k < |squares| ensures 0 <= squares[k] <= 100_000_000 {
      assert q.values[k] in q.values;
      SquareFits(q.values[k], MAXIMUM_VALUE);
    }
    SumIsBounded(squares, 100_000_000);
  }

  lemma SquareFits(v: int, bound: int)
    requires -bound <= v <= bound
    ensures 0 <= v * v <= bound * bound
  {
    var size := if v < 0 then -v else v;
    assert v * v == size * size;
    assert size * size <= size * bound <= bound * bound;
  }

  lemma {:induction false} SumIsBounded(values: seq<int>, bound: int)
    requires forall k :: 0 <= k < |values| ==> 0 <= values[k] <= bound
    ensures 0 <= SumOf(values) <= |values| * bound
  {
    if values == [] {
    } else {
      SumIsBounded(values[..|values| - 1], bound);
    }
  }

  // ---------- Callbacks ----------

  /** One callback: staged with the time it came in, and kept for a replay where that is asked for. */
  function Emit(s: SampleState, w: WorkItem, kind: CallbackKind, sequence: U64,
                result: Option<SampleResult>): SampleState
  {
    if (kind == SettledCallback && !s.adapter.settlementReporting) || !s.adapter.listening then s
    else
      var c := Callback(kind, w.authority, w.identity, sequence, result);
      var keeps := kind == ResultCallback && s.adapter.replayEnabled && s.adapter.replay.None?;
      var t := Read(s);
      t.(adapter := if keeps then t.adapter.(replay := Some(c)) else t.adapter, staged := t.staged + [Staged(c, t.now)])
  }

  function EmitPlain(s: SampleState, w: WorkItem, kind: CallbackKind, sequence: U64): SampleState {
    Emit(s, w, kind, sequence, None)
  }

  /** What is said of work that never ran. */
  function EmitUnsubmitted(s: SampleState, w: WorkItem): SampleState {
    EmitPlain(EmitPlain(EmitPlain(s, w, NotSubmittedCallback, 1), w, NoOutputCallback, 2), w, SettledCallback, 3)
  }

  /** A fact, and then that there is no output and all is settled. */
  function EmitWithoutOutput(s: SampleState, w: WorkItem, kind: CallbackKind, sequence: U64): SampleState {
    EmitPlain(EmitPlain(EmitPlain(s, w, kind, sequence), w, NoOutputCallback, 1), w, SettledCallback, 2)
  }

  function EmitResult(s: SampleState, w: WorkItem): SampleState {
    var t := EmitPlain(s, w, SucceededCallback, 3);
    var u := Emit(t, w, ResultCallback, 4, Some(ResultOf(w.authority.operationId, w.request)));
    EmitPlain(u, w, SettledCallback, 5)
  }

  function CountExecution(s: SampleState): SampleState {
    s.(adapter := s.adapter.(counts := s.adapter.counts.(executions := s.adapter.counts.executions + 1)))
  }

  function CountSubmission(s: SampleState): SampleState {
    s.(adapter := s.adapter.(counts := s.adapter.counts.(submissions := s.adapter.counts.submissions + 1)))
  }

  /** What is said of work once it has started. */
  function FinishStarted(s: SampleState, w: WorkItem): SampleState {
    if s.adapter.failNext then EmitWithoutOutput(s.(adapter := s.adapter.(failNext := false)), w, FailedCallback, 3)
    else EmitResult(s, w)
  }

  /** The work is done, one way or another. */
  function FinishWork(s: SampleState, w: WorkItem): SampleState {
    if w.cancelled then EmitWithoutOutput(s, w, CancelledCallback, 2)
    else FinishStarted(EmitPlain(CountExecution(s), w, StartedCallback, 2), w)
  }

  function FinishPending(s: SampleState): SampleState {
    if s.adapter.pending.None? then s
    else FinishWork(s.(adapter := s.adapter.(pending := None)), s.adapter.pending.value)
  }

  // ---------- Control ----------

  const NO_REQUEST := SampleRequest("", [], None)

  function DiscardPrepared(s: SampleState): SampleState {
    if s.prepared.None? then s
    else EmitUnsubmitted(s.(prepared := None, request := None), WorkItem(s.prepared.value, NO_REQUEST, "", false))
  }

  predicate HoldsWork(a: AdapterState, authority: OperationAuthority) {
    a.pending.Some? && a.pending.value.authority == authority
  }

  /** The adapter's answer to a stop, if it gives one. */
  function StopAnswer(a: AdapterState, authority: OperationAuthority): Option<StopAcknowledgement> {
    if !HoldsWork(a, authority) then Some(Unavailable)
    else
      match a.cancellation
      case Cooperative => Some(Acknowledged)
      case Ignoring => Some(Acknowledged)
      case Refusing => Some(Refused)
      case NotAvailable => Some(Unavailable)
      case Silent => None
  }

  function MarkCancelled(w: WorkItem): WorkItem {
    w.(cancelled := true)
  }

  /** Only a cooperative adapter cancels the work it holds. */
  function StoppedWork(a: AdapterState, authority: OperationAuthority): Option<WorkItem> {
    if HoldsWork(a, authority) && a.cancellation == Cooperative then Some(MarkCancelled(a.pending.value)) else a.pending
  }

  function Stopped(a: AdapterState, authority: OperationAuthority): AdapterState {
    a.(counts := a.counts.(stops := a.counts.stops + 1), pending := StoppedWork(a, authority))
  }

  function StopWork(s: SampleState, authority: OperationAuthority): SampleState {
    var acknowledgement := StopAnswer(s.adapter, authority);
    var t := s.(adapter := Stopped(s.adapter, authority));
    if acknowledgement.None? then t
    else
      var u := Read(t);
      Ask(u, CallObserveStop(StopAcknowledgementEvidence(authority, acknowledgement.value,
                                                         EvidenceRecord(STOP, u.now, 1))))
  }

  function ApplyControl(s: SampleState, authority: OperationAuthority, d: ControlDecision): SampleState {
    if d.status != ControlApplied then s
    else
      var named := s.prepared.Some? && s.prepared.value.operationId == authority.operationId;
      var t := if named then DiscardPrepared(s) else s;
      if d.shouldRequestNativeStop then StopWork(t, authority) else t
  }

  /** The deadline, as far as this time tells. */
  function ObserveAt(s: SampleState, time: U64): SampleState {
    if s.current.None? then s
    else
      ApplyControl(Ask(s, CallObserveTime(s.current.value, time)), s.current.value,
                   GateSpec.ObserveTime(s.gate, s.current.value, time).1)
  }

  /** A look at the clock, and at the deadline with it. */
  function Look(s: SampleState): (SampleState, U64) {
    var t := Read(s);
    (ObserveAt(t, t.now), t.now)
  }

  function Withdraw(s: SampleState, expected: BindingIdentity): (SampleState, BindingDecision) {
    var t := Read(s);
    var d := GateSpec.WithdrawBinding(t.gate, expected, t.now).1;
    var u := Ask(t, CallWithdraw(expected, t.now));
    if d.status != Applied then (u, d)
    else
      var v := DiscardPrepared(u);
      (if d.nativeStopAuthority.Some?
       then ApplyControl(v, d.nativeStopAuthority.value, ControlDecision(ControlApplied, true)) else v, d)
  }

  predicate IsServiceable(a: AdapterState) {
    a.workerReady && !a.closed && a.sinkReady
  }

  function PollSample(s: SampleState): SampleState {
    var t := Read(s);
    var lost := t.gate.initialization == Ready && !IsServiceable(t.adapter);
    var u := if lost then Withdraw(t, t.gate.config.binding).0 else t;
    ObserveAt(u, u.now)
  }

  function Cancel(s: SampleState, authority: OperationAuthority): (SampleState, ControlDecision) {
    var t := Read(PollSample(s));
    var d := GateSpec.RequestCancel(t.gate, authority, t.now).1;
    (ApplyControl(Ask(t, CallRequestCancel(authority, t.now)), authority, d), d)
  }

  // ---------- Delivering what was staged ----------

  function ResultReference(operationId: U64): (r: string)
    ensures r != ""
  {
    "managed-result-" + Decimal(operationId)
  }

  datatype Acceptance = ResultAccepted | SinkUnavailable | InvalidResult | PermissionDenied

  function AcceptanceOf(s: SampleState, authority: OperationAuthority, r: SampleResult): Acceptance {
    if r.operationId != authority.operationId then InvalidResult
    else if !CanDeliverResult(s.gate, authority) then PermissionDenied
    else if !IsServiceableSink(s.adapter) then SinkUnavailable
    else ResultAccepted
  }

  predicate IsServiceableSink(a: AdapterState) {
    a.sinkReady && !a.closed
  }

  function Denied(a: AdapterState): AdapterState {
    a.(counts := a.counts.(denials := a.counts.denials + 1))
  }

  /** The result goes into the sink, or a denial is counted. */
  function Store(s: SampleState, r: SampleResult, acceptance: Acceptance): SampleState {
    match acceptance
    case ResultAccepted => s.(adapter := s.adapter.(results := s.adapter.results + [r]))
    case PermissionDenied => s.(adapter := Denied(s.adapter))
    case _ => s
  }

  function ReportAcceptance(s: SampleState, authority: OperationAuthority, acceptance: Acceptance,
                            time: U64): SampleState
  {
    var reference := ResultReference(authority.operationId);
    var record := EvidenceRecord(SINK, time, 1);
    match acceptance
    case ResultAccepted => Ask(s, CallObserveOutput(OutputEvidence(authority, reference, record)))
    case SinkUnavailable =>
      Ask(s, CallObserveNonDelivery(NonDeliveryEvidence(authority, SinkRejected, reference, record)))
    case PermissionDenied =>
      Ask(s, CallObserveNonDelivery(NonDeliveryEvidence(authority, AuthorityRevoked, reference, record)))
    case InvalidResult => s
  }

  function TakeResult(s: SampleState, c: Callback): SampleState {
    if c.result.None? then s
    else
      var t := Read(s);
      var u := ObserveAt(t, t.now);
      var acceptance := AcceptanceOf(u, c.authority, c.result.value);
      ReportAcceptance(Store(u, c.result.value, acceptance), c.authority, acceptance, t.now)
  }

  function TakeSettlement(s: SampleState, c: Callback): SampleState {
    var (t, time) := Look(s);
    Ask(t, CallObserveSettlement(SettlementEvidence(c.authority, SCOPE, true,
                                                    EvidenceRecord(ADAPTER, time, c.sequence))))
  }

  function NativeKind(kind: CallbackKind): Option<NativeEventKind> {
    match kind
    case AcceptedCallback => Some(AcceptedEvent)
    case RejectedCallback => Some(RejectedEvent)
    case StartedCallback => Some(StartedEvent)
    case SucceededCallback => Some(TerminalSucceeded)
    case FailedCallback => Some(TerminalFailed)
    case CancelledCallback => Some(TerminalCancelled)
    case _ => None
  }

  function TakeEvent(s: SampleState, e: Staged): SampleState {
    var c := e.callback;
    match c.kind
    case NotSubmittedCallback =>
      Ask(s, CallObserveNonSubmission(NonSubmissionEvidence(c.authority, EvidenceRecord(ADAPTER, e.at, c.sequence))))
    case NoOutputCallback =>
      Ask(s, CallObserveNonDelivery(NonDeliveryEvidence(c.authority, NoOutputProduced, "",
                                                        EvidenceRecord(ADAPTER, e.at, c.sequence))))
    case ResultCallback => TakeResult(s, c)
    case SettledCallback => TakeSettlement(s, c)
    case _ =>
      Ask(s, CallObserveNative(NativeEvidence(c.authority, c.identity, NativeKind(c.kind).value,
                                              EvidenceRecord(WORKER, e.at, c.sequence))))
  }

  /** One staged event, if there is one. */
  function ProcessNext(s: SampleState): (SampleState, bool) {
    var t := PollSample(s);
    if t.staged == [] then (t, false) else (TakeEvent(t.(staged := t.staged[1..]), t.staged[0]), true)
  }

  // ---------- Preparing and dispatching ----------

  datatype SampleStatus = SamplePrepared | SampleSubmitted | SampleInvalid | SampleBlocked | DispatchBlocked

  datatype SampleSubmission = SampleSubmission(status: SampleStatus, admission: AdmissionStatus,
                                               authority: Option<OperationAuthority>)

  function OperationFor(q: SampleRequest, at: U64): OperationRequest {
    OperationRequest(CAPABILITY, BINDING.effectDomain, q.reference, SINK, at, q.deadline, None)
  }

  /** The state once a request has been admitted. */
  function TakeUp(s: SampleState, a: OperationAuthority, q: SampleRequest): SampleState {
    s.(current := Some(a), prepared := Some(a), request := Some(q), history := s.history[a.operationId := q])
  }

  /** A valid request is put to the gate. */
  function Offer(s: SampleState, q: SampleRequest): (SampleState, SampleSubmission) {
    var (t, time) := Look(s);
    var d := GateSpec.Admit(t.gate, OperationFor(q, time)).1;
    var u := Ask(t, CallAdmit(OperationFor(q, time)));
    if d.authority.None? then (u, SampleSubmission(SampleBlocked, d.status, None))
    else (TakeUp(u, d.authority.value, q), SampleSubmission(SamplePrepared, d.status, d.authority))
  }

  function Prepare(s: SampleState, q: SampleRequest): (SampleState, SampleSubmission) {
    var t := PollSample(s);
    if IsRequest(q) then Offer(t, q) else (t, SampleSubmission(SampleInvalid, InvalidRequest, None))
  }

  function WorkFor(authority: OperationAuthority, q: SampleRequest): WorkItem {
    WorkItem(authority, q, "native-sample-" + Decimal(authority.operationId), false)
  }

  /** The adapter asks for permission only when it could start at once. */
  function Permit(s: SampleState, authority: OperationAuthority): (SampleState, bool) {
    var (t, time) := Look(s);
    (Ask(t, CallClaimDispatch(authority, time)), GateSpec.ClaimDispatch(t.gate, authority, time).1)
  }

  /** Work the adapter has accepted is done at once or kept for later. */
  function HoldOrFinish(s: SampleState, w: WorkItem): SampleState {
    if s.adapter.deferred then s.(adapter := s.adapter.(pending := Some(w))) else FinishWork(s, w)
  }

  function Reject(s: SampleState, w: WorkItem): SampleState {
    EmitWithoutOutput(s.(adapter := s.adapter.(rejectNext := false)), w, RejectedCallback, 1)
  }

  function StartWork(s: SampleState, w: WorkItem): SampleState {
    var t := CountSubmission(s);
    if t.adapter.rejectNext then Reject(t, w) else HoldOrFinish(EmitPlain(t, w, AcceptedCallback, 1), w)
  }

  function DispatchWork(s: SampleState, authority: OperationAuthority, q: SampleRequest): (SampleState, bool) {
    var w := WorkFor(authority, q);
    if !IsServiceable(s.adapter) || s.adapter.pending.Some? then (EmitUnsubmitted(s, w), false)
    else
      var (t, granted) := Permit(s, authority);
      if !granted then (EmitUnsubmitted(t, w), false) else (StartWork(t, w), true)
  }

  // ---------- Starting, rebinding ----------

  function StartupFor(s: SampleState, kind: StartupEvidenceKind, source: string, observed: bool,
                      sequence: U64): SampleState
  {
    var t := Read(s);
    Ask(t, CallObserveStartup(StartupEvidence(kind, t.gate.config.binding, EvidenceRecord(source, t.now, sequence),
                                              observed)))
  }

  function CountBinding(s: SampleState): SampleState {
    s.(numbers := s.numbers.(binding := Increment(s.numbers.binding)))
  }

  function CountWorker(s: SampleState): SampleState {
    s.(numbers := s.numbers.(worker := Increment(s.numbers.worker)))
  }

  function CountSink(s: SampleState): SampleState {
    s.(numbers := s.numbers.(sink := Increment(s.numbers.sink)))
  }

  function DeclareBinding(s: SampleState): SampleState {
    var t := CountBinding(s);
    StartupFor(t, BindingIdleAndSettled, ADAPTER, t.adapter.pending.None?, t.numbers.binding)
  }

  function DeclareWorker(s: SampleState): SampleState {
    var t := CountWorker(s);
    StartupFor(t, WorkerReady, WORKER, t.adapter.workerReady && !t.adapter.closed, t.numbers.worker)
  }

  function DeclareSink(s: SampleState): SampleState {
    var t := CountSink(s);
    StartupFor(t, ResultSinkReady, SINK, IsServiceableSink(t.adapter), t.numbers.sink)
  }

  function Initialize(s: SampleState): SampleState {
    var t := if s.gate.initialization == Ready && !IsServiceable(s.adapter) then PollSample(s) else s;
    DeclareSink(DeclareWorker(DeclareBinding(t)))
  }

  function OfferFor(s: SampleState, b: BindingIdentity, kind: StartupEvidenceKind, source: string, at: U64,
                    sequence: U64): SampleState
    requires at < MAX_U64
  {
    Ask(s, CallObserveReadiness(BindingReadinessEvidence(kind, b, EvidenceRecord(source, at, sequence), true, at + 1)))
  }

  /** A fresh adapter is idle and ready. */
  function OfferAll(s: SampleState, b: BindingIdentity, at: U64): SampleState
    requires at < MAX_U64
  {
    var t := CountBinding(s);
    var u := CountWorker(OfferFor(t, b, BindingIdleAndSettled, ADAPTER, at, t.numbers.binding));
    var v := CountSink(OfferFor(u, b, WorkerReady, WORKER, at, u.numbers.worker));
    OfferFor(v, b, ResultSinkReady, SINK, at, v.numbers.sink)
  }

  /** The new adapter takes over what the old one has observed. */
  function Replacement(a: AdapterState, deferred: bool): AdapterState {
    NewAdapter(deferred).(results := a.results, replay := a.replay, replayEnabled := a.replayEnabled,
                          counts := a.counts)
  }

  function CommitOrAbandon(s: SampleState, b: BindingIdentity, deferred: bool, at: U64): (SampleState, BindingDecision)
  {
    var d := GateSpec.CommitRebind(s.gate, b, at).1;
    var t := Ask(s, CallCommit(b, at));
    if d.status != Applied then (Ask(t, CallWithdraw(b, at)), d)
    else (t.(adapter := Replacement(t.adapter, deferred)), d)
  }

  function BeginFor(s: SampleState, expected: BindingIdentity, provider: string, at: U64): Call
    requires at < MAX_U64
  {
    CallBeginRebind(expected, provider,
                    BindingReadinessEvidence(BindingIdleAndSettled, expected,
                                             EvidenceRecord(ADAPTER, at, s.numbers.binding), true, at + 1),
                    at)
  }

  function RebindFrom(s: SampleState, expected: BindingIdentity, provider: string, deferred: bool)
    : (SampleState, BindingDecision)
    requires s.now < MAX_U64
  {
    var t := CountBinding(s);
    var c := BeginFor(t, expected, provider, t.now);
    var begun := AnswerOf(t.gate, c);
    var u := Ask(t, c);
    if !begun.Binding? then (u, BindingDecision(WrongPhase, None, None))
    else if begun.binding.status != Applied || begun.binding.candidate.None? then (u, begun.binding)
    else CommitOrAbandon(OfferAll(u, begun.binding.candidate.value, t.now), begun.binding.candidate.value, deferred,
                         t.now)
  }

  function Rebind(s: SampleState, expected: BindingIdentity, provider: string, deferred: bool)
    : (SampleState, BindingDecision)
  {
    var t := Read(PollSample(s));
    if t.isShutdown then (t, BindingDecision(BindingClosed, None, None))
    else if t.adapter.pending.Some? || t.prepared.Some? || t.staged != []
    then (t, BindingDecision(UnresolvedWork, None, None))
    else if t.now == MAX_U64 then (t, BindingDecision(InvalidTime, None, None))
    else RebindFrom(t, expected, provider, deferred)
  }

  /** The retained result comes in once more, ahead of everything staged. */
  function Replay(s: SampleState): (SampleState, bool) {
    if s.adapter.closed || s.adapter.replay.None? then (s, false)
    else
      var t := Read(s);
      (t.(staged := [Staged(t.adapter.replay.value, t.now)] + t.staged), true)
  }
}
