/**
 A short-lived host of the recovery protocol as functions on its state: it drives a real
 authority gate with what the owner tells it. `Client` (recovery_client.dfy) refines them.
 `cause` records why a client closed; the source only closes.
 */
module ClientSpec {
  import opened Machine
  import opened Sums
  import opened GateTypes
  import opened GateSpec
  import P = RecoveryProtocol
  import opened RecoveryProtocol

  const OWNER := "recovery-owner"
  const SINK := "recovery-sink"
  const SCOPE := "supervised-compute-domain"
  const CAPABILITY := "compute.periodic-square-sum"
  const SETTLEMENT := "owned-child-output-and-channels"

  datatype Phase = Connecting | Blocked | Recovering | ReadyToSubmit | ClosedPhase

  datatype Exchange = HelloExchange | Idle | SnapshotExchange | ActivationExchange | AcceptanceExchange | ResultExchange

  /** Why a client closed: its clock, the peer, a message out of place, a late answer, an exhausted counter,
      its gate, or its caller. */
  datatype Cause = ClockRanBack | PeerLeft | OutOfPlace | TooLate | Exhausted | GateRefused | ByCaller

  datatype ClientState = ClientState(
    phase: Phase,
    exchange: Exchange,
    lastTime: U64,
    issuedAt: U64,
    queuedAt: U64,
    queryAt: U64,
    epoch: U64,
    nonce: U64,
    token: U64,
    sequence: U64,
    iterations: U64,
    gate: Option<GateState>,
    candidate: Option<BindingIdentity>,
    operation: Option<OperationAuthority>,
    pending: Option<Message>,
    value: Option<U64>,
    cause: Option<Cause>)

  function NewClient(now: U64): ClientState {
    ClientState(Connecting, HelloExchange, now, now, 0, 0, 0, 0, 0, 0, 0, None, None, None, None, None, None)
  }

  /** The configuration of the client's gate; its first binding is the session before its own. */
  function ConfigOf(priorSession: U64, now: U64): GateConfig {
    GateConfig(BindingIdentity(OWNER, SCOPE, 1, priorSession), CAPABILITY, OWNER, OWNER, SINK, OWNER, OWNER,
               SETTLEMENT, now, "native-stop", GateTypes.AdapterReady, "")
  }

  function NativeId(session: U64, operation: U64): (s: string)
    ensures s != ""
  {
    "session-" + Decimal(session) + "-op-" + Decimal(operation)
  }

  function RequestReference(n: nat): (s: string)
    ensures s != ""
  {
    "prototype-" + Decimal(n)
  }

  // ---------- Closing, time and sending ----------

  predicate IsClosed(c: ClientState) {
    c.phase == ClosedPhase
  }

  function CloseClient(c: ClientState, cause: Cause): ClientState {
    c.(phase := ClosedPhase, pending := None, cause := if c.cause.Some? then c.cause else Some(cause),
       gate := if c.gate.Some? then Some(CloseAdmission(c.gate.value)) else None)
  }

  /** A clock that runs backwards closes the client. */
  function Advance(c: ClientState, now: U64): ClientState {
    if IsClosed(c) then c
    else if now < c.lastTime then CloseClient(c, ClockRanBack)
    else c.(lastTime := now)
  }

  function QueueMessage(c: ClientState, m: Message, now: U64): ClientState {
    if c.pending.Some? || c.nonce == MAX_U64 then CloseClient(c, Exhausted)
    else
      var nonce := c.nonce + 1;
      c.(nonce := nonce, pending := Some(m.(session := c.epoch, request := nonce)), queuedAt := now, issuedAt := now)
  }

  /** The sequence number of the next record; the counter wraps. */
  function NextSequence(c: ClientState): U64 {
    Increment(c.sequence)
  }

  // ---------- What a client makes of a message ----------

  function AcceptHello(c: ClientState, m: Message, now: U64): ClientState {
    if m.kind != P.Hello || m.session < 2 || m.request != 0 || !HasEmptyPayload(m) then CloseClient(c, OutOfPlace)
    else
      var config := ConfigOf(m.session - 1, now);
      var (gate, decision) := WithdrawBinding(InitialGate(config), config.binding, now);
      var d := c.(epoch := m.session, gate := Some(gate));
      if decision.status != Applied then CloseClient(d, GateRefused)
      else d.(phase := Blocked, exchange := Idle)
  }

  function Closure(g: GateState, record: EvidenceRecord, expires: U64): BindingReadinessEvidence {
    BindingReadinessEvidence(BindingIdleAndSettled, g.config.binding, record, true, expires)
  }

  function BeginRecovery(c: ClientState, m: Message, now: U64): ClientState
    requires c.gate.Some? && (c.gate.value.phase == Withdrawn ==> c.gate.value.withdrawnAt.Some?)
    requires c.queryAt <= MAX_U64 - EVIDENCE_LIFETIME_MS
  {
    var g := c.gate.value;
    var closure := Closure(g, EvidenceRecord(OWNER, now, NextSequence(c)), c.queryAt + EVIDENCE_LIFETIME_MS);
    var (h, decision) := BeginRebind(g, g.config.binding, OWNER, closure, now);
    var d := c.(gate := Some(h), sequence := NextSequence(c));
    if decision.status != Applied || decision.candidate.None?
       || decision.candidate.value.providerGeneration != c.epoch then CloseClient(d, GateRefused)
    else
      var e := d.(candidate := decision.candidate, token := m.request);
      var q := QueueMessage(e, Reply(P.Activate, 0, 0).(value := m.request), now);
      if IsClosed(q) then q else q.(exchange := ActivationExchange)
  }

  function AcceptSnapshot(c: ClientState, m: Message, now: U64): ClientState
    requires c.gate.Some? && (c.gate.value.phase == Withdrawn ==> c.gate.value.withdrawnAt.Some?)
  {
    if m.kind != P.Snapshot || m.operation != 0 || m.amount != 0 || m.value != 0
      || (m.flags != 0 && m.flags != CLEAR) then
      CloseClient(c, OutOfPlace)
    else if !IsFresh(c.queryAt, now) then CloseClient(c, TooLate)
    else if m.flags == 0 then c.(phase := Blocked, exchange := Idle)
    else if c.queryAt > MAX_U64 - EVIDENCE_LIFETIME_MS then CloseClient(c, Exhausted)
    else BeginRecovery(c, m, now)
  }

  function SourceFor(kind: StartupEvidenceKind): string {
    if kind == ResultSinkReady then SINK else OWNER
  }

  /** One item of evidence for the candidate. */
  function Offer(c: ClientState, kind: StartupEvidenceKind, now: U64): ClientState
    requires c.gate.Some? && c.candidate.Some? && c.queryAt <= MAX_U64 - EVIDENCE_LIFETIME_MS
  {
    var e := BindingReadinessEvidence(kind, c.candidate.value, EvidenceRecord(SourceFor(kind), now, NextSequence(c)),
                                      true,
                                      c.queryAt + EVIDENCE_LIFETIME_MS);
    var (g, disposition) := ObserveReadiness(c.gate.value, e);
    var d := c.(gate := Some(g), sequence := NextSequence(c));
    if disposition == GateTypes.Accepted then d else CloseClient(d, GateRefused)
  }

  function CommitRecovery(c: ClientState, now: U64): ClientState
    requires c.gate.Some? && c.candidate.Some?
  {
    var (g, decision) := CommitRebind(c.gate.value, c.candidate.value, now);
    var d := c.(gate := Some(g));
    if decision.status != Applied then CloseClient(d, GateRefused)
    else d.(phase := ReadyToSubmit, exchange := Idle)
  }

  function AcceptActivation(c: ClientState, m: Message, now: U64): ClientState
    requires c.gate.Some? && c.queryAt <= MAX_U64 - EVIDENCE_LIFETIME_MS
  {
    if m.kind != P.Activated || m.value != c.token || m.operation != 0 || m.amount != 0 || m.flags != 0
       || c.candidate.None? then CloseClient(c, OutOfPlace)
    else if !IsFresh(c.queryAt, now) then CloseClient(c, TooLate)
    else
      var c1 := Offer(c, BindingIdleAndSettled, now);
      if IsClosed(c1) then c1
      else
        var c2 := Offer(c1, GateTypes.AdapterReady, now);
        if IsClosed(c2) then c2
        else
          var c3 := Offer(c2, ResultSinkReady, now);
          if IsClosed(c3) then c3 else CommitRecovery(c3, now)
  }

  // ---------- Results ----------

  /** The gate call that follows one record, and whether the gate accepted it. */
  function Settle(c: ClientState, g: GateState, disposition: EvidenceDisposition): ClientState {
    var d := c.(gate := Some(g), sequence := NextSequence(c));
    if disposition == GateTypes.Accepted then d else CloseClient(d, GateRefused)
  }

  predicate CanObserveNative(c: ClientState) {
    c.gate.Some? && c.operation.Some? && Callable(c.gate.value)
  }

  function ReportNative(c: ClientState, kind: NativeEventKind, now: U64): ClientState
    requires CanObserveNative(c)
  {
    var e := NativeEvidence(c.operation.value, NativeId(c.epoch, c.operation.value.operationId), kind,
                            EvidenceRecord(OWNER, now, NextSequence(c)));
    var (g, d) := ObserveNative(c.gate.value, e);
    Settle(c, g, d)
  }

  function ReportDelivered(c: ClientState, now: U64): ClientState
    requires c.gate.Some? && c.operation.Some?
  {
    if !CanDeliverResult(c.gate.value, c.operation.value) then CloseClient(c, GateRefused)
    else
      var e := OutputEvidence(c.operation.value, NativeId(c.epoch, c.operation.value.operationId),
                              EvidenceRecord(SINK, now, NextSequence(c)));
      var (g, d) := ObserveOutputAccepted(c.gate.value, e);
      Settle(c, g, d)
  }

  function ReportNoOutput(c: ClientState, now: U64): ClientState
    requires c.gate.Some? && c.operation.Some?
  {
    var e := NonDeliveryEvidence(c.operation.value, NoOutputProduced, "", EvidenceRecord(OWNER, now, NextSequence(c)));
    var (g, d) := ObserveOutputNotDelivered(c.gate.value, e);
    Settle(c, g, d)
  }

  function ReportSettled(c: ClientState, now: U64): ClientState
    requires c.gate.Some? && c.operation.Some?
  {
    var e := SettlementEvidence(c.operation.value, SETTLEMENT, true, EvidenceRecord(OWNER, now, NextSequence(c)));
    var (g, d) := ObserveSettlement(c.gate.value, e);
    Settle(c, g, d)
  }

  function OutcomeFor(flags: U64): NativeEventKind {
    if flags == SUCCEEDED then TerminalSucceeded
    else if flags == P.CANCELLED then TerminalCancelled
    else if flags == NOT_LAUNCHED then RejectedEvent
    else TerminalFailed
  }

  /** Output and settlement, once the outcome is known. */
  function FinishOperation(c: ClientState, m: Message, now: U64): ClientState
    requires c.gate.Some? && c.operation.Some?
  {
    var c2 := if m.flags == SUCCEEDED then ReportDelivered(c, now) else ReportNoOutput(c, now);
    if IsClosed(c2) then c2
    else
      var c3 := ReportSettled(c2, now);
      if IsClosed(c3) then c3
      else c3.(value := if m.flags == SUCCEEDED then Some(m.value) else c3.value, exchange := Idle)
  }

  function AcceptResult(c: ClientState, m: Message, now: U64): ClientState
    requires CanObserveNative(c)
  {
    var c1 := ReportNative(c, OutcomeFor(m.flags), now);
    if IsClosed(c1) then c1 else FinishOperation(c1, m, now)
  }

  predicate IsAcceptance(c: ClientState, m: Message) {
    c.exchange == AcceptanceExchange && m.kind == P.Accepted && m.flags == 0 && m.value == 0
  }

  /** A result that may be believed: at the right moment, and with the value it must have. */
  predicate IsResult(c: ClientState, m: Message) {
    && m.kind == P.Result
    && (c.exchange == ResultExchange || (c.exchange == AcceptanceExchange && m.flags == NOT_LAUNCHED))
    && SUCCEEDED <= m.flags <= NOT_LAUNCHED
    && !(c.exchange == ResultExchange && m.flags == NOT_LAUNCHED)
    && (if m.flags == SUCCEEDED then m.value == ExpectedSum(c.iterations) else m.value == 0)
  }

  function AcceptAboutOperation(c: ClientState, m: Message, now: U64): ClientState
    requires c.gate.Some? && Callable(c.gate.value)
  {
    if c.operation.None? || m.operation != c.operation.value.operationId || m.amount != c.iterations then
      CloseClient(c, OutOfPlace)
    else if IsAcceptance(c, m) then
      var d := ReportNative(c, AcceptedEvent, now);
      if IsClosed(d) then d else d.(exchange := ResultExchange)
    else if !IsResult(c, m) then CloseClient(c, OutOfPlace)
    else AcceptResult(c, m, now)
  }

  /** What an open client needs to handle a message without running into an absent gate. */
  predicate CanHandle(c: ClientState) {
    c.exchange != HelloExchange ==>
      && c.gate.Some? && Callable(c.gate.value)
      && (c.exchange == ActivationExchange ==> c.queryAt <= MAX_U64 - EVIDENCE_LIFETIME_MS)
  }

  function Handle(c: ClientState, m: Message, now: U64): ClientState
    requires CanHandle(c)
  {
    if c.exchange == HelloExchange then AcceptHello(c, m, now)
    else if m.session != c.epoch || m.request != c.nonce then CloseClient(c, OutOfPlace)
    else if c.exchange == SnapshotExchange then AcceptSnapshot(c, m, now)
    else if c.exchange == ActivationExchange then AcceptActivation(c, m, now)
    else AcceptAboutOperation(c, m, now)
  }

  // ---------- The public calls ----------

  predicate Waits(c: ClientState) {
    c.exchange != Idle && c.exchange != ResultExchange
  }

  /** A poll up to the point where it may receive. */
  function SendPending(c: ClientState, now: U64, send: SendOutcome): ClientState {
    if c.pending.None? then c
    else if !IsFresh(c.queuedAt, now) then CloseClient(c, TooLate)
    else
      match send
      case PeerClosed => CloseClient(c, PeerLeft)
      case Again => c
      case Done => c.(pending := None)
  }

  predicate MayReceiveNow(c: ClientState) {
    !IsClosed(c) && c.pending.None?
  }

  function ReceiveNow(c: ClientState, now: U64, receive: ReceiveOutcome): ClientState
    requires CanHandle(c)
  {
    if Waits(c) && !IsFresh(c.issuedAt, now) then CloseClient(c, TooLate)
    else
      match receive
      case NothingThere => c
      case NoPeer => CloseClient(c, PeerLeft)
      case Got(m) => Handle(c, m, now)
  }

  function PollClient(c: ClientState, now: U64, send: SendOutcome, receive: ReceiveOutcome): ClientState
    requires CanHandle(c)
  {
    var c1 := Advance(c, now);
    if IsClosed(c1) then c1
    else
      var c2 := SendPending(c1, now, send);
      if MayReceiveNow(c2) then ReceiveNow(c2, now, receive) else c2
  }

  /** The message a poll sends, if it does. */
  function PollSends(c: ClientState, now: U64, send: SendOutcome): Option<Message> {
    var c1 := Advance(c, now);
    if !IsClosed(c1) && c1.pending.Some? && IsFresh(c1.queuedAt, now) && send == Done then c1.pending else None
  }

  /** Whether a poll takes the message offered to it. */
  predicate PollTakes(c: ClientState, now: U64, send: SendOutcome, receive: ReceiveOutcome) {
    var c2 := SendPending(Advance(c, now), now, send);
    MayReceiveNow(c2) && !(Waits(c2) && !IsFresh(c2.issuedAt, now)) && receive.Got?
  }

  function Recover(c: ClientState, now: U64): (ClientState, bool) {
    var c1 := Advance(c, now);
    if IsClosed(c1) || c1.phase != Blocked || c1.exchange != Idle then (c1, false)
    else
      var q := QueueMessage(c1, Reply(P.Query, 0, 0), now);
      if IsClosed(q) then (q, false)
      else (q.(queryAt := now, exchange := SnapshotExchange, phase := Recovering), true)
  }

  function RequestFor(c: ClientState, now: U64): OperationRequest {
    OperationRequest(CAPABILITY, SCOPE, RequestReference(Increment(c.nonce)), SINK, now, None, None)
  }

  /** The part of a submission that follows an admission. */
  function DispatchSubmission(c: ClientState, authority: OperationAuthority, iterations: U64, now: U64)
    : (ClientState, bool)
    requires c.gate.Some?
  {
    var d := c.(operation := Some(authority), iterations := iterations, value := None);
    var (g, granted) := ClaimDispatch(d.gate.value, authority, now);
    var d1 := d.(gate := Some(g));
    if !granted then (CloseClient(d1, GateRefused), false)
    else
      var m := Reply(P.Submit, 0, 0).(operation := authority.operationId, amount := iterations);
      var q := QueueMessage(d1, m, now);
      if IsClosed(q) then (q, false) else (q.(exchange := AcceptanceExchange), true)
  }

  function SubmitWork(c: ClientState, iterations: U64, now: U64): (ClientState, bool)
    requires c.phase == ReadyToSubmit ==> c.gate.Some?
  {
    var c1 := Advance(c, now);
    if IsClosed(c1) || c1.phase != ReadyToSubmit || c1.exchange != Idle || iterations == 0
       || iterations > MAXIMUM_ITERATIONS then (c1, false)
    else
      var (g, decision) := Admit(c1.gate.value, RequestFor(c1, now));
      var c2 := c1.(gate := Some(g));
      if decision.status != Admitted || decision.authority.None? then (c2, false)
      else DispatchSubmission(c2, decision.authority.value, iterations, now)
  }
}
