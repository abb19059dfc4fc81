/**
 Every life of a client, against any peer: what it keeps, and that its gate never refuses it
 while its evidence counter has not run through all 64 bits.
 */
module ClientRuns {
  import opened Machine
  import opened Sums
  import opened GateTypes
  import opened GateSpec
  import opened GateInvariant
  import P = RecoveryProtocol
  import opened RecoveryProtocol
  import opened ClientSpec
  import opened ClientInvariant

  // ---------- The invariant ----------

  predicate PhaseFits(c: ClientState) {
    match c.exchange
    case HelloExchange => c.phase == Connecting
    case Idle => c.phase == Blocked || c.phase == ReadyToSubmit
    case SnapshotExchange => c.phase == Recovering
    case ActivationExchange => c.phase == Recovering
    case AcceptanceExchange => c.phase == ReadyToSubmit
    case ResultExchange => c.phase == ReadyToSubmit
  }

  predicate IsBound(c: ClientState) {
    c.phase == ReadyToSubmit
  }

  /** Each request is worth at most four records, and at most one operation. */
  predicate CountsFit(c: ClientState) {
    match c.exchange
    case HelloExchange => c.nonce == 0 && c.sequence == 0
    case Idle => if IsBound(c) then c.nonce >= 2 && c.sequence + 4 <= 4 * c.nonce else c.sequence == 0
    case SnapshotExchange => c.nonce >= 1 && c.sequence == 0
    case ActivationExchange => c.nonce >= 2 && c.sequence == 1
    case AcceptanceExchange => c.nonce >= 3 && c.sequence + 8 <= 4 * c.nonce
    case ResultExchange => c.nonce >= 3 && c.sequence + 7 <= 4 * c.nonce
  }

  predicate OperationsFit(c: ClientState) {
    c.gate.Some? && IsBound(c) ==>
      && 0 < c.gate.value.nextOperationId < c.nonce
      && (c.operation.Some? ==> c.operation.value.operationId + 1 == c.gate.value.nextOperationId)
      && (c.operation.None? ==> c.gate.value.nextOperationId == 1)
      && (c.operation.Some? ==> 0 < c.iterations <= MAXIMUM_ITERATIONS)
      && (c.value.Some? ==> c.operation.Some? && c.exchange == Idle && c.value.value == ExpectedSum(c.iterations))
  }

  /** The request in the client's hands is the one its exchange is about. */
  predicate PendingFits(c: ClientState) {
    c.pending.Some? ==>
      && c.pending.value.session == c.epoch && c.pending.value.request == c.nonce
      && match c.exchange
         case SnapshotExchange => c.pending.value == Reply(P.Query, c.epoch, c.nonce)
         case ActivationExchange => c.pending.value == Reply(P.Activate, c.epoch, c.nonce).(value := c.token)
         case AcceptanceExchange =>
           && c.operation.Some?
           && c.pending.value == Reply(P.Submit, c.epoch, c.nonce)
                                   .(operation := c.operation.value.operationId, amount := c.iterations)
         case _ => false
  }

  predicate GateFits(c: ClientState) {
    if c.exchange == HelloExchange then c.gate.None?
    else
      && c.gate.Some? && c.epoch >= 2
      && var g := c.gate.value;
         match c.exchange
         case HelloExchange => true
         case Idle => if IsBound(c) then IsFreeGate(g, c.epoch, c.lastTime) else IsBlockedGate(g, c.epoch, c.lastTime)
         case SnapshotExchange => IsBlockedGate(g, c.epoch, c.lastTime)
         case ActivationExchange =>
           && c.queryAt <= MAX_U64 - EVIDENCE_LIFETIME_MS && c.candidate == Some(BindingOf(c.epoch))
           && IsPreparingGate(g, c.epoch, c.lastTime, c.queryAt + EVIDENCE_LIFETIME_MS, 0)
         case AcceptanceExchange =>
           && c.operation.Some?
           && IsWorkingGate(g, c.epoch, c.lastTime, c.sequence, c.operation.value, false)
         case ResultExchange =>
           && c.operation.Some?
           && IsWorkingGate(g, c.epoch, c.lastTime, c.sequence, c.operation.value, true)
  }

  /** The counter of evidence records has run through all of its values. */
  predicate HasRunThrough(c: ClientState) {
    4 * c.nonce > MAX_U64
  }

  /** A value, once shown, stays in view whatever becomes of the client; it is the sum for its operation. */
  predicate ValueFits(c: ClientState) {
    c.value.Some? ==>
      c.operation.Some? && 0 < c.iterations <= MAXIMUM_ITERATIONS && c.value.value == ExpectedSum(c.iterations)
  }

  predicate ClientInv(c: ClientState) {
    && ValueFits(c)
    && if IsClosed(c) then c.cause.Some? && c.pending.None? && (c.cause.value == GateRefused ==> HasRunThrough(c))
    else
      && c.cause.None? && PhaseFits(c) && CountsFit(c) && OperationsFit(c) && PendingFits(c) && GateFits(c)
      && (c.exchange == HelloExchange ==> c.epoch == 0)
      && (!IsBound(c) ==> c.operation.None? && c.value.None?)
  }

  lemma NewClientIsValid(now: U64)
    ensures ClientInv(NewClient(now))
  {
  }

  lemma InvCanHandle(c: ClientState)
    requires ClientInv(c) && !IsClosed(c)
    ensures CanHandle(c)
  {
  }

  // ---------- Small steps ----------

  lemma CloseKeeps(c: ClientState, cause: Cause)
    requires ClientInv(c) && (cause == GateRefused ==> HasRunThrough(c))
    ensures ClientInv(CloseClient(c, cause))
  {
  }

  lemma BoundGateAges(g: GateState, epoch: U64, now: U64, later: U64)
    requires IsBoundGate(g, epoch, now) && now <= later
    ensures IsBoundGate(g, epoch, later)
  {
    hide IsConfigured, Callable, IsReady;
  }

  lemma ReceiptAges(r: OperationReceipt, now: U64, later: U64)
    requires EndsBy(r, now) && now <= later
    ensures EndsBy(r, later)
  {
    hide EndsBy, LatestTime;
    LatestTimeIsLeast(r, now);
    LatestTimeIsLeast(r, later);
  }

  lemma NothingInHandAges(g: GateState, epoch: U64, now: U64, later: U64)
    requires IsFreeGate(g, epoch, now) && now <= later
    ensures IsFreeGate(g, epoch, later)
  {
    hide IsBoundGate, IsReleasable, EndsBy;
    BoundGateAges(g, epoch, now, later);
    if g.receipt.Some? { ReceiptAges(g.receipt.value, now, later); }
  }

  lemma WorkingGateAges(g: GateState, epoch: U64, now: U64, later: U64, sequence: U64, operation: OperationAuthority,
                        accepted: bool)
    requires IsWorkingGate(g, epoch, now, sequence, operation, accepted) && now <= later
    ensures IsWorkingGate(g, epoch, later, sequence, operation, accepted)
  {
    hide IsBoundGate, NativeId;
    BoundGateAges(g, epoch, now, later);
  }

  lemma BoundGatesAge(c: ClientState, now: U64)
    requires GateFits(c) && IsBound(c) && PhaseFits(c) && now >= c.lastTime
    ensures GateFits(c.(lastTime := now))
  {
    hide IsFreeGate, IsWorkingGate, IsBlockedGate, IsPreparingGate;
    match c.exchange
    case Idle => NothingInHandAges(c.gate.value, c.epoch, c.lastTime, now);
    case AcceptanceExchange =>
      WorkingGateAges(c.gate.value, c.epoch, c.lastTime, now, c.sequence, c.operation.value, false);
    case ResultExchange => WorkingGateAges(c.gate.value, c.epoch, c.lastTime, now, c.sequence, c.operation.value, true);
  }

  lemma UnboundGatesAge(c: ClientState, now: U64)
    requires GateFits(c) && !IsBound(c) && PhaseFits(c) && now >= c.lastTime
    ensures GateFits(c.(lastTime := now))
  {
    hide IsConfigured, IsUntouched, IsFreeGate, IsWorkingGate;
  }

  /** All that is known of the gate stays true as time passes. */
  lemma TimePasses(c: ClientState, now: U64)
    requires ClientInv(c) && !IsClosed(c) && now >= c.lastTime
    ensures ClientInv(c.(lastTime := now))
  {
    hide GateFits, ExpectedSum;
    if IsBound(c) { BoundGatesAge(c, now); } else { UnboundGatesAge(c, now); }
  }

  lemma FreeGateAges(c: ClientState, now: U64)
    requires ClientInv(c) && !IsClosed(c) && now >= c.lastTime && c.phase == ReadyToSubmit && c.exchange == Idle
    ensures c.gate.Some? && IsFreeGate(c.gate.value, c.epoch, now)
  {
    TimePasses(c, now);
  }

  lemma AdvanceKeeps(c: ClientState, now: U64)
    requires ClientInv(c)
    ensures ClientInv(Advance(c, now))
    ensures !IsClosed(Advance(c, now)) ==> Advance(c, now) == c.(lastTime := now) && now >= c.lastTime
  {
    hide ClientInv;
    if !IsClosed(c) && now >= c.lastTime { TimePasses(c, now); }
    CloseKeeps(c, ClockRanBack);
  }

  // ---------- Messages ----------

  lemma HelloKeeps(c: ClientState, m: Message)
    requires ClientInv(c) && !IsClosed(c) && c.exchange == HelloExchange
    ensures ClientInv(AcceptHello(c, m, c.lastTime))
    ensures AcceptHello(c, m, c.lastTime).cause != Some(GateRefused)
  {
    hide WithdrawBinding, IsBlockedGate;
    if m.session >= 2 { WithdrawalIsApplied(m.session, c.lastTime); }
  }

  lemma SnapshotKeeps(c: ClientState, m: Message)
    requires ClientInv(c) && !IsClosed(c) && c.exchange == SnapshotExchange && MayReceiveNow(c)
    ensures c.gate.Some? && Callable(c.gate.value)
    ensures ClientInv(AcceptSnapshot(c, m, c.lastTime))
    ensures AcceptSnapshot(c, m, c.lastTime).cause != Some(GateRefused)
  {
    hide BeginRebind, IsPreparingGate;
    if IsFresh(c.queryAt, c.lastTime) && c.queryAt <= MAX_U64 - EVIDENCE_LIFETIME_MS {
      RebindBegins(c.gate.value, c.epoch, c.lastTime, 1, c.queryAt + EVIDENCE_LIFETIME_MS);
    }
  }

  lemma ActivationKeeps(c: ClientState, m: Message)
    requires ClientInv(c) && !IsClosed(c) && c.exchange == ActivationExchange && MayReceiveNow(c)
    ensures c.gate.Some?
    ensures ClientInv(AcceptActivation(c, m, c.lastTime))
    ensures AcceptActivation(c, m, c.lastTime).cause != Some(GateRefused)
  {
    hide ObserveReadiness, CommitRebind, IsPreparingGate, IsFreeGate;
    var expires := c.queryAt + EVIDENCE_LIFETIME_MS;
    if IsFresh(c.queryAt, c.lastTime) {
      var now := c.lastTime;
      OfferIsAccepted(c.gate.value, c.epoch, now, expires, 0, 2);
      var c1 := Offer(c, BindingIdleAndSettled, now);
      OfferIsAccepted(c1.gate.value, c.epoch, now, expires, 1, 3);
      var c2 := Offer(c1, GateTypes.AdapterReady, now);
      OfferIsAccepted(c2.gate.value, c.epoch, now, expires, 2, 4);
      var c3 := Offer(c2, ResultSinkReady, now);
      CommitIsApplied(c3.gate.value, c.epoch, now, expires);
    }
  }

  /** Evidence numbered zero is refused whatever it says. */
  lemma ZeroIsRefused(g: GateState, authority: OperationAuthority, at: U64, kind: NativeEventKind, id: string)
    requires Callable(g)
    ensures ObserveNative(g, NativeEvidence(authority, id, kind, EvidenceRecord(OWNER, at, 0))).1 == Rejected
    ensures ObserveOutputAccepted(g, OutputEvidence(authority, id, EvidenceRecord(SINK, at, 0))).1 == Rejected
    ensures ObserveOutputNotDelivered(g, NonDeliveryEvidence(authority, NoOutputProduced, "",
                                                             EvidenceRecord(OWNER, at, 0))).1 == Rejected
    ensures ObserveSettlement(g, SettlementEvidence(authority, SETTLEMENT, true, EvidenceRecord(OWNER, at, 0))).1
            == Rejected
  {
  }

  /** Closed by the gate, and otherwise where the exchange began. */
  predicate WasRefused(c: ClientState, d: ClientState) {
    && IsClosed(d) && d.cause == Some(GateRefused) && d.nonce == c.nonce && d.pending.None?
    && d.value == c.value && d.operation == c.operation && d.iterations == c.iterations
  }

  lemma AcceptanceKeeps(c: ClientState, m: Message)
    requires ClientInv(c) && !IsClosed(c) && MayReceiveNow(c) && CanHandle(c) && IsAcceptance(c, m)
    ensures CanObserveNative(c)
    ensures var d := ReportNative(c, AcceptedEvent, c.lastTime);
      if c.sequence == MAX_U64 then WasRefused(c, d)
      else ClientInv(d.(exchange := ResultExchange)) && !IsClosed(d)
  {
    hide ObserveNative, IsWorkingGate, NativeId, ExpectedSum;
    if c.sequence == MAX_U64 {
      ZeroIsRefused(c.gate.value, c.operation.value, c.lastTime, AcceptedEvent,
                    NativeId(c.epoch, c.operation.value.operationId));
    } else {
      AcceptanceIsAccepted(c.gate.value, c.epoch, c.lastTime, c.sequence, c.operation.value, c.sequence + 1);
    }
  }

  /** Between a result's records: the same client but for its gate and counter. */
  predicate IsFinishing(c: ClientState, d: ClientState, kind: NativeEventKind, answered: bool) {
    && d == c.(gate := d.gate, sequence := d.sequence) && d.gate.Some? && d.operation.Some? && c.gate.Some?
    && IsEndedGate(d.gate.value, d.epoch, d.lastTime, d.sequence, d.operation.value, kind, answered)
    && d.gate.value.nextOperationId == c.gate.value.nextOperationId
  }

  lemma OutcomeStep(c: ClientState, m: Message)
    requires ClientInv(c) && !IsClosed(c) && MayReceiveNow(c) && IsResult(c, m)
    ensures CanObserveNative(c)
    ensures var d := ReportNative(c, OutcomeFor(m.flags), c.lastTime);
      if c.sequence == MAX_U64 then WasRefused(c, d)
      else IsFinishing(c, d, OutcomeFor(m.flags), false) && d.sequence == c.sequence + 1
  {
    hide ObserveNative, IsWorkingGate, IsEndedGate, NativeId, ExpectedSum;
    InvCanHandle(c);
    var kind := OutcomeFor(m.flags);
    if c.sequence == MAX_U64 {
      ZeroIsRefused(c.gate.value, c.operation.value, c.lastTime, kind,
                    NativeId(c.epoch, c.operation.value.operationId));
    } else {
      OutcomeIsAccepted(c.gate.value, c.epoch, c.lastTime, c.sequence, c.operation.value,
                        c.exchange == ResultExchange, kind, c.sequence + 1);
    }
  }

  lemma OutputStep(c: ClientState, d: ClientState, kind: NativeEventKind)
    requires !IsClosed(c) && c.cause.None? && c.pending.None? && IsFinishing(c, d, kind, false)
    ensures var e := if kind == TerminalSucceeded then ReportDelivered(d, d.lastTime)
            else ReportNoOutput(d, d.lastTime);
      if d.sequence == MAX_U64 then WasRefused(c, e) else IsFinishing(c, e, kind, true) && e.sequence == d.sequence + 1
  {
    hide ObserveOutputAccepted, ObserveOutputNotDelivered, NativeId, CanDeliverResult;
    assert Callable(d.gate.value);
    var g, o := d.gate.value, d.operation.value;
    if d.sequence == MAX_U64 { ZeroIsRefused(g, o, d.lastTime, kind, NativeId(d.epoch, o.operationId)); }
    else if kind == TerminalSucceeded { DeliveryIsAccepted(g, d.epoch, d.lastTime, d.sequence, o, d.sequence + 1); }
    else { NoOutputIsAccepted(g, d.epoch, d.lastTime, d.sequence, o, kind, d.sequence + 1); }
  }

  lemma SettlementStep(c: ClientState, d: ClientState, kind: NativeEventKind)
    requires !IsClosed(c) && c.cause.None? && c.pending.None? && IsFinishing(c, d, kind, true)
    ensures var e := ReportSettled(d, d.lastTime);
      if d.sequence == MAX_U64 then WasRefused(c, e)
      else
        && e == c.(gate := e.gate, sequence := d.sequence + 1) && e.gate.Some?
        && IsFreeGate(e.gate.value, e.epoch, e.lastTime)
        && e.gate.value.nextOperationId == c.gate.value.nextOperationId
  {
    hide ObserveSettlement, NativeId, IsFreeGate;
    assert Callable(d.gate.value);
    var g, o := d.gate.value, d.operation.value;
    if d.sequence == MAX_U64 { ZeroIsRefused(g, o, d.lastTime, kind, ""); }
    else { SettlementIsAccepted(g, d.epoch, d.lastTime, d.sequence, o, kind, d.sequence + 1); }
  }

  lemma ResultKeeps(c: ClientState, m: Message)
    requires ClientInv(c) && !IsClosed(c) && MayReceiveNow(c) && IsResult(c, m)
    ensures CanObserveNative(c)
    ensures var d := AcceptResult(c, m, c.lastTime);
      if c.sequence + 3 > MAX_U64 then WasRefused(c, d) else ClientInv(d) && !IsClosed(d)
  {
    hide ReportNative, ReportDelivered, ReportNoOutput, ReportSettled, IsEndedGate, IsFreeGate, IsWorkingGate,
         ExpectedSum;
    OutcomeStep(c, m);
    var kind := OutcomeFor(m.flags);
    if c.sequence < MAX_U64 {
      var c1 := ReportNative(c, kind, c.lastTime);
      OutputStep(c, c1, kind);
      if c1.sequence < MAX_U64 {
        var c2 := if m.flags == SUCCEEDED then ReportDelivered(c1, c.lastTime) else ReportNoOutput(c1, c.lastTime);
        SettlementStep(c, c2, kind);
      }
    }
  }

  /** How many records of evidence a message about the operation in hand is turned into. */
  function Draws(c: ClientState, m: Message): nat {
    if (c.exchange != AcceptanceExchange && c.exchange != ResultExchange) || c.operation.None?
       || m.session != c.epoch || m.request != c.nonce
       || m.operation != c.operation.value.operationId || m.amount != c.iterations then 0
    else if IsAcceptance(c, m) then 1
    else if IsResult(c, m) then 3
    else 0
  }

  lemma AboutOperationKeeps(c: ClientState, m: Message)
    requires ClientInv(c) && !IsClosed(c) && MayReceiveNow(c)
             && c.exchange in {Idle, AcceptanceExchange, ResultExchange}
    requires m.session == c.epoch && m.request == c.nonce
    ensures CanHandle(c)
    ensures var d := AcceptAboutOperation(c, m, c.lastTime);
      if c.sequence + Draws(c, m) > MAX_U64 then WasRefused(c, d) else ClientInv(d) && d.cause != Some(GateRefused)
  {
    hide ClientInv, ReportNative, AcceptResult, IsAcceptance, IsResult;
    InvCanHandle(c);
    CloseKeeps(c, OutOfPlace);
    OpenHasNoCause(c);
    if IsAcceptance(c, m) {
      AcceptanceKeeps(c, m);
      if c.sequence < MAX_U64 {
        OpenHasNoCause(ReportNative(c, AcceptedEvent, c.lastTime).(exchange := ResultExchange));
      }
    } else if IsResult(c, m) {
      ResultKeeps(c, m);
      if c.sequence + 3 <= MAX_U64 { OpenHasNoCause(AcceptResult(c, m, c.lastTime)); }
    }
    IdleBelievesNothing(c, m);
  }

  lemma IdleBelievesNothing(c: ClientState, m: Message)
    ensures c.exchange == Idle ==> !IsAcceptance(c, m) && !IsResult(c, m)
  {
  }

  lemma OpenHasNoCause(c: ClientState)
    requires ClientInv(c) && !IsClosed(c)
    ensures c.cause.None?
  {
  }

  /**
   Whatever message arrives in whatever exchange, the gate refuses what the client makes of it
   exactly when the evidence counter would run past 64 bits.
   */
  lemma RefusedOnlyWhenRunThrough(c: ClientState, m: Message)
    requires ClientInv(c) && MayReceiveNow(c)
    ensures CanHandle(c)
    ensures Handle(c, m, c.lastTime).cause == Some(GateRefused) <==> c.sequence + Draws(c, m) > MAX_U64
    ensures ClientInv(Handle(c, m, c.lastTime))
  {
    hide AcceptHello, AcceptSnapshot, AcceptActivation, AcceptAboutOperation, GateFits, PendingFits, OperationsFit,
         IsAcceptance, IsResult;
    InvCanHandle(c);
    OpenHasNoCause(c);
    CloseKeeps(c, OutOfPlace);
    if c.exchange == HelloExchange { HelloKeeps(c, m); }
    else if m.session == c.epoch && m.request == c.nonce {
      if c.exchange == SnapshotExchange { SnapshotKeeps(c, m); }
      else if c.exchange == ActivationExchange { ActivationKeeps(c, m); }
      else { AboutOperationKeeps(c, m); }
    }
  }

  // ---------- Calls ----------

  lemma SendPendingKeeps(c: ClientState, send: SendOutcome)
    requires ClientInv(c) && !IsClosed(c)
    ensures ClientInv(SendPending(c, c.lastTime, send))
    ensures var d := SendPending(c, c.lastTime, send); !IsClosed(d) ==> d == c.(pending := d.pending)
  {
    hide IsBlockedGate, IsFreeGate, IsPreparingGate, IsWorkingGate;
    CloseKeeps(c, TooLate);
    CloseKeeps(c, PeerLeft);
  }

  lemma ReceiveKeeps(c: ClientState, receive: ReceiveOutcome)
    requires ClientInv(c) && MayReceiveNow(c)
    ensures CanHandle(c)
    ensures ClientInv(ReceiveNow(c, c.lastTime, receive))
  {
    hide ClientInv, Handle, CanHandle;
    InvCanHandle(c);
    CloseKeeps(c, TooLate);
    CloseKeeps(c, PeerLeft);
    if receive.Got? { RefusedOnlyWhenRunThrough(c, receive.message); }
  }

  lemma PollKeeps(c: ClientState, now: U64, send: SendOutcome, receive: ReceiveOutcome)
    requires ClientInv(c) && CanHandle(c)
    ensures ClientInv(PollClient(c, now, send, receive))
  {
    hide ClientInv, SendPending, ReceiveNow, Advance;
    AdvanceKeeps(c, now);
    var c1 := Advance(c, now);
    if !IsClosed(c1) {
      SendPendingKeeps(c1, send);
      var c2 := SendPending(c1, now, send);
      if MayReceiveNow(c2) { ReceiveKeeps(c2, receive); }
    }
  }

  lemma RecoverKeeps(c: ClientState, now: U64)
    requires ClientInv(c)
    ensures ClientInv(Recover(c, now).0)
    ensures Recover(c, now).1 <==> !IsClosed(c) && now >= c.lastTime && c.phase == Blocked && c.nonce != MAX_U64
  {
    hide Advance, IsBlockedGate;
    AdvanceKeeps(c, now);
    TimeCloses(c, now);
  }

  /**
   A bound client with nothing in hand is admitted and dispatched by its gate: a submission within
   the limit fails only when the clock runs back or the request counter is used up.
   */
  lemma SubmitKeeps(c: ClientState, iterations: U64, now: U64)
    requires ClientInv(c)
    ensures (c.phase == ReadyToSubmit ==> c.gate.Some?) && ClientInv(SubmitWork(c, iterations, now).0)
    ensures SubmitWork(c, iterations, now).1 <==>
      && !IsClosed(c) && now >= c.lastTime && c.phase == ReadyToSubmit && c.exchange == Idle
      && 0 < iterations <= MAXIMUM_ITERATIONS && c.nonce != MAX_U64
  {
    hide Advance, Admit, ClaimDispatch, IsWorkingGate, IsFreeGate, RequestFor, ExpectedSum;
    AdvanceKeeps(c, now);
    TimeCloses(c, now);
    var c1 := Advance(c, now);
    if !IsClosed(c1) && c1.phase == ReadyToSubmit && c1.exchange == Idle {
      SubmissionIsAdmitted(c1.gate.value, c1.epoch, c1, now);
      var (g, d) := Admit(c1.gate.value, RequestFor(c1, now));
      WorkingGateCounts(ClaimDispatch(g, d.authority.value, now).0, c1.epoch, now, d.authority.value, 0, c1.sequence);
    }
  }

  lemma TimeCloses(c: ClientState, now: U64)
    ensures IsClosed(Advance(c, now)) <==> IsClosed(c) || now < c.lastTime
  {
  }

  /** Before any record there is nothing for the counter to be compared with. */
  lemma WorkingGateCounts(g: GateState, epoch: U64, now: U64, operation: OperationAuthority, n: U64, m: U64)
    requires IsWorkingGate(g, epoch, now, n, operation, false)
    ensures IsWorkingGate(g, epoch, now, m, operation, false)
  {
  }

  // ---------- Runs ----------

  datatype ClientCall =
    | PollAt(pollTime: U64, send: SendOutcome, receive: ReceiveOutcome)
    | RecoverAt(recoverTime: U64)
    | SubmitAt(iterations: U64, submitTime: U64)
    | CloseNow

  /** One call more; a closed client answers a poll with nothing. */
  function NextClient(c: ClientState, call: ClientCall): (d: ClientState)
    requires ClientInv(c)
    ensures ClientInv(d)
  {
    match call
    case PollAt(now, send, receive) =>
      if IsClosed(c) then c else InvCanHandle(c); PollKeeps(c, now, send, receive); PollClient(c, now, send, receive)
    case RecoverAt(now) => RecoverKeeps(c, now); Recover(c, now).0
    case SubmitAt(iterations, now) => SubmitKeeps(c, iterations, now); SubmitWork(c, iterations, now).0
    case CloseNow => CloseKeeps(c, ByCaller); CloseClient(c, ByCaller)
  }

  /** A client made at `start`, after some calls, whatever the peer sent. */
  ghost function After(start: U64, calls: seq<ClientCall>): (c: ClientState)
    ensures ClientInv(c)
  {
    if calls == [] then NewClientIsValid(start); NewClient(start)
    else NextClient(After(start, calls[..|calls| - 1]), calls[|calls| - 1])
  }

  /** No gate call of a client is ever refused before it has made more than 2^62 requests. */
  lemma GateNeverRefuses(start: U64, calls: seq<ClientCall>)
    requires After(start, calls).cause == Some(GateRefused)
    ensures After(start, calls).nonce >= 0x4000_0000_0000_0000
  {
    hide After;
  }

  /** The candidate a client recovers with is always the generation of its own session. */
  lemma GenerationIsSession(start: U64, calls: seq<ClientCall>)
    requires var c := After(start, calls);
             !IsClosed(c) && (c.exchange == ActivationExchange || c.phase == ReadyToSubmit)
    ensures var c := After(start, calls);
      c.gate.Some? && var g := c.gate.value;
      if c.phase == ReadyToSubmit then g.config.binding == BindingOf(c.epoch)
      else
        && c.candidate == Some(BindingOf(c.epoch)) && g.candidate.Some?
        && g.candidate.value.binding == BindingOf(c.epoch)
  {
    hide After;
  }

  /** A result a client shows, open or closed, is the sum for the iterations it asked for. */
  lemma ShownResultIsExact(start: U64, calls: seq<ClientCall>)
    requires After(start, calls).value.Some?
    ensures var c := After(start, calls);
      c.operation.Some? && 0 < c.iterations <= MAXIMUM_ITERATIONS && c.value.value == SumTo(c.iterations)
  {
    hide After, ExpectedSum, SumTo, Cubic;
    var c := After(start, calls);
    SupportedSumsDoNotWrap(c.iterations);
  }
}
