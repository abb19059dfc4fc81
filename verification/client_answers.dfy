/**
 What a client makes of each message in each exchange, and when it gives up, in terms of the message, the clock
 and what it asked for.
 */
module ClientAnswers {
  import opened Machine
  import opened Sums
  import opened GateTypes
  import opened GateSpec
  import P = RecoveryProtocol
  import opened RecoveryProtocol
  import opened ClientSpec
  import opened ClientInvariant
  import opened ClientRuns

  /** The client gives up for this reason: for good, with nothing more to send. */
  predicate GivesUp(c: ClientState, d: ClientState, cause: Cause) {
    && d.phase == ClosedPhase && d.pending.None? && d.cause == Some(cause)
    && d.value == c.value && d.operation == c.operation && d.iterations == c.iterations
  }

  /** Less than a second after a moment. */
  predicate IsWithinASecond(start: U64, now: U64) {
    start <= now < start + 1000
  }

  /** The greeting of a session that follows another. */
  predicate Greets(m: Message) {
    m == Reply(P.Hello, m.session, 0) && m.session >= 2
  }

  /**
   A greeting names the session; the client's gate is then withdrawn from the one before it, and anything else
   ends it.
   */
  lemma HelloIsExact(c: ClientState, m: Message)
    requires ClientInv(c) && !IsClosed(c) && c.exchange == HelloExchange
    ensures CanHandle(c)
    ensures var d := Handle(c, m, c.lastTime);
      if Greets(m) then
        && d.phase == Blocked && d.exchange == Idle && d.epoch == m.session && d.pending == c.pending
        && d.gate.Some? && d.gate.value.phase == Withdrawn && d.gate.value.receipt.None?
        && d.gate.value.config.binding == BindingOf(m.session - 1)
      else GivesUp(c, d, OutOfPlace)
  {
    hide WithdrawBinding;
    if m.session >= 2 { WithdrawalIsApplied(m.session, c.lastTime); }
  }

  /** A message is the answer to the request in hand. */
  predicate IsAnswer(c: ClientState, m: Message) {
    m.session == c.epoch && m.request == c.nonce
  }

  predicate IsSnapshot(c: ClientState, m: Message) {
    IsAnswer(c, m) && m == Reply(P.Snapshot, c.epoch, c.nonce).(flags := m.flags) && m.flags <= 1
  }

  /**
   A snapshot that is not clear leaves the client blocked, free to ask again; a clear one makes it prepare the
   binding of
   this session and ask to be activated with the number of its query. Late or out of place, it ends the client.
   */
  lemma SnapshotIsExact(c: ClientState, m: Message)
    requires ClientInv(c) && MayReceiveNow(c) && c.exchange == SnapshotExchange
    ensures CanHandle(c)
    ensures var d := Handle(c, m, c.lastTime);
      if !IsSnapshot(c, m) then GivesUp(c, d, OutOfPlace)
      else if !IsWithinASecond(c.queryAt, c.lastTime) then GivesUp(c, d, TooLate)
      else if m.flags == 0 then d == c.(phase := Blocked, exchange := Idle)
      else if c.queryAt + 1000 > MAX_U64 || c.nonce == MAX_U64 then GivesUp(c, d, Exhausted)
      else
        && d.phase == Recovering && d.exchange == ActivationExchange && d.token == c.nonce
        && d.candidate == Some(BindingOf(c.epoch)) && d.gate.Some? && d.gate.value.phase == Preparing
        && d.gate.value.candidate.Some? && d.gate.value.candidate.value.binding == BindingOf(c.epoch)
        && d.pending == Some(Reply(P.Activate, c.epoch, c.nonce + 1).(value := c.nonce)) && d.nonce == c.nonce + 1
  {
    hide BeginRebind, IsPreparingGate;
    if IsFresh(c.queryAt, c.lastTime) && c.queryAt <= MAX_U64 - EVIDENCE_LIFETIME_MS {
      RebindBegins(c.gate.value, c.epoch, c.lastTime, 1, c.queryAt + EVIDENCE_LIFETIME_MS);
      PreparingMeans(BeginRebindOf(c), c.epoch, c.lastTime, c.queryAt + EVIDENCE_LIFETIME_MS);
    }
  }

  /** The gate after the rebind of a recovery was begun. */
  function BeginRebindOf(c: ClientState): GateState
    requires c.gate.Some? && (c.gate.value.phase == Withdrawn ==> c.gate.value.withdrawnAt.Some?)
    requires c.queryAt <= MAX_U64 - EVIDENCE_LIFETIME_MS
  {
    var g := c.gate.value;
    BeginRebind(g, g.config.binding, OWNER,
                Closure(g, EvidenceRecord(OWNER, c.lastTime, NextSequence(c)), c.queryAt + EVIDENCE_LIFETIME_MS),
                c.lastTime).0
  }

  lemma PreparingMeans(g: GateState, epoch: U64, now: U64, expires: U64)
    requires IsPreparingGate(g, epoch, now, expires, 0)
    ensures g.phase == Preparing && g.candidate.Some? && g.candidate.value.binding == BindingOf(epoch)
  {
  }

  /** Being activated with the number of the query, within a second of it, binds the client to its session. */
  lemma ActivationIsExact(c: ClientState, m: Message)
    requires ClientInv(c) && MayReceiveNow(c) && c.exchange == ActivationExchange
    ensures CanHandle(c)
    ensures var d := Handle(c, m, c.lastTime);
      if m != Reply(P.Activated, c.epoch, c.nonce).(value := c.token) then GivesUp(c, d, OutOfPlace)
      else if !IsWithinASecond(c.queryAt, c.lastTime) then GivesUp(c, d, TooLate)
      else
        && d.phase == ReadyToSubmit && d.exchange == Idle && d.pending.None? && d.operation.None? && d.value.None?
        && d.gate.Some? && d.gate.value.phase == Active && d.gate.value.initialization == Ready
        && d.gate.value.config.binding == BindingOf(c.epoch) && d.gate.value.receipt.None?
  {
    hide ObserveReadiness, CommitRebind, IsPreparingGate, IsFreeGate;
    InvCanHandle(c);
    var expires := c.queryAt + EVIDENCE_LIFETIME_MS;
    if IsFresh(c.queryAt, c.lastTime) {
      var now := c.lastTime;
      OfferIsAccepted(c.gate.value, c.epoch, now, expires, 0, 2);
      var c1 := Offer(c, BindingIdleAndSettled, now);
      OfferIsAccepted(c1.gate.value, c.epoch, now, expires, 1, 3);
      var c2 := Offer(c1, GateTypes.AdapterReady, now);
      OfferIsAccepted(c2.gate.value, c.epoch, now, expires, 2, 4);
      var c3 := Offer(c2, ResultSinkReady, now);
      CommitIsApplied(c3.gate.value, c.epoch, now, expires);
      FreeMeans(CommitRebind(c3.gate.value, BindingOf(c.epoch), now).0, c.epoch, now);
    }
  }

  lemma FreeMeans(g: GateState, epoch: U64, now: U64)
    requires IsFreeGate(g, epoch, now)
    ensures g.phase == Active && g.initialization == Ready && g.config.binding == BindingOf(epoch)
    ensures g.receipt.Some? ==> g.receipt.value.disposition == Released
  {
    hide IsReady;
  }

  /** The operation in hand was taken on by the owner. */
  predicate TellsAcceptance(c: ClientState, m: Message) {
    && c.exchange == AcceptanceExchange && c.operation.Some?
    && m == Message(P.Accepted, c.epoch, c.nonce, c.operation.value.operationId, c.iterations, 0, 0)
  }

  /**
   What came of the operation in hand: it was not launched, or once accepted it succeeded, failed or was
   cancelled.
   */
  predicate TellsResult(c: ClientState, m: Message) {
    && c.operation.Some?
    && m == Message(P.Result, c.epoch, c.nonce, c.operation.value.operationId, c.iterations, m.value, m.flags)
    && (if c.exchange == AcceptanceExchange then m.flags == 4
        else c.exchange == ResultExchange && (m.flags == 1 || m.flags == 2 || m.flags == 3))
    && m.value == (if m.flags == 1 then SumTo(c.iterations) else 0)
  }

  lemma ResultsAreTold(c: ClientState, m: Message)
    requires ClientInv(c) && !IsClosed(c) && IsAnswer(c, m) && c.operation.Some?
    requires m.operation == c.operation.value.operationId && m.amount == c.iterations
    ensures IsAcceptance(c, m) <==> TellsAcceptance(c, m)
    ensures IsResult(c, m) <==> TellsResult(c, m)
  {
    hide ClientInv, ExpectedSum, SumTo;
    OperationIsWithin(c);
    SupportedSumsDoNotWrap(c.iterations);
  }

  lemma OperationIsWithin(c: ClientState)
    requires ClientInv(c) && !IsClosed(c) && c.operation.Some?
    ensures c.iterations <= MAXIMUM_ITERATIONS
  {
    hide PendingFits, ExpectedSum, IsFreeGate, IsWorkingGate;
  }

  /** The number of records left to the client. */
  predicate HasRecords(c: ClientState, n: nat) {
    c.sequence + n <= MAX_U64
  }

  lemma AcceptanceIsExact(c: ClientState, m: Message)
    requires ClientInv(c) && MayReceiveNow(c) && TellsAcceptance(c, m)
    ensures CanHandle(c)
    ensures var d := Handle(c, m, c.lastTime);
      if HasRecords(c, 1) then
        && d.exchange == ResultExchange && d.phase == ReadyToSubmit && d.operation == c.operation && d.value == c.value
        && d.gate.Some? && d.gate.value.receipt.Some? && d.gate.value.receipt.value.native.accepted.Some?
      else GivesUp(c, d, GateRefused)
  {
    hide ReportNative, ExpectedSum, IsBoundGate, NativeId;
    InvCanHandle(c);
    ResultsAreTold(c, m);
    AcceptanceKeeps(c, m);
    NativeChangesGate(c, AcceptedEvent);
  }

  /** A record changes only the gate and the counter, and closes the client where it is refused. */
  lemma NativeChangesGate(c: ClientState, kind: NativeEventKind)
    requires CanObserveNative(c)
    ensures var d := ReportNative(c, kind, c.lastTime);
      !IsClosed(d) ==> d == c.(gate := d.gate, sequence := d.sequence)
  {
    hide ObserveNative, NativeId;
  }

  /** The native facts of the receipt say just this end. */
  predicate SaysEnd(n: NativeFacts, flags: U64) {
    && (n.succeeded.Some? <==> flags == 1) && (n.failed.Some? <==> flags == 2) && (n.cancelled.Some? <==> flags == 3)
    && (n.rejected.Some? <==> flags == 4)
  }

  /**
   The result shows its value if and only if it tells success, and the sum; the receipt then says how the operation
   ended, and is released, so that the next may be submitted.
   */
  lemma ResultIsExact(c: ClientState, m: Message)
    requires ClientInv(c) && MayReceiveNow(c) && TellsResult(c, m)
    ensures CanHandle(c)
    ensures var d := Handle(c, m, c.lastTime);
      if HasRecords(c, 3) then
        && d.exchange == Idle && d.phase == ReadyToSubmit && d.operation == c.operation
        && d.value == (if m.flags == 1 then Some(SumTo(c.iterations)) else None)
        && d.gate.Some? && d.gate.value.receipt.Some? && d.gate.value.receipt.value.disposition == Released
        && d.gate.value.receipt.value.authority == c.operation.value
        && SaysEnd(d.gate.value.receipt.value.native, m.flags)
      else GivesUp(c, d, GateRefused)
  {
    hide ReportNative, ReportDelivered, ReportNoOutput, ReportSettled, IsEndedGate, IsFreeGate, IsWorkingGate,
         ExpectedSum,
         SumTo, SaysEnd;
    InvCanHandle(c);
    ResultsAreTold(c, m);
    ResultKeeps(c, m);
    ShowsNothingYet(c);
    OutcomeStep(c, m);
    var kind := OutcomeFor(m.flags);
    if HasRecords(c, 3) {
      var c1 := ReportNative(c, kind, c.lastTime);
      OutputStep(c, c1, kind);
      var c2 := if m.flags == SUCCEEDED then ReportDelivered(c1, c.lastTime) else ReportNoOutput(c1, c.lastTime);
      SettlementStep(c, c2, kind);
      SettlingKeepsEnd(c2, m.flags);
      var c3 := ReportSettled(c2, c.lastTime);
      FreeMeans(c3.gate.value, c3.epoch, c3.lastTime);
    }
  }

  lemma ShowsNothingYet(c: ClientState)
    requires ClientInv(c) && !IsClosed(c) && c.exchange != Idle
    ensures c.value.None?
  {
    hide PendingFits, ExpectedSum, IsFreeGate, IsWorkingGate;
  }

  lemma SettlingKeepsEnd(c: ClientState, flags: U64)
    requires c.gate.Some? && c.operation.Some? && flags in {1, 2, 3, 4}
    requires IsEndedGate(c.gate.value, c.epoch, c.lastTime, c.sequence, c.operation.value, OutcomeFor(flags), true)
    ensures var d := ReportSettled(c, c.lastTime);
      && d.gate.Some? && d.gate.value.receipt.Some? && SaysEnd(d.gate.value.receipt.value.native, flags)
      && d.gate.value.receipt.value.authority == c.operation.value
  {
    hide IsBoundGate, NativeId, IsWellFormed, LatestEffectTime, FollowsSameSource, HasResolvedEffects, DispositionOf;
  }

  /** Anything else about an operation ends the client. */
  lemma NothingElseIsBelieved(c: ClientState, m: Message)
    requires ClientInv(c) && MayReceiveNow(c) && c.exchange in {Idle, AcceptanceExchange, ResultExchange}
    requires !TellsAcceptance(c, m) && !TellsResult(c, m)
    ensures CanHandle(c) && GivesUp(c, Handle(c, m, c.lastTime), OutOfPlace)
  {
    hide ReportNative, AcceptResult, ExpectedSum, SumTo, TellsAcceptance, TellsResult, IsAcceptance, IsResult,
         GateFits, PendingFits;
    InvCanHandle(c);
    if c.operation.Some? && IsAnswer(c, m) && m.operation == c.operation.value.operationId && m.amount == c.iterations {
      ResultsAreTold(c, m);
    }
  }

  // ---------- Polls ----------

  /**
   A poll ends a client whose clock runs back, whose request could not be sent within a second, or whose answer,
   where it
   waits for one, did not come within a second; and one whose peer is gone.
   */
  lemma PollGivesUp(c: ClientState, now: U64, send: SendOutcome, receive: ReceiveOutcome)
    requires ClientInv(c) && !IsClosed(c)
    ensures CanHandle(c)
    ensures var d := PollClient(c, now, send, receive);
      var waits := c.exchange != Idle && c.exchange != ResultExchange;
      if now < c.lastTime then GivesUp(c, d, ClockRanBack)
      else if c.pending.Some? && !IsWithinASecond(c.queuedAt, now) then GivesUp(c, d, TooLate)
      else if c.pending.Some? && send == PeerClosed then GivesUp(c, d, PeerLeft)
      else if c.pending.Some? && send == Again then d == c.(lastTime := now)
      else if waits && !IsWithinASecond(c.issuedAt, now) then GivesUp(c, d, TooLate)
      else
        match receive
        case NothingThere => d == c.(lastTime := now, pending := None)
        case NoPeer => GivesUp(c, d, PeerLeft)
        case Got(m) => d == Handle(c.(lastTime := now, pending := None), m, now)
  {
    hide Handle, GateFits, PendingFits, OperationsFit, CountsFit, ValueFits;
    PollCanHandle(c);
  }

  lemma PollCanHandle(c: ClientState)
    requires ClientInv(c) && !IsClosed(c)
    ensures CanHandle(c)
  {
    InvCanHandle(c);
  }

  /** Recovering asks for a snapshot, at a time it is then measured against. */
  lemma RecoveryIsExact(c: ClientState, now: U64)
    requires ClientInv(c) && !IsClosed(c) && now >= c.lastTime && c.phase == Blocked && c.nonce < MAX_U64
    ensures var (d, asked) := ClientSpec.Recover(c, now);
      && asked && d.phase == Recovering && d.exchange == SnapshotExchange && d.queryAt == now && d.issuedAt == now
      && d.pending == Some(Reply(P.Query, c.epoch, c.nonce + 1)) && d.nonce == c.nonce + 1 && d.gate == c.gate
  {
    hide GateFits, OperationsFit, ExpectedSum;
    IdleSendsNothing(c);
  }

  lemma IdleSendsNothing(c: ClientState)
    requires ClientInv(c) && !IsClosed(c) && (c.phase == Blocked || c.exchange == Idle)
    ensures c.exchange == Idle && c.pending.None?
  {
    hide GateFits, OperationsFit, ExpectedSum;
  }

  /** A submission asks for just the iterations given, as the operation its gate dispatched. */
  lemma SubmissionIsExact(c: ClientState, iterations: U64, now: U64)
    requires ClientInv(c) && (c.phase == ReadyToSubmit ==> c.gate.Some?) && SubmitWork(c, iterations, now).1
    ensures var d := SubmitWork(c, iterations, now).0;
      && d.exchange == AcceptanceExchange && d.iterations == iterations && d.value.None? && d.operation.Some?
      && d.gate.Some? && d.gate.value.receipt.Some? && d.gate.value.receipt.value.authority == d.operation.value
      && d.gate.value.receipt.value.dispatch.status == Submitted
      && d.pending == Some(Message(P.Submit, c.epoch, c.nonce + 1, d.operation.value.operationId, iterations, 0, 0))
  {
    hide Admit, ClaimDispatch, IsWorkingGate, RequestFor, ExpectedSum, LatestTime;
    SubmitKeeps(c, iterations, now);
    FreeGateAges(c, now);
    var c1 := Advance(c, now);
    SubmissionIsAdmitted(c1.gate.value, c1.epoch, c1, now);
    var (g, d) := Admit(c1.gate.value, RequestFor(c1, now));
    WorkingMeans(ClaimDispatch(g, d.authority.value, now).0, c1.epoch, now, d.authority.value);
  }

  lemma WorkingMeans(g: GateState, epoch: U64, now: U64, operation: OperationAuthority)
    requires IsWorkingGate(g, epoch, now, 0, operation, false)
    ensures g.receipt.Some? && g.receipt.value.authority == operation && g.receipt.value.dispatch.status == Submitted
  {
    hide IsBoundGate;
  }
}
