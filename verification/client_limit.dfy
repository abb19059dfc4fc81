/**
 The end of a client's evidence counter is really reached: a peer that keeps to the protocol brings a client
 there, one operation after another, and then the gate refuses a proper result.
 */
module ClientLimit {
  import opened Machine
  import opened Sums
  import opened GateTypes
  import opened GateSpec
  import P = RecoveryProtocol
  import opened RecoveryProtocol
  import opened ClientSpec
  import opened ClientInvariant
  import opened ClientRuns

  lemma OneCallMore(start: U64, calls: seq<ClientCall>, call: ClientCall)
    ensures After(start, calls + [call]) == NextClient(After(start, calls), call)
  {
    hide ClientInv, NextClient;
    assert (calls + [call])[..|calls|] == calls;
  }

  lemma InvAfter(start: U64, calls: seq<ClientCall>)
    ensures ClientInv(After(start, calls))
  {
    hide ClientInv;
  }

  // ---------- One answer ----------

  /** A poll that sends what is pending, if anything is, and is given a message. */
  function Answered(m: Message): ClientCall {
    PollAt(0, Done, Got(m))
  }

  /** The client as it takes up an answer. */
  function Ready(c: ClientState): ClientState {
    c.(pending := None)
  }

  /** Everything happens at time zero, so nothing is ever late. */
  predicate IsPrompt(c: ClientState) {
    !IsClosed(c) && c.lastTime == 0 && c.queuedAt == 0 && c.issuedAt == 0 && c.queryAt == 0
  }

  lemma AnswerIsHandled(c: ClientState, m: Message)
    requires ClientInv(c) && IsPrompt(c)
    ensures ClientInv(Ready(c)) && CanHandle(Ready(c)) && NextClient(c, Answered(m)) == Handle(Ready(c), m, 0)
  {
    hide ClientInv, Handle;
    InvCanHandle(c);
    AdvanceKeeps(c, 0);
    SendPendingKeeps(c, Done);
    if c.pending.None? { assert Ready(c) == c; }
    InvCanHandle(Ready(c));
  }

  // ---------- The first recovery ----------

  predicate Matches(c: ClientState, phase: Phase, exchange: Exchange, epoch: U64, nonce: U64, sequence: U64) {
    && IsPrompt(c) && c.phase == phase && c.exchange == exchange && c.epoch == epoch && c.nonce == nonce
    && c.sequence == sequence
  }

  lemma HelloIsTaken(c: ClientState)
    requires ClientInv(c) && Matches(c, Connecting, HelloExchange, 0, 0, 0)
    ensures Matches(NextClient(c, Answered(Reply(P.Hello, 2, 0))), Blocked, ClientSpec.Idle, 2, 0, 0)
    ensures NextClient(c, Answered(Reply(P.Hello, 2, 0))).pending.None?
  {
    hide WithdrawBinding, ClientInv, NextClient;
    AnswerIsHandled(c, Reply(P.Hello, 2, 0));
    WithdrawalIsApplied(2, 0);
  }

  lemma RecoveryIsAsked(c: ClientState)
    requires ClientInv(c) && Matches(c, Blocked, ClientSpec.Idle, 2, 0, 0) && c.pending.None?
    ensures Matches(NextClient(c, RecoverAt(0)), Recovering, SnapshotExchange, 2, 1, 0)
  {
    hide ClientInv;
  }

  lemma SnapshotIsTaken(c: ClientState)
    requires ClientInv(c) && Matches(c, Recovering, SnapshotExchange, 2, 1, 0)
    ensures var d := NextClient(c, Answered(Reply(P.Snapshot, 2, 1).(flags := CLEAR)));
      Matches(d, Recovering, ActivationExchange, 2, 2, 1) && d.token == 1
  {
    hide NextClient, BeginRebind, IsPreparingGate;
    var m := Reply(P.Snapshot, 2, 1).(flags := CLEAR);
    AnswerIsHandled(c, m);
    RebindBegins(c.gate.value, 2, 0, 1, EVIDENCE_LIFETIME_MS);
  }

  /** An offer that does not close the client counts one record. */
  lemma OfferCounts(c: ClientState, kind: StartupEvidenceKind)
    requires c.gate.Some? && c.candidate.Some? && c.queryAt <= MAX_U64 - EVIDENCE_LIFETIME_MS && c.sequence < MAX_U64
    requires !IsClosed(c)
    ensures var d := Offer(c, kind, 0);
      && d.gate.Some? && d.sequence == c.sequence + 1
      && (IsClosed(d) || d == c.(gate := d.gate, sequence := c.sequence + 1))
      && (IsClosed(d) && c.cause.None? ==> d.cause == Some(GateRefused))
  {
    hide ObserveReadiness;
  }

  lemma CommitCounts(c: ClientState)
    requires c.gate.Some? && c.candidate.Some?
    ensures var d := CommitRecovery(c, 0);
      && (IsClosed(d) || d == c.(gate := d.gate, phase := ReadyToSubmit, exchange := ClientSpec.Idle))
      && (IsClosed(d) && c.cause.None? ==> d.cause == Some(GateRefused))
  {
    hide CommitRebind;
  }

  lemma ActivationCounts(c: ClientState)
    requires c.gate.Some? && c.candidate.Some? && IsPrompt(c) && c.sequence == 1 && c.cause.None?
    ensures var d := AcceptActivation(c, Reply(P.Activated, 2, 2).(value := c.token), 0);
      d.cause == Some(GateRefused) || d == c.(gate := d.gate, sequence := 4, phase := ReadyToSubmit,
                                              exchange := ClientSpec.Idle)
  {
    hide Offer, CommitRecovery;
    OfferCounts(c, BindingIdleAndSettled);
    var c1 := Offer(c, BindingIdleAndSettled, 0);
    if !IsClosed(c1) {
      OfferCounts(c1, GateTypes.AdapterReady);
      var c2 := Offer(c1, GateTypes.AdapterReady, 0);
      if !IsClosed(c2) {
        OfferCounts(c2, ResultSinkReady);
        var c3 := Offer(c2, ResultSinkReady, 0);
        if !IsClosed(c3) { CommitCounts(c3); }
      }
    }
  }

  lemma ActivatingHasCandidate(c: ClientState)
    requires ClientInv(c) && !IsClosed(c) && c.exchange == ActivationExchange
    ensures c.gate.Some? && c.candidate.Some? && c.cause.None?
  {
    hide IsPreparingGate;
  }

  lemma ActivationIsTaken(c: ClientState)
    requires ClientInv(c) && Matches(c, Recovering, ActivationExchange, 2, 2, 1) && c.token == 1
    ensures var d := NextClient(c, Answered(Reply(P.Activated, 2, 2).(value := 1)));
      Matches(d, ReadyToSubmit, ClientSpec.Idle, 2, 2, 4) && d.pending.None?
  {
    hide ClientInv, NextClient, AcceptActivation;
    var m := Reply(P.Activated, 2, 2).(value := 1);
    AnswerIsHandled(c, m);
    ActivatingHasCandidate(Ready(c));
    ActivationKeeps(Ready(c), m);
    ActivationCounts(Ready(c));
  }

  /** Bound, free and with `k` operations behind it. */
  predicate IsFreeAfter(c: ClientState, k: nat) {
    k + 2 <= MAX_U64 && 4 * k + 4 <= MAX_U64 && Matches(c, ReadyToSubmit, ClientSpec.Idle, 2, k + 2, 4 * k + 4)
      && c.pending.None?
  }

  lemma FirstRecovery() returns (calls: seq<ClientCall>)
    ensures IsFreeAfter(After(0, calls), 0)
  {
    hide ClientInv, NextClient, After;
    calls := [];
    StartsConnecting();
    InvAfter(0, calls);
    HelloIsTaken(After(0, calls));
    OneCallMore(0, calls, Answered(Reply(P.Hello, 2, 0)));
    calls := calls + [Answered(Reply(P.Hello, 2, 0))];
    InvAfter(0, calls);
    RecoveryIsAsked(After(0, calls));
    OneCallMore(0, calls, RecoverAt(0));
    calls := calls + [RecoverAt(0)];
    InvAfter(0, calls);
    SnapshotIsTaken(After(0, calls));
    OneCallMore(0, calls, Answered(Reply(P.Snapshot, 2, 1).(flags := CLEAR)));
    calls := calls + [Answered(Reply(P.Snapshot, 2, 1).(flags := CLEAR))];
    InvAfter(0, calls);
    ActivationIsTaken(After(0, calls));
    OneCallMore(0, calls, Answered(Reply(P.Activated, 2, 2).(value := 1)));
    calls := calls + [Answered(Reply(P.Activated, 2, 2).(value := 1))];
  }

  lemma StartsConnecting()
    ensures Matches(After(0, []), Connecting, HelloExchange, 0, 0, 0)
  {
    hide ClientInv, NextClient;
  }

  // ---------- One operation ----------

  /** The client with an operation of one iteration in hand. */
  predicate IsWorking(c: ClientState, exchange: Exchange, nonce: U64, sequence: U64) {
    Matches(c, ReadyToSubmit, exchange, 2, nonce, sequence) && c.operation.Some? && c.iterations == 1
  }

  lemma SubmissionIsMade(c: ClientState)
    requires ClientInv(c) && !IsClosed(c) && IsPrompt(c) && c.phase == ReadyToSubmit && c.exchange == ClientSpec.Idle
    requires c.pending.None? && c.nonce < MAX_U64 && c.epoch == 2
    ensures IsWorking(NextClient(c, SubmitAt(1, 0)), AcceptanceExchange, c.nonce + 1, c.sequence)
  {
    hide ClientInv, Admit, ClaimDispatch, RequestFor;
    SubmitKeeps(c, 1, 0);
  }

  function AcceptanceFor(c: ClientState): Message
    requires c.operation.Some?
  {
    Reply(P.Accepted, c.epoch, c.nonce).(operation := c.operation.value.operationId, amount := c.iterations)
  }

  function ResultFor(c: ClientState): Message
    requires c.operation.Some?
  {
    Reply(P.Result, c.epoch, c.nonce).(operation := c.operation.value.operationId, amount := c.iterations,
                                      flags := SUCCEEDED, value := ExpectedSum(c.iterations))
  }

  lemma AcceptanceCounts(c: ClientState)
    requires CanObserveNative(c) && c.sequence < MAX_U64
    ensures var d := ReportNative(c, AcceptedEvent, 0);
      IsClosed(d) || d == c.(gate := d.gate, sequence := c.sequence + 1)
  {
    hide ObserveNative, NativeId;
  }

  lemma AcceptanceIsTaken(c: ClientState)
    requires ClientInv(c) && IsWorking(c, AcceptanceExchange, c.nonce, c.sequence) && c.sequence < MAX_U64
    ensures var d := NextClient(c, Answered(AcceptanceFor(c)));
      IsWorking(d, ResultExchange, c.nonce, c.sequence + 1) && d.pending.None?
  {
    hide ClientInv, NextClient, ReportNative;
    var m := AcceptanceFor(c);
    AnswerIsHandled(c, m);
    AcceptanceKeeps(Ready(c), m);
    AcceptanceCounts(Ready(c));
  }

  lemma RecordCounts(c: ClientState, kind: NativeEventKind)
    requires CanObserveNative(c) && c.sequence < MAX_U64
    ensures var d := ReportNative(c, kind, 0); IsClosed(d) || d == c.(gate := d.gate, sequence := c.sequence + 1)
    ensures var d := ReportDelivered(c, 0); IsClosed(d) || d == c.(gate := d.gate, sequence := c.sequence + 1)
    ensures var d := ReportSettled(c, 0); IsClosed(d) || d == c.(gate := d.gate, sequence := c.sequence + 1)
  {
    hide ObserveNative, NativeId, ObserveOutputAccepted, ObserveSettlement, CanDeliverResult;
  }

  lemma RecordsKeepGate(c: ClientState, kind: NativeEventKind)
    requires CanObserveNative(c)
    ensures ReportNative(c, kind, 0).gate.Some? && ReportNative(c, kind, 0).operation.Some?
    ensures ReportDelivered(c, 0).gate.Some? && ReportDelivered(c, 0).operation.Some?
  {
    hide ObserveNative, NativeId, ObserveOutputAccepted, CanDeliverResult;
  }

  lemma DeliveryCounts(c: ClientState)
    requires c.gate.Some? && c.operation.Some? && c.sequence < MAX_U64
    ensures var d := ReportDelivered(c, 0);
      && (IsClosed(d) || d == c.(gate := d.gate, sequence := c.sequence + 1)) && d.gate.Some? && d.operation.Some?
    ensures var d := ReportSettled(c, 0); IsClosed(d) || d == c.(gate := d.gate, sequence := c.sequence + 1)
  {
    hide NativeId, ObserveOutputAccepted, ObserveSettlement, CanDeliverResult;
  }

  lemma ResultCounts(c: ClientState, m: Message)
    requires CanObserveNative(c) && c.sequence + 3 <= MAX_U64 && m.flags == SUCCEEDED && !IsClosed(c)
    ensures var d := AcceptResult(c, m, 0);
      IsClosed(d) || d == c.(gate := d.gate, sequence := c.sequence + 3, value := Some(m.value),
                             exchange := ClientSpec.Idle)
  {
    hide ReportNative, ReportDelivered, ReportSettled;
    RecordCounts(c, TerminalSucceeded);
    RecordsKeepGate(c, TerminalSucceeded);
    var c1 := ReportNative(c, TerminalSucceeded, 0);
    if !IsClosed(c1) {
      DeliveryCounts(c1);
      var c2 := ReportDelivered(c1, 0);
      if !IsClosed(c2) { DeliveryCounts(c2); }
    }
  }

  lemma ResultIsTaken(c: ClientState)
    requires ClientInv(c) && IsWorking(c, ResultExchange, c.nonce, c.sequence) && c.pending.None?
             && c.sequence + 3 <= MAX_U64
    ensures var d := NextClient(c, Answered(ResultFor(c)));
      Matches(d, ReadyToSubmit, ClientSpec.Idle, 2, c.nonce, c.sequence + 3) && d.pending.None?
  {
    hide ClientInv, NextClient, AcceptResult, ExpectedSum;
    var m := ResultFor(c);
    AnswerIsHandled(c, m);
    assert Ready(c) == c;
    ResultKeeps(c, m);
    ResultCounts(c, m);
  }

  /** The calls of one operation, up to its result. */
  lemma Work(calls: seq<ClientCall>, k: nat) returns (more: seq<ClientCall>)
    requires IsFreeAfter(After(0, calls), k) && 4 * k + 5 <= MAX_U64
    ensures var c := After(0, more); IsWorking(c, ResultExchange, k + 3, 4 * k + 5) && c.pending.None?
  {
    hide ClientInv, NextClient, After;
    var c := After(0, calls);
    InvAfter(0, calls);
    SubmissionIsMade(c);
    OneCallMore(0, calls, SubmitAt(1, 0));
    more := calls + [SubmitAt(1, 0)];
    var d := After(0, more);
    InvAfter(0, more);
    AcceptanceIsTaken(d);
    OneCallMore(0, more, Answered(AcceptanceFor(d)));
    more := more + [Answered(AcceptanceFor(d))];
  }

  /** For every number of operations there is a run that has just finished so many. */
  lemma {:induction false} ManyOperations(k: nat) returns (calls: seq<ClientCall>)
    requires 4 * k + 4 <= MAX_U64
    ensures IsFreeAfter(After(0, calls), k)
  {
    hide ClientInv, NextClient, After, IsWorking;
    if k == 0 {
      calls := FirstRecovery();
    } else {
      var before := ManyOperations(k - 1);
      calls := Work(before, k - 1);
      calls := Finish(calls, k - 1);
    }
  }

  lemma Finish(calls: seq<ClientCall>, k: nat) returns (more: seq<ClientCall>)
    requires 4 * k + 8 <= MAX_U64
    requires var c := After(0, calls); IsWorking(c, ResultExchange, k + 3, 4 * k + 5) && c.pending.None?
    ensures IsFreeAfter(After(0, more), k + 1)
  {
    hide ClientInv, NextClient, After;
    var c := After(0, calls);
    InvAfter(0, calls);
    ResultIsTaken(c);
    OneCallMore(0, calls, Answered(ResultFor(c)));
    more := calls + [Answered(ResultFor(c))];
  }

  /**
   The promise that the gate never refuses a client fails at the end of the counter, and there is a run that
   gets there: after 2^62 - 2 operations the next result, though proper, is refused.
   */
  lemma GateRefusesInTheEnd() returns (calls: seq<ClientCall>)
    ensures After(0, calls).cause == Some(GateRefused)
  {
    hide ClientInv, NextClient, After, Handle;
    var k := 0x3FFF_FFFF_FFFF_FFFE;
    calls := ManyOperations(k);
    calls := Work(calls, k);
    var c := After(0, calls);
    InvAfter(0, calls);
    var m := ResultFor(c);
    AnswerIsHandled(c, m);
    assert Ready(c) == c;
    ResultDrawsThree(c);
    RefusedOnlyWhenRunThrough(c, m);
    OneCallMore(0, calls, Answered(m));
    calls := calls + [Answered(m)];
  }

  lemma ResultDrawsThree(c: ClientState)
    requires c.exchange == ResultExchange && c.operation.Some?
    ensures Draws(c, ResultFor(c)) == 3
  {
    hide ExpectedSum;
  }
}
