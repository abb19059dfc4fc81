/** The recovery client: fields updated in place around a real gate, refining ClientSpec call by call. */
module RecoveryClient {
  import opened Machine
  import opened Sums
  import opened GateTypes
  import GS = GateSpec
  import opened AuthorityGates
  import P = RecoveryProtocol
  import opened RecoveryProtocol
  import S = ClientSpec
  import opened ClientSpec
  import CR = ClientRuns
  import GI = GateInvariant

  class Client {
    var phase: Phase
    var exchange: Exchange
    var lastTime: U64
    var issuedAt: U64
    var queuedAt: U64
    var queryAt: U64
    var epoch: U64
    var nonce: U64
    var token: U64
    var sequence: U64
    var iterations: U64
    var gate: AuthorityGate?
    var candidate: Option<BindingIdentity>
    var operation: Option<OperationAuthority>
    var pending: Option<Message>
    var value: Option<U64>
    ghost var cause: Option<Cause>

    ghost function Repr(): set<object>
      reads this
    {
      if gate == null then {this} else {this, gate}
    }

    ghost function GateState(): Option<GS.GateState>
      reads Repr()
    {
      if gate == null then None else Some(gate.State())
    }

    ghost function State(): ClientState
      reads Repr()
    {
      ClientState(phase, exchange, lastTime, issuedAt, queuedAt, queryAt, epoch, nonce, token, sequence, iterations,
                  GateState(), candidate, operation, pending, value, cause)
    }

    /** The gate is a gate. */
    ghost predicate Sound()
      reads Repr()
    {
      gate != null ==> gate.Valid()
    }

    ghost predicate Valid()
      reads Repr()
    {
      Sound() && CR.ClientInv(State())
    }

    constructor (now: U64)
      ensures Valid() && fresh(Repr()) && State() == NewClient(now)
    {
      phase, exchange, lastTime, issuedAt, queuedAt, queryAt := Connecting, HelloExchange, now, now, 0, 0;
      epoch, nonce, token, sequence, iterations := 0, 0, 0, 0, 0;
      gate, candidate, operation, pending, value, cause := null, None, None, None, None, None;
      new;
      CR.NewClientIsValid(now);
    }

    method Shut(ghost why: Cause)
      requires Sound()
      modifies `phase, `pending, `cause, gate
      ensures Sound() && State() == CloseClient(old(State()), why)
    {
      phase := ClosedPhase;
      if gate != null { gate.CloseAdmission(); }
      pending := None;
      cause := if cause.Some? then cause else Some(why);
    }

    /** A clock that runs backwards closes the client. */
    method Time(now: U64) returns (open: bool)
      requires Sound()
      modifies `phase, `pending, `cause, `lastTime, gate
      ensures Sound() && State() == Advance(old(State()), now) && open == !IsClosed(State())
    {
      if phase == ClosedPhase { return false; }
      if now < lastTime {
        Shut(ClockRanBack);
        return false;
      }
      lastTime := now;
      return true;
    }

    method Queue(m: Message, now: U64) returns (queued: bool)
      requires Sound()
      modifies `phase, `pending, `cause, `nonce, `queuedAt, `issuedAt, gate
      ensures Sound() && State() == QueueMessage(old(State()), m, now)
      ensures !IsClosed(old(State())) ==> queued == !IsClosed(State())
    {
      if pending.Some? || nonce == MAX_U64 {
        Shut(Exhausted);
        return false;
      }
      nonce := nonce + 1;
      pending := Some(m.(session := epoch, request := nonce));
      queuedAt, issuedAt := now, now;
      return true;
    }

    method Record(source: string, now: U64) returns (record: EvidenceRecord)
      modifies `sequence
      ensures sequence == Increment(old(sequence)) && record == EvidenceRecord(source, now, sequence)
    {
      sequence := Increment(sequence);
      return EvidenceRecord(source, now, sequence);
    }

    /** Anything but acceptance closes the client. */
    method Evidence(d: EvidenceDisposition) returns (accepted: bool)
      requires Sound()
      modifies `phase, `pending, `cause, gate
      ensures Sound() && accepted == (d == GateTypes.Accepted)
      ensures State() == if d == GateTypes.Accepted then old(State()) else CloseClient(old(State()), GateRefused)
    {
      if d != GateTypes.Accepted {
        Shut(GateRefused);
        return false;
      }
      return true;
    }

    method HandleHello(m: Message, now: U64)
      requires Sound()
      modifies Repr()
      ensures Sound() && (gate == old(gate) || fresh(gate)) && State() == AcceptHello(old(State()), m, now)
    {
      hide GS.WithdrawBinding, CloseClient, GI.Inv;
      if m.kind != P.Hello || m.session < 2 || m.request != 0 || !HasEmptyPayload(m) {
        Shut(OutOfPlace);
        return;
      }
      var decision := MakeGate(m.session, now);
      if decision.status != Applied {
        Shut(GateRefused);
        return;
      }
      phase, exchange := Blocked, Idle;
    }

    /** A gate bound to the session before this one, and withdrawn from it at once. */
    method MakeGate(session: U64, now: U64) returns (decision: BindingDecision)
      requires session >= 2
      modifies `epoch, `gate
      ensures Sound() && gate != null && fresh(gate)
      ensures var config := ConfigOf(session - 1, now);
        var (g, d) := GS.WithdrawBinding(GS.InitialGate(config), config.binding, now);
        State() == old(State()).(epoch := session, gate := Some(g)) && decision == d
    {
      hide GS.WithdrawBinding, GI.Inv;
      var config := ConfigOf(session - 1, now);
      var made := new AuthorityGate(config);
      decision := made.WithdrawBinding(config.binding, now);
      epoch, gate := session, made;
    }

    method BeginRecovery(m: Message, now: U64)
      requires Sound() && gate != null && queryAt <= MAX_U64 - EVIDENCE_LIFETIME_MS
      modifies Repr()
      ensures gate == old(gate) && Sound() && GS.Callable(old(gate.State()))
              && State() == S.BeginRecovery(old(State()), m, now)
    {
      hide GS.BeginRebind, CloseClient, QueueMessage, GI.Inv;
      GI.InvIsCallable(gate.State());
      var decision := BeginRebind(now);
      if decision.status != Applied || decision.candidate.None?
        || decision.candidate.value.providerGeneration != epoch {
        Shut(GateRefused);
        return;
      }
      Activate(decision.candidate, m.request, now);
    }

    method Activate(prepared: Option<BindingIdentity>, request: U64, now: U64)
      requires Sound()
      modifies `candidate, `token, `exchange, `phase, `pending, `cause, `nonce, `queuedAt, `issuedAt, gate
      ensures Sound()
      ensures var q := QueueMessage(old(State()).(candidate := prepared, token := request),
                                    Reply(P.Activate, 0, 0).(value := request), now);
        State() == if IsClosed(q) then q else q.(exchange := ActivationExchange)
    {
      hide QueueMessage, GI.Inv;
      candidate, token := prepared, request;
      var _ := Queue(Reply(P.Activate, 0, 0).(value := token), now);
      if phase != ClosedPhase { exchange := ActivationExchange; }
    }

    /** The old scope is closed, as far as the owner's snapshot tells. */
    method BeginRebind(now: U64) returns (decision: BindingDecision)
      requires Sound() && gate != null && queryAt <= MAX_U64 - EVIDENCE_LIFETIME_MS
      modifies `sequence, gate
      ensures Sound() && GS.Callable(old(gate.State()))
      ensures var g := old(gate.State());
        var closure := Closure(g, EvidenceRecord(OWNER, now, NextSequence(old(State()))),
                               queryAt + EVIDENCE_LIFETIME_MS);
        var (h, d) := GS.BeginRebind(g, g.config.binding, OWNER, closure, now);
        && decision == d && State() == old(State()).(gate := Some(h), sequence := NextSequence(old(State())))
    {
      hide GS.BeginRebind, GI.Inv;
      GI.InvIsCallable(gate.State());
      var active := gate.config.binding;
      var record := Record(OWNER, now);
      var closure := BindingReadinessEvidence(BindingIdleAndSettled, active, record, true,
                                              queryAt + EVIDENCE_LIFETIME_MS);
      decision := gate.BeginRebind(active, OWNER, closure, now);
    }

    method HandleSnapshot(m: Message, now: U64)
      requires Sound() && gate != null
      modifies Repr()
      ensures gate == old(gate) && Sound() && GS.Callable(old(gate.State()))
              && State() == AcceptSnapshot(old(State()), m, now)
    {
      hide S.BeginRecovery, CloseClient;
      if m.kind != P.Snapshot || m.operation != 0 || m.amount != 0 || m.value != 0
        || (m.flags != 0 && m.flags != CLEAR) {
        Shut(OutOfPlace);
      } else if !IsFresh(queryAt, now) {
        Shut(TooLate);
      } else if m.flags == 0 {
        phase, exchange := Blocked, Idle;
      } else if queryAt > MAX_U64 - EVIDENCE_LIFETIME_MS {
        Shut(Exhausted);
      } else {
        BeginRecovery(m, now);
      }
    }

    method OfferEvidence(kind: StartupEvidenceKind, now: U64) returns (accepted: bool)
      requires Sound() && gate != null && candidate.Some? && queryAt <= MAX_U64 - EVIDENCE_LIFETIME_MS
      modifies `sequence, `phase, `pending, `cause, gate
      ensures Sound() && State() == Offer(old(State()), kind, now)
      ensures !IsClosed(old(State())) ==> accepted == !IsClosed(State())
    {
      hide GS.ObserveReadiness, GI.Inv;
      var record := Record(SourceFor(kind), now);
      var e := BindingReadinessEvidence(kind, candidate.value, record, true, queryAt + EVIDENCE_LIFETIME_MS);
      var d := gate.ObserveRebindReadiness(e);
      accepted := Evidence(d);
    }

    method Commit(now: U64)
      requires Sound() && gate != null && candidate.Some?
      modifies `exchange, `phase, `pending, `cause, gate
      ensures Sound() && State() == CommitRecovery(old(State()), now)
    {
      hide GS.CommitRebind, CloseClient;
      var decision := gate.CommitRebind(candidate.value, now);
      if decision.status != Applied {
        Shut(GateRefused);
        return;
      }
      phase, exchange := ReadyToSubmit, Idle;
    }

    /** Three kinds of evidence, one after another, and then the binding. */
    method HandleActivation(m: Message, now: U64)
      requires Sound() && gate != null && queryAt <= MAX_U64 - EVIDENCE_LIFETIME_MS && phase != ClosedPhase
      modifies Repr()
      ensures gate == old(gate) && Sound() && State() == AcceptActivation(old(State()), m, now)
    {
      hide Offer, CommitRecovery, GI.Inv, CloseClient;
      ghost var before := State();
      if m.kind != P.Activated || m.value != token || m.operation != 0 || m.amount != 0 || m.flags != 0
        || candidate.None? {
        Shut(OutOfPlace);
        return;
      }
      if !IsFresh(queryAt, now) {
        Shut(TooLate);
        return;
      }
      OfferKeepsCandidate(before, BindingIdleAndSettled, now);
      var accepted := OfferEvidence(BindingIdleAndSettled, now);
      if !accepted { return; }
      OfferKeepsCandidate(State(), GateTypes.AdapterReady, now);
      accepted := OfferEvidence(GateTypes.AdapterReady, now);
      if !accepted { return; }
      accepted := OfferEvidence(ResultSinkReady, now);
      if !accepted { return; }
      Commit(now);
    }

    method ReportNative(kind: NativeEventKind, now: U64) returns (accepted: bool)
      requires Sound() && CanObserveNative(State())
      modifies `sequence, `phase, `pending, `cause, gate
      ensures Sound() && State() == S.ReportNative(old(State()), kind, now)
      ensures !IsClosed(old(State())) ==> accepted == !IsClosed(State())
    {
      hide GS.ObserveNative, NativeId;
      var record := Record(OWNER, now);
      var e := NativeEvidence(operation.value, NativeId(epoch, operation.value.operationId), kind, record);
      var d := gate.ObserveNative(e);
      accepted := Evidence(d);
    }

    method ReportDelivered(now: U64) returns (accepted: bool)
      requires Sound() && gate != null && operation.Some?
      modifies `sequence, `phase, `pending, `cause, gate
      ensures Sound() && State() == S.ReportDelivered(old(State()), now)
      ensures !IsClosed(old(State())) ==> accepted == !IsClosed(State())
    {
      hide GS.ObserveOutputAccepted, GS.CanDeliverResult, NativeId;
      if !GS.CanDeliverResult(gate.State(), operation.value) {
        Shut(GateRefused);
        return false;
      }
      var record := Record(SINK, now);
      var d := gate.ObserveOutputAccepted(OutputEvidence(operation.value, NativeId(epoch, operation.value.operationId),
                                                         record));
      accepted := Evidence(d);
    }

    method ReportNoOutput(now: U64) returns (accepted: bool)
      requires Sound() && gate != null && operation.Some?
      modifies `sequence, `phase, `pending, `cause, gate
      ensures Sound() && State() == S.ReportNoOutput(old(State()), now)
      ensures !IsClosed(old(State())) ==> accepted == !IsClosed(State())
    {
      hide GS.ObserveOutputNotDelivered;
      var record := Record(OWNER, now);
      var d := gate.ObserveOutputNotDelivered(NonDeliveryEvidence(operation.value, NoOutputProduced, "", record));
      accepted := Evidence(d);
    }

    method ReportSettled(now: U64) returns (accepted: bool)
      requires Sound() && gate != null && operation.Some?
      modifies `sequence, `phase, `pending, `cause, gate
      ensures Sound() && State() == S.ReportSettled(old(State()), now)
      ensures !IsClosed(old(State())) ==> accepted == !IsClosed(State())
    {
      hide GS.ObserveSettlement;
      var record := Record(OWNER, now);
      var d := gate.ObserveSettlement(SettlementEvidence(operation.value, SETTLEMENT, true, record));
      accepted := Evidence(d);
    }

    method HandleResult(m: Message, now: U64)
      requires Sound() && CanObserveNative(State()) && phase != ClosedPhase
      modifies Repr()
      ensures gate == old(gate) && Sound() && State() == AcceptResult(old(State()), m, now)
    {
      hide S.ReportNative, S.ReportDelivered, S.ReportNoOutput, S.ReportSettled, GI.Inv;
      ReportsKeepOperation(State(), OutcomeFor(m.flags), now);
      var accepted := ReportNative(OutcomeFor(m.flags), now);
      if !accepted { return; }
      OutputKeepsOperation(State(), now);
      if m.flags == SUCCEEDED {
        accepted := ReportDelivered(now);
      } else {
        accepted := ReportNoOutput(now);
      }
      if !accepted { return; }
      accepted := ReportSettled(now);
      if !accepted { return; }
      if m.flags == SUCCEEDED { value := Some(m.value); }
      exchange := Idle;
    }

    method HandleAboutOperation(m: Message, now: U64)
      requires Sound() && gate != null && phase != ClosedPhase
      modifies Repr()
      ensures gate == old(gate) && Sound() && GS.Callable(old(gate.State()))
      ensures State() == AcceptAboutOperation(old(State()), m, now)
    {
      hide S.ReportNative, AcceptResult, CloseClient, IsResult, GI.Inv;
      GI.InvIsCallable(gate.State());
      if operation.None? || m.operation != operation.value.operationId || m.amount != iterations {
        Shut(OutOfPlace);
      } else if exchange == AcceptanceExchange && m.kind == P.Accepted && m.flags == 0 && m.value == 0 {
        var accepted := ReportNative(AcceptedEvent, now);
        if accepted { exchange := ResultExchange; }
      } else {
        var believed := Believes(m);
        if !believed {
          Shut(OutOfPlace);
        } else {
          HandleResult(m, now);
        }
      }
    }

    /** A result that may be believed now. */
    method Believes(m: Message) returns (believed: bool)
      requires Sound()
      ensures believed <==> IsResult(State(), m)
    {
      hide ExpectedSum;
      if m.kind != P.Result
         || (exchange != ResultExchange && !(exchange == AcceptanceExchange && m.flags == NOT_LAUNCHED))
         || m.flags < SUCCEEDED || m.flags > NOT_LAUNCHED
         || (exchange == ResultExchange && m.flags == NOT_LAUNCHED)
         || (if m.flags == SUCCEEDED then m.value != ExpectedSum(iterations) else m.value != 0) {
        return false;
      }
      return true;
    }

    method HandleMessage(m: Message, now: U64)
      requires Sound() && CanHandle(State()) && phase != ClosedPhase
      modifies Repr()
      ensures Sound() && (gate == old(gate) || fresh(gate)) && State() == Handle(old(State()), m, now)
    {
      hide AcceptHello, AcceptSnapshot, AcceptActivation, AcceptAboutOperation, CloseClient;
      if exchange == HelloExchange {
        HandleHello(m, now);
      } else if m.session != epoch || m.request != nonce {
        Shut(OutOfPlace);
      } else if exchange == SnapshotExchange {
        HandleSnapshot(m, now);
      } else if exchange == ActivationExchange {
        HandleActivation(m, now);
      } else {
        HandleAboutOperation(m, now);
      }
    }

    // ---------- The public calls ----------

    method SendPending(now: U64, send: SendOutcome)
      requires Sound()
      modifies `phase, `pending, `cause, gate
      ensures Sound() && State() == S.SendPending(old(State()), now, send)
    {
      if pending.None? { return; }
      if !IsFresh(queuedAt, now) {
        Shut(TooLate);
      } else if send == PeerClosed {
        Shut(PeerLeft);
      } else if send == Done {
        pending := None;
      }
    }

    method Poll(now: U64, send: SendOutcome, receive: ReceiveOutcome)
      requires Valid()
      modifies Repr()
      ensures Valid() && fresh(Repr() - old(Repr()))
      ensures CanHandle(old(State())) ==> State() == PollClient(old(State()), now, send, receive)
      ensures !IsClosed(old(State())) ==> CanHandle(old(State()))
      ensures old(phase) == ClosedPhase ==> phase == ClosedPhase && value == old(value)
    {
      hide CR.ClientInv, Advance, S.SendPending, Handle, CloseClient, GI.Inv;
      ghost var before := State();
      if phase != ClosedPhase { CR.InvCanHandle(before); }
      if CanHandle(before) { CR.PollKeeps(before, now, send, receive); }
      ClosedStaysClosed(before, now);
      var open := Time(now);
      if !open { return; }
      TimeKeepsHandling(before, now, send);
      SendPending(now, send);
      if phase == ClosedPhase || pending.Some? { return; }
      if exchange != Idle && exchange != ResultExchange && !IsFresh(issuedAt, now) {
        Shut(TooLate);
        return;
      }
      match receive
      case NothingThere =>
      case NoPeer => Shut(PeerLeft);
      case Got(m) => HandleMessage(m, now);
    }

    /** What the client shows: nothing, or the sum for the operation it last began, open or closed. */
    method Result() returns (r: Option<U64>)
      requires Valid()
      ensures r == value && (r.Some? ==>
                             operation.Some? && 0 < iterations <= MAXIMUM_ITERATIONS
                               && r.value == ExpectedSum(iterations))
    {
      hide CR.PhaseFits, CR.CountsFit, CR.OperationsFit, CR.PendingFits, CR.GateFits, ExpectedSum, GI.Inv;
      r := value;
    }

    method Recover(now: U64) returns (asked: bool)
      requires Valid()
      modifies Repr()
      ensures Valid() && gate == old(gate)
      ensures State() == S.Recover(old(State()), now).0 && asked == S.Recover(old(State()), now).1
      ensures asked ==> old(phase) == Blocked && phase == Recovering && exchange == SnapshotExchange
    {
      hide CR.ClientInv, Advance, QueueMessage, GI.Inv;
      CR.RecoverKeeps(State(), now);
      var open := Time(now);
      if !open || phase != Blocked || exchange != Idle { return false; }
      var queued := Queue(Reply(P.Query, 0, 0), now);
      if !queued { return false; }
      queryAt, exchange, phase := now, SnapshotExchange, Recovering;
      return true;
    }

    method Begin(authority: OperationAuthority, n: U64)
      modifies `operation, `iterations, `value
      ensures State() == old(State()).(operation := Some(authority), iterations := n, value := None)
    {
      operation, iterations, value := Some(authority), n, None;
    }

    /** The operation just admitted, dispatched and sent. */
    method Dispatch(authority: OperationAuthority, n: U64, now: U64) returns (sent: bool)
      requires Sound() && gate != null && phase != ClosedPhase
      modifies `operation, `iterations, `value, `exchange, `phase, `pending, `cause, `nonce, `queuedAt, `issuedAt, gate
      ensures Sound() && State() == DispatchSubmission(old(State()), authority, n, now).0
      ensures sent == DispatchSubmission(old(State()), authority, n, now).1
      ensures sent ==> iterations == n && value.None?
    {
      hide GS.ClaimDispatch, QueueMessage, CloseClient, GI.Inv;
      Begin(authority, n);
      var granted := gate.ClaimDispatch(authority, now);
      if !granted {
        Shut(GateRefused);
        return false;
      }
      sent := Queue(Reply(P.Submit, 0, 0).(operation := authority.operationId, amount := n), now);
      if sent { exchange := AcceptanceExchange; }
    }

    method Submit(n: U64, now: U64) returns (sent: bool)
      requires Valid()
      modifies Repr()
      ensures Valid() && gate == old(gate) && (old(phase) == ReadyToSubmit ==> gate != null)
      ensures State() == SubmitWork(old(State()), n, now).0 && sent == SubmitWork(old(State()), n, now).1
      ensures sent ==> old(phase) == ReadyToSubmit && 0 < n <= MAXIMUM_ITERATIONS && iterations == n && value.None?
    {
      hide CR.ClientInv, Advance, GS.Admit, DispatchSubmission, GI.Inv, RequestFor;
      ghost var before := State();
      CR.SubmitKeeps(before, n, now);
      AdvanceKeepsGate(before, now);
      var open := Time(now);
      if !open || phase != ReadyToSubmit || exchange != Idle || n == 0 || n > MAXIMUM_ITERATIONS { return false; }
      var request := OperationRequest(CAPABILITY, SCOPE, RequestReference(Increment(nonce)), SINK, now, None, None);
      IsRequestFor(State(), now);
      var decision := gate.Admit(request);
      if decision.status != Admitted || decision.authority.None? { return false; }
      sent := Dispatch(decision.authority.value, n, now);
    }
  }

  lemma OfferKeepsCandidate(c: ClientState, kind: StartupEvidenceKind, now: U64)
    requires c.gate.Some? && c.candidate.Some? && c.queryAt <= MAX_U64 - EVIDENCE_LIFETIME_MS
    ensures var d := Offer(c, kind, now); d.gate.Some? && d.candidate == c.candidate && d.queryAt == c.queryAt
  {
    hide GS.ObserveReadiness;
  }

  lemma ReportsKeepOperation(c: ClientState, kind: NativeEventKind, now: U64)
    requires CanObserveNative(c)
    ensures S.ReportNative(c, kind, now).operation == c.operation
  {
    hide GS.ObserveNative, NativeId;
  }

  lemma OutputKeepsOperation(c: ClientState, now: U64)
    requires c.gate.Some? && c.operation.Some?
    ensures S.ReportDelivered(c, now).operation == S.ReportNoOutput(c, now).operation == c.operation
  {
    hide GS.ObserveOutputAccepted, GS.ObserveOutputNotDelivered, GS.CanDeliverResult, NativeId;
  }

  lemma ClosedStaysClosed(c: ClientState, now: U64)
    requires CR.ClientInv(c)
    ensures CR.ClientInv(Advance(c, now)) && (IsClosed(c) ==> Advance(c, now) == c)
  {
    CR.AdvanceKeeps(c, now);
  }

  lemma TimeKeepsHandling(c: ClientState, now: U64, send: SendOutcome)
    requires !IsClosed(Advance(c, now))
    ensures !IsClosed(c)
    ensures CanHandle(c) && !IsClosed(S.SendPending(Advance(c, now), now, send)) ==>
              CanHandle(S.SendPending(Advance(c, now), now, send))
  {
  }

  lemma IsRequestFor(c: ClientState, now: U64)
    ensures RequestFor(c, now)
         == OperationRequest(CAPABILITY, SCOPE, RequestReference(Increment(c.nonce)), SINK, now, None, None)
  {
  }

  lemma AdvanceKeepsGate(c: ClientState, now: U64)
    ensures !IsClosed(Advance(c, now)) ==> Advance(c, now) == c.(lastTime := now)
  {
  }
}
