/** The client's half of the conversation: no reply of the owner is ever out of place to it. */
module ClientConversation {
  import opened Machine
  import opened Sums
  import opened RecoveryProtocol
  import G = GateTypes
  import GS = GateSpec
  import opened ClientSpec
  import CI = ClientInvariant
  import CR = ClientRuns
  import O = OwnerSpec
  import opened Conversation

  /** A client takes the first reply on its way to it. */
  predicate TakesFirst(c: ClientState, toOwner: seq<Message>, toClient: seq<Message>, o: O.OwnerState, session: U64) {
    Converses(c, toOwner, toClient, o, session) && CR.ClientInv(c) && MayReceiveNow(c) && toClient != []
  }

  lemma HelloConverses(c: ClientState, toOwner: seq<Message>, toClient: seq<Message>, o: O.OwnerState, session: U64)
    requires TakesFirst(c, toOwner, toClient, o, session) && c.exchange == HelloExchange
    ensures var d := AcceptHello(c, toClient[0], c.lastTime);
      d.cause != Some(OutOfPlace) && Converses(d, toOwner, toClient[1..], o, session)
  {
    hide GS.WithdrawBinding, SumTo;
    CR.HelloKeeps(c, toClient[0]);
  }

  lemma SnapshotConverses(c: ClientState, toOwner: seq<Message>, toClient: seq<Message>, o: O.OwnerState, session: U64)
    requires TakesFirst(c, toOwner, toClient, o, session) && c.exchange == SnapshotExchange
    ensures toClient[0].session == c.epoch && toClient[0].request == c.nonce
    ensures c.gate.Some? && GS.Callable(c.gate.value)
    ensures var d := AcceptSnapshot(c, toClient[0], c.lastTime);
      d.cause != Some(OutOfPlace) && Converses(d, toOwner, toClient[1..], o, session)
  {
    hide GS.BeginRebind, SumTo, CI.IsBlockedGate, CI.IsPreparingGate;
    CR.SnapshotKeeps(c, toClient[0]);
    var d := AcceptSnapshot(c, toClient[0], c.lastTime);
    assert toClient[1..] == [];
    if !IsClosed(d) && d.exchange == ActivationExchange {
      assert Requests(toOwner, c) == toOwner;
      if IsLive(o, session) { assert toOwner == [] && Requests(toOwner, d) == [RequestOf(d)]; }
    }
  }

  lemma ActivationConverses(c: ClientState, toOwner: seq<Message>, toClient: seq<Message>, o: O.OwnerState,
                            session: U64)
    requires TakesFirst(c, toOwner, toClient, o, session) && c.exchange == ActivationExchange
    ensures toClient[0].session == c.epoch && toClient[0].request == c.nonce
    ensures c.gate.Some? && c.queryAt <= MAX_U64 - EVIDENCE_LIFETIME_MS
    ensures var d := AcceptActivation(c, toClient[0], c.lastTime);
      d.cause != Some(OutOfPlace) && Converses(d, toOwner, toClient[1..], o, session)
  {
    hide GS.ObserveReadiness, GS.CommitRebind, SumTo, CI.IsPreparingGate, CI.IsFreeGate;
    CR.ActivationKeeps(c, toClient[0]);
    assert toClient[1..] == [];
  }

  /** The replies about an operation are ones its client believes. */
  lemma ReplyIsBelieved(c: ClientState, m: Message)
    requires CR.ClientInv(c) && !IsClosed(c)
    requires (c.exchange == AcceptanceExchange && IsFirstAnswer(c, m))
             || (c.exchange == ResultExchange && IsProperResult(c, m))
    ensures IsAcceptance(c, m) || IsResult(c, m)
  {
    hide ExpectedSum, Cubic, SumTo, CI.IsWorkingGate, CR.PendingFits;
    SupportedSumsDoNotWrap(c.iterations);
  }

  lemma AcceptanceConverses(c: ClientState, toOwner: seq<Message>, toClient: seq<Message>, o: O.OwnerState,
                            session: U64)
    requires TakesFirst(c, toOwner, toClient, o, session) && c.exchange == AcceptanceExchange
    requires IsAcceptance(c, toClient[0])
    ensures CanObserveNative(c)
    ensures var d := ReportNative(c, G.AcceptedEvent, c.lastTime);
      IsClosed(d) || Converses(d.(exchange := ResultExchange), toOwner, toClient[1..], o, session)
  {
    hide GS.ObserveNative, SumTo, NativeId, CI.IsWorkingGate;
    CR.InvCanHandle(c);
    CR.AcceptanceKeeps(c, toClient[0]);
    var d := ReportNative(c, G.AcceptedEvent, c.lastTime);
    if !IsClosed(d) {
      if IsLive(o, session) { assert Replies(toClient, o.session)[1..] == Replies(toClient[1..], o.session); }
    }
  }

  lemma ResultConverses(c: ClientState, toOwner: seq<Message>, toClient: seq<Message>, o: O.OwnerState, session: U64)
    requires TakesFirst(c, toOwner, toClient, o, session) && IsResult(c, toClient[0])
    requires (c.exchange == AcceptanceExchange && IsFirstAnswer(c, toClient[0])) || c.exchange == ResultExchange
    ensures CanObserveNative(c)
    ensures var d := AcceptResult(c, toClient[0], c.lastTime);
      d.cause != Some(OutOfPlace) && Converses(d, toOwner, toClient[1..], o, session)
  {
    hide SumTo, ReportNative, FinishOperation, CI.IsWorkingGate, CI.IsFreeGate;
    CR.ResultKeeps(c, toClient[0]);
    var d := AcceptResult(c, toClient[0], c.lastTime);
    FinishedShape(c, toClient[0]);
    if !IsClosed(d) && IsLive(o, session) {
      assert Replies(toClient, o.session)[0] == toClient[0];
      assert Replies(toClient, o.session)[1..] == Replies(toClient[1..], o.session);
    }
  }

  /** A handled result changes the gate, the counter, the value shown and the exchange, or closes. */
  lemma FinishedShape(c: ClientState, m: Message)
    requires CanObserveNative(c) && !IsClosed(c) && c.cause.None?
    ensures var d := AcceptResult(c, m, c.lastTime);
      && d.cause != Some(OutOfPlace)
      && (!IsClosed(d) ==>
            d == c.(gate := d.gate, sequence := d.sequence, value := d.value, exchange := Idle) && d.gate.Some?)
  {
    hide GS.ObserveNative, GS.ObserveOutputAccepted, GS.ObserveOutputNotDelivered, GS.ObserveSettlement,
         GS.CanDeliverResult;
  }

  lemma AboutOperationConverses(c: ClientState, toOwner: seq<Message>, toClient: seq<Message>, o: O.OwnerState,
                                session: U64)
    requires TakesFirst(c, toOwner, toClient, o, session)
             && (c.exchange == AcceptanceExchange || c.exchange == ResultExchange)
    ensures toClient[0].session == c.epoch && toClient[0].request == c.nonce && CanHandle(c)
    ensures var d := AcceptAboutOperation(c, toClient[0], c.lastTime);
      d.cause != Some(OutOfPlace) && Converses(d, toOwner, toClient[1..], o, session)
  {
    hide SumTo, ReportNative, AcceptResult, IsResult;
    var m := toClient[0];
    assert Replies(toClient, o.session)[0] == m;
    assert (c.exchange == AcceptanceExchange && IsFirstAnswer(c, m))
           || (c.exchange == ResultExchange && IsProperResult(c, m));
    CR.InvCanHandle(c);
    CR.OpenHasNoCause(c);
    ReplyIsBelieved(c, m);
    if IsAcceptance(c, m) {
      AcceptanceConverses(c, toOwner, toClient, o, session);
      CR.AcceptanceKeeps(c, m);
      var d := ReportNative(c, G.AcceptedEvent, c.lastTime);
      if !IsClosed(d) { CR.OpenHasNoCause(d.(exchange := ResultExchange)); }
    } else {
      ResultConverses(c, toOwner, toClient, o, session);
    }
  }

  /** Whatever the owner has sent, its client takes in stride. */
  lemma HandleConverses(c: ClientState, toOwner: seq<Message>, toClient: seq<Message>, o: O.OwnerState, session: U64)
    requires TakesFirst(c, toOwner, toClient, o, session)
    ensures CanHandle(c)
    ensures var d := Handle(c, toClient[0], c.lastTime);
      d.cause != Some(OutOfPlace) && Converses(d, toOwner, toClient[1..], o, session)
  {
    hide AcceptHello, AcceptSnapshot, AcceptActivation, AcceptAboutOperation, Converses, CR.ClientInv, CanHandle;
    CR.InvCanHandle(c);
    assert c.exchange != Idle by { IdleExpectsNothing(c, toOwner, toClient, o, session); }
    if c.exchange == HelloExchange { HelloConverses(c, toOwner, toClient, o, session); }
    else if c.exchange == SnapshotExchange { SnapshotConverses(c, toOwner, toClient, o, session); }
    else if c.exchange == ActivationExchange { ActivationConverses(c, toOwner, toClient, o, session); }
    else { AboutOperationConverses(c, toOwner, toClient, o, session); }
  }

  lemma IdleExpectsNothing(c: ClientState, toOwner: seq<Message>, toClient: seq<Message>, o: O.OwnerState, session: U64)
    requires TakesFirst(c, toOwner, toClient, o, session)
    ensures c.exchange != Idle
  {
  }

  // ---------- Calls ----------

  /** A message leaves the client's hands for the channel. */
  lemma SendingConverses(c: ClientState, toOwner: seq<Message>, toClient: seq<Message>, o: O.OwnerState, session: U64)
    requires Converses(c, toOwner, toClient, o, session) && c.pending.Some?
    ensures Converses(c.(pending := None), toOwner + [c.pending.value], toClient, o, session)
  {
    hide SumTo;
  }

  lemma TimeConverses(c: ClientState, toOwner: seq<Message>, toClient: seq<Message>, o: O.OwnerState, now: U64,
                      session: U64)
    requires Converses(c, toOwner, toClient, o, session)
    ensures Converses(c.(lastTime := now), toOwner, toClient, o, session)
  {
    hide SumTo;
  }

  /** What is on its way to the owner after a client's poll, and what is left on its way to the client. */
  function ToOwnerAfter(c: ClientState, toOwner: seq<Message>, now: U64, send: SendOutcome): seq<Message> {
    var sent := PollSends(c, now, send);
    if sent.Some? then toOwner + [sent.value] else toOwner
  }

  function ToClientAfter(c: ClientState, toClient: seq<Message>, now: U64, send: SendOutcome,
                         receive: ReceiveOutcome): seq<Message>
  {
    if PollTakes(c, now, send, receive) && toClient != [] then toClient[1..] else toClient
  }

  lemma ClosedConverses(d: ClientState, toOwner: seq<Message>, toClient: seq<Message>, o: O.OwnerState, session: U64)
    requires IsClosed(d)
    ensures Converses(d, toOwner, toClient, o, session)
  {
  }

  predicate HandlesNow(c: ClientState, receive: ReceiveOutcome) {
    !(Waits(c) && !IsFresh(c.issuedAt, c.lastTime)) && receive.Got?
  }

  lemma ReceiveNowConverses(c: ClientState, toOwner: seq<Message>, toClient: seq<Message>, o: O.OwnerState,
                            receive: ReceiveOutcome, session: U64)
    requires Converses(c, toOwner, toClient, o, session) && CR.ClientInv(c) && MayReceiveNow(c)
    requires receive.Got? ==> toClient != [] && receive.message == toClient[0]
    ensures CanHandle(c)
    ensures var d := ReceiveNow(c, c.lastTime, receive);
      && d.cause != Some(OutOfPlace)
      && Converses(d, toOwner, if HandlesNow(c, receive) then toClient[1..] else toClient, o, session)
  {
    hide Converses, CR.ClientInv, Handle, CanHandle;
    CR.InvCanHandle(c);
    CR.OpenHasNoCause(c);
    var d := ReceiveNow(c, c.lastTime, receive);
    if IsClosed(d) {
      ClosedConverses(d, toOwner, if HandlesNow(c, receive) then toClient[1..] else toClient, o, session);
    }
    if receive.Got? { HandleConverses(c, toOwner, toClient, o, session); }
  }

  /** What sending leaves in the client's hands, and puts on its way. */
  lemma PollParts(c: ClientState, toOwner: seq<Message>, now: U64, send: SendOutcome)
    requires !IsClosed(c) && c.cause.None?
    ensures var c1, c2 := Advance(c, now), SendPending(Advance(c, now), now, send);
      && c1.cause != Some(OutOfPlace) && c2.cause != Some(OutOfPlace)
      && (!IsClosed(c2) && c1.pending == c2.pending ==> c2 == c1 && ToOwnerAfter(c, toOwner, now, send) == toOwner)
      && (!IsClosed(c2) && c1.pending != c2.pending ==>
            && c1.pending.Some? && c2 == c1.(pending := None)
            && ToOwnerAfter(c, toOwner, now, send) == toOwner + [c1.pending.value])
  {
  }

  lemma ClientPollConverses(c: ClientState, toOwner: seq<Message>, toClient: seq<Message>, o: O.OwnerState,
                            now: U64, send: SendOutcome, receive: ReceiveOutcome, session: U64)
    requires Converses(c, toOwner, toClient, o, session) && CR.ClientInv(c) && !IsClosed(c)
    requires receive.Got? ==> toClient != [] && receive.message == toClient[0]
    ensures CanHandle(c)
    ensures var d := PollClient(c, now, send, receive);
      && d.cause != Some(OutOfPlace)
      && Converses(d, ToOwnerAfter(c, toOwner, now, send), ToClientAfter(c, toClient, now, send, receive), o, session)
  {
    hide Converses, CR.ClientInv, ReceiveNow, CanHandle, SendPending, ToOwnerAfter;
    CR.InvCanHandle(c);
    CR.OpenHasNoCause(c);
    CR.AdvanceKeeps(c, now);
    PollParts(c, toOwner, now, send);
    var c1 := Advance(c, now);
    var d := PollClient(c, now, send, receive);
    var toOwner' := ToOwnerAfter(c, toOwner, now, send);
    if IsClosed(d) { ClosedConverses(d, toOwner', ToClientAfter(c, toClient, now, send, receive), o, session); }
    if !IsClosed(c1) {
      TimeConverses(c, toOwner, toClient, o, now, session);
      CR.SendPendingKeeps(c1, send);
      if c1.pending.Some? { SendingConverses(c1, toOwner, toClient, o, session); }
      var c2 := SendPending(c1, now, send);
      if MayReceiveNow(c2) { ReceiveNowConverses(c2, toOwner', toClient, o, receive, session); }
    }
  }

  lemma RecoverConverses(c: ClientState, toOwner: seq<Message>, toClient: seq<Message>, o: O.OwnerState, now: U64,
                         session: U64)
    requires Converses(c, toOwner, toClient, o, session) && CR.ClientInv(c) && !IsClosed(c)
    ensures var d := Recover(c, now).0;
      d.cause != Some(OutOfPlace) && Converses(d, toOwner, toClient, o, session)
  {
    hide SumTo, CI.IsBlockedGate;
    var d := Recover(c, now).0;
    if IsClosed(d) { ClosedConverses(d, toOwner, toClient, o, session); }
    else if !Recover(c, now).1 { TimeConverses(c, toOwner, toClient, o, now, session); }
    else if IsLive(o, session) {
      assert Requests(toOwner, d) == [RequestOf(d)];
    }
  }

  lemma SubmitConverses(c: ClientState, toOwner: seq<Message>, toClient: seq<Message>, o: O.OwnerState,
                        iterations: U64, now: U64, session: U64)
    requires Converses(c, toOwner, toClient, o, session) && CR.ClientInv(c) && !IsClosed(c)
    ensures c.phase == ReadyToSubmit ==> c.gate.Some?
    ensures var d := SubmitWork(c, iterations, now).0;
      d.cause != Some(OutOfPlace) && Converses(d, toOwner, toClient, o, session)
  {
    hide SumTo, GS.Admit, GS.ClaimDispatch, CI.IsFreeGate, CI.IsWorkingGate, RequestFor, ExpectedSum;
    CR.SubmitKeeps(c, iterations, now);
    var d := SubmitWork(c, iterations, now).0;
    if IsClosed(d) { ClosedConverses(d, toOwner, toClient, o, session); }
    else if c.phase == ReadyToSubmit && c.exchange == Idle && now >= c.lastTime {
      CR.FreeGateAges(c, now);
      CI.SubmissionIsAdmitted(c.gate.value, c.epoch, c.(lastTime := now), now);
      if SubmitWork(c, iterations, now).1 && IsLive(o, session) { assert Requests(toOwner, d) == [RequestOf(d)]; }
    } else { TimeConverses(c, toOwner, toClient, o, now, session); }
  }
}
