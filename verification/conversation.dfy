/**
 The conversation of one session: which requests and replies may be on their way between a client
 and the owner, and that every step of either side leads from one such situation to another.
 */
module Conversation {
  import opened Machine
  import opened Sums
  import P = RecoveryProtocol
  import opened RecoveryProtocol
  import opened ClientSpec
  import CR = ClientRuns
  import O = OwnerSpec
  import PS = ProcessSpec
  import OI = OwnerInvariant
  import OC = OwnedChild

  // ---------- What may be on its way ----------

  /** The request an exchange is about. */
  function RequestOf(c: ClientState): Message
    requires c.exchange == AcceptanceExchange ==> c.operation.Some?
  {
    match c.exchange
    case ActivationExchange => Reply(P.Activate, c.epoch, c.nonce).(value := c.token)
    case AcceptanceExchange =>
      Reply(P.Submit, c.epoch, c.nonce).(operation := c.operation.value.operationId, amount := c.iterations)
    case _ => Reply(P.Query, c.epoch, c.nonce)
  }

  function AboutOperation(c: ClientState, kind: Kind): Message
    requires c.operation.Some?
  {
    Reply(kind, c.epoch, c.nonce).(operation := c.operation.value.operationId, amount := c.iterations)
  }

  predicate IsProperResult(c: ClientState, m: Message) {
    && c.operation.Some?
    && m == AboutOperation(c, P.Result).(flags := m.flags, value := m.value)
    && (m.flags == SUCCEEDED || m.flags == FAILED)
    && m.value == (if m.flags == SUCCEEDED then SumTo(c.iterations) else 0)
  }

  predicate IsFirstAnswer(c: ClientState, m: Message) {
    && c.operation.Some?
    && (m == AboutOperation(c, P.Accepted) || m == AboutOperation(c, P.Result).(flags := NOT_LAUNCHED))
  }

  /** The replies a client may still be sent, in this order and no others. */
  predicate Expects(c: ClientState, replies: seq<Message>, session: U64) {
    match c.exchange
    case HelloExchange => session >= 2 && (replies == [] || replies == [Reply(P.Hello, session, 0)])
    case Idle => replies == []
    case SnapshotExchange =>
      replies == [] || (|replies| == 1 && replies[0] == Reply(P.Snapshot, c.epoch, c.nonce).(flags := replies[0].flags)
                        && (replies[0].flags == 0 || replies[0].flags == CLEAR))
    case ActivationExchange => replies == [] || replies == [Reply(P.Activated, c.epoch, c.nonce).(value := c.token)]
    case AcceptanceExchange =>
      || replies == []
      || (|replies| == 1 && IsFirstAnswer(c, replies[0]))
      || (|replies| == 2 && c.operation.Some? && replies[0] == AboutOperation(c, P.Accepted)
          && IsProperResult(c, replies[1]))
    case ResultExchange => replies == [] || (|replies| == 1 && IsProperResult(c, replies[0]))
  }

  /** What of a session has left the owner's hands, and what is about to. */
  function Replies(toClient: seq<Message>, s: O.Session): seq<Message> {
    if s.pending.Some? then toClient + [s.pending.value.message] else toClient
  }

  function Requests(toOwner: seq<Message>, c: ClientState): seq<Message> {
    if c.pending.Some? then toOwner + [c.pending.value] else toOwner
  }

  /** An operation in the owner's hands is the one the client waits for; its result comes after the acceptance. */
  predicate Awaits(c: ClientState, replies: seq<Message>, s: O.Session, w: O.Work) {
    && (c.exchange == AcceptanceExchange || c.exchange == ResultExchange) && c.operation.Some?
    && w.session == c.epoch && w.request == c.nonce && w.operation == c.operation.value.operationId
    && w.amount == c.iterations
    && var first := if c.exchange == AcceptanceExchange then [AboutOperation(c, P.Accepted)] else [];
       if s.pending.Some? && s.pending.value.message.kind == P.Result
       then w.result == Some(s.pending.value.message) && replies == first + [s.pending.value.message]
       else replies == first
  }

  /** The owner's session agrees with the client's exchange; a request is on its way only while nothing else is. */
  predicate Aligned(c: ClientState, requests: seq<Message>, replies: seq<Message>, s: O.Session, w: O.Work) {
    && (c.exchange == AcceptanceExchange ==> c.operation.Some?)
    && (requests == [] || (requests == [RequestOf(c)] && Waits(c) && c.exchange != HelloExchange
                           && replies == [] && w.operation == 0))
    && (w.operation != 0 ==> Awaits(c, replies, s, w))
    && CountersAgree(c, requests == [], s)
    && (s.active <==> c.phase == ReadyToSubmit || (c.exchange == ActivationExchange && requests == []))
    && (c.exchange == SnapshotExchange && requests == [] && |replies| == 1 && replies[0].flags == CLEAR ==>
          s.clearToken == c.nonce)
    && (c.exchange == ActivationExchange ==> c.token + 1 == c.nonce && (requests != [] ==> s.clearToken == c.token))
  }

  predicate CountersAgree(c: ClientState, answered: bool, s: O.Session) {
    && (if answered then s.lastRequest == c.nonce else s.lastRequest + 1 == c.nonce)
    && if c.phase == ReadyToSubmit then
         c.gate.Some? && s.lastOperation + (if answered then 1 else 2) == c.gate.value.nextOperationId
       else s.lastOperation == 0
  }

  predicate IsLive(o: O.OwnerState, session: U64) {
    o.session.connected && o.session.epoch == session
  }

  /** The situation of one session, as long as its client is open. */
  predicate Converses(c: ClientState, toOwner: seq<Message>, toClient: seq<Message>, o: O.OwnerState, session: U64) {
    !IsClosed(c) ==>
      && (c.exchange != HelloExchange ==> c.epoch == session)
      && if IsLive(o, session) then
           && Expects(c, Replies(toClient, o.session), session)
           && Aligned(c, Requests(toOwner, c), Replies(toClient, o.session), o.session, o.work)
         else Expects(c, toClient, session)
  }

  // ---------- The owner's steps ----------

  /** Replies that will never be sent were expected last. */
  lemma ExpectsPrefix(c: ClientState, toClient: seq<Message>, m: Message, session: U64)
    requires Expects(c, toClient + [m], session)
    ensures Expects(c, toClient, session)
  {
    assert (toClient + [m])[..|toClient|] == toClient;
    if toClient != [] { assert (toClient + [m])[0] == toClient[0]; }
  }

  /** A session the owner leaves stays a conversation of which some replies are missing. */
  lemma LeavingConverses(c: ClientState, toOwner: seq<Message>, toClient: seq<Message>, o: O.OwnerState,
                         rest: seq<Message>, t: O.OwnerState, session: U64)
    requires Converses(c, toOwner, toClient, o, session) && !t.session.connected
    ensures Converses(c, rest, toClient, t, session)
  {
    hide Expects, Aligned;
    if !IsClosed(c) && IsLive(o, session) && o.session.pending.Some? {
      ExpectsPrefix(c, toClient, o.session.pending.value.message, session);
    }
  }

  /** A step that leaves session and work as they are, or puts a result into the owner's hands. */
  lemma ResultArrives(c: ClientState, toOwner: seq<Message>, toClient: seq<Message>, o: O.OwnerState, t: O.OwnerState,
                      session: U64)
    requires Converses(c, toOwner, toClient, o, session) && t.session == o.session
    requires t.work == o.work.(result := t.work.result)
    requires o.work.result.Some? || t.work.operation == 0 ==> t.work == o.work
    ensures Converses(c, toOwner, toClient, t, session)
  {
    hide Expects;
  }

  lemma QueueResultConverses(c: ClientState, toOwner: seq<Message>, toClient: seq<Message>, o: O.OwnerState, now: U64,
                             session: U64)
    requires Converses(c, toOwner, toClient, o, session) && OI.OwnerInv(o) && OC.ResultIsTrue(o.work)
    ensures Converses(c, toOwner, toClient, O.QueueResult(o, now), session)
  {
    hide OI.IsHistory, O.Summarize, SumTo, OI.HistoryMatches;
    if !IsClosed(c) && IsLive(o, session) && o.session.pending.None? && o.work.result.Some? {
      var r := o.work.result.value;
      assert Awaits(c, toClient, o.session, o.work);
      assert IsProperResult(c, r);
      assert Replies(toClient, O.QueueResult(o, now).session) == toClient + [r];
    }
  }

  /** Observing the child ends the session, or at most finds a result. */
  lemma ObserveShape(o: O.OwnerState, now: U64, e: O.Environment)
    requires OI.OwnerInv(o)
    ensures O.HasRoom(o)
    ensures var t := O.ObserveNative(o, now, e);
      || !t.session.connected
      || (t.session == o.session && t.work == o.work.(result := t.work.result)
          && (o.work.result.Some? || t.work.operation == 0 ==> t.work == o.work))
  {
    hide OI.HistoryMatches, OI.IsHistory, O.Summarize, O.Disconnect, O.Fail, PS.Poll, PS.CloseChannels;
    if o.process.Some? {
      var q := PS.Poll(o.process.value, now, e.pipe, e.poll).0;
      OI.PollOnlyObserves(o.process.value, now, e.pipe, e.poll);
      OI.ReplaceKeeps(o, q);
      AfterPollShape(o.(process := Some(q)), now, e);
    }
  }

  lemma AfterPollShape(o: O.OwnerState, now: U64, e: O.Environment)
    requires OI.OwnerInv(o) && o.process.Some?
    ensures var t := O.AfterPoll(o, now, e);
      || !t.session.connected
      || (t.session == o.session && t.work == o.work.(result := t.work.result)
          && (o.work.result.Some? || t.work.operation == 0 ==> t.work == o.work))
  {
    hide OI.HistoryMatches, OI.IsHistory, O.Summarize, O.Disconnect, O.Fail, PS.CloseChannels;
    OI.FailAndDisconnectKeeps(o, now, e);
    var o1 := if O.IsBad(o.process.value) then O.Disconnect(O.Fail(o), now, e) else o;
    var (q, closed) := PS.CloseChannels(o1.process.value, e.controlClose, e.eventClose);
    if !closed {
      OI.CloseOutcome(o1.process.value, e.controlClose, e.eventClose);
      OI.ReplaceKeeps(o1, q);
      OI.FailAndDisconnectKeeps(o1.(process := Some(q)), now, e);
    }
  }

  lemma CheckClockConverses(c: ClientState, toOwner: seq<Message>, toClient: seq<Message>, o: O.OwnerState,
                            now: U64, e: O.Environment, session: U64)
    requires Converses(c, toOwner, toClient, o, session) && OI.OwnerInv(o)
    ensures Converses(c, toOwner, toClient, O.CheckClock(o, now, e), session)
  {
    hide Expects, Aligned, OI.OwnerInv, O.Disconnect, O.Fail;
    OI.FailAndDisconnectKeeps(o, o.lastNow, e);
    if !O.ClockRuns(o, now) { LeavingConverses(c, toOwner, toClient, o, toOwner, O.CheckClock(o, now, e), session); }
  }

  lemma FlushConverses(c: ClientState, toOwner: seq<Message>, toClient: seq<Message>, o: O.OwnerState,
                       now: U64, e: O.Environment, session: U64)
    requires Converses(c, toOwner, toClient, o, session) && OI.OwnerInv(o)
    requires o.session.pending.Some? ==> o.session.epoch == session
    ensures var sent := if O.Sends(o, now, e) then toClient + [o.session.pending.value.message] else toClient;
      Converses(c, toOwner, sent, O.Flush(o, now, e), session)
  {
    hide Expects, OI.HistoryMatches, OI.IsHistory, O.Summarize, O.Disconnect, SumTo, O.ResultOf;
    OI.DisconnectKeeps(o, now, e);
    var t := O.Flush(o, now, e);
    if !t.session.connected {
      if o.session.connected { LeavingConverses(c, toOwner, toClient, o, toOwner, t, session); }
    }
  }

  lemma QueryAnswered(c: ClientState, toOwner: seq<Message>, toClient: seq<Message>, o: O.OwnerState,
                      now: U64, canLaunch: bool, session: U64)
    requires Converses(c, toOwner, toClient, o, session) && !IsClosed(c) && IsLive(o, session) && O.MayReceive(o)
    requires toOwner != [] && O.IsQuery(o, toOwner[0])
    ensures Converses(c, toOwner[1..], toClient, O.AnswerQuery(o, toOwner[0], now, canLaunch), session)
  {
    hide SumTo, O.IsClear;
    assert toOwner == [RequestOf(c)] && c.pending.None?;
    assert Replies(toClient, o.session) == toClient;
  }

  lemma ActivationAnswered(c: ClientState, toOwner: seq<Message>, toClient: seq<Message>, o: O.OwnerState,
                           now: U64, canLaunch: bool, session: U64)
    requires Converses(c, toOwner, toClient, o, session) && !IsClosed(c) && IsLive(o, session) && O.MayReceive(o)
    requires toOwner != [] && O.IsActivation(o, toOwner[0], now, canLaunch)
    ensures Converses(c, toOwner[1..], toClient, O.AnswerActivation(o, toOwner[0], now), session)
  {
    hide SumTo, O.IsClear;
    assert toOwner == [RequestOf(c)] && c.pending.None?;
    assert Replies(toClient, o.session) == toClient;
  }

  lemma SubmissionAnswered(c: ClientState, toOwner: seq<Message>, toClient: seq<Message>, o: O.OwnerState,
                           now: U64, e: O.Environment, session: U64)
    requires Converses(c, toOwner, toClient, o, session) && !IsClosed(c) && IsLive(o, session) && O.MayReceive(o)
    requires toOwner != [] && O.IsSubmission(o, toOwner[0], e.canLaunch) && OI.OwnerInv(o) && CR.OperationsFit(c)
    ensures Converses(c, toOwner[1..], toClient, O.AnswerSubmission(o, toOwner[0], now, e), session)
  {
    hide SumTo, O.IsClear, PS.Launch, O.Fail, O.Disconnect, OI.HistoryMatches, OI.IsHistory, O.Summarize;
    assert toOwner == [RequestOf(c)] && c.pending.None?;
    assert Replies(toClient, o.session) == toClient;
    var m := toOwner[0];
    OI.FailAndDisconnectKeeps(o, now, e);
    var o1 := o.(session := o.session.(lastRequest := m.request, lastOperation := m.operation));
    NoLongerConnected(o1, now, e);
  }

  lemma NoLongerConnected(o: O.OwnerState, now: U64, e: O.Environment)
    ensures !O.Disconnect(O.Fail(o), now, e).session.connected && !O.Disconnect(o, now, e).session.connected
    ensures O.Disconnect(O.Fail(o), now, e).session.epoch == O.Disconnect(o, now, e).session.epoch == o.session.epoch
    ensures o.process.Some? ==> O.Disconnect(O.Fail(o), now, e).process.Some?
  {
  }

  /** The owner receives the client's request, and answers it or leaves. */
  lemma ReceiveConverses(c: ClientState, toOwner: seq<Message>, toClient: seq<Message>, o: O.OwnerState,
                         now: U64, e: O.Environment, session: U64)
    requires Converses(c, toOwner, toClient, o, session) && OI.OwnerInv(o) && O.MayReceive(o)
             && o.session.epoch == session
    requires CR.ClientInv(c) && (e.receive.Got? ==> toOwner != [] && e.receive.message == toOwner[0])
    ensures Converses(c, if e.receive.Got? then toOwner[1..] else toOwner, toClient, O.Receive(o, now, e), session)
  {
    hide OI.OwnerInv, O.Disconnect, O.AnswerQuery, O.AnswerActivation, O.AnswerSubmission, O.IsQuery, O.IsActivation,
         O.IsSubmission, Expects, Aligned;
    NoLongerConnected(o, now, e);
    var t := O.Receive(o, now, e);
    var rest := if e.receive.Got? then toOwner[1..] else toOwner;
    if !IsClosed(c) {
      assert CR.OperationsFit(c);
      if !t.session.connected { LeavingConverses(c, toOwner, toClient, o, rest, t, session); }
      else if e.receive.Got? {
        var m := toOwner[0];
        if O.IsQuery(o, m) { QueryAnswered(c, toOwner, toClient, o, now, e.canLaunch, session); }
        else if O.IsActivation(o, m, now,
                               e.canLaunch) { ActivationAnswered(c, toOwner, toClient, o, now, e.canLaunch, session); }
        else if O.IsSubmission(o, m, e.canLaunch) { SubmissionAnswered(c, toOwner, toClient, o, now, e, session); }
      }
    }
  }

  lemma ObserveConverses(c: ClientState, toOwner: seq<Message>, toClient: seq<Message>, o: O.OwnerState,
                         now: U64, e: O.Environment, session: U64)
    requires Converses(c, toOwner, toClient, o, session) && OI.OwnerInv(o)
    ensures O.HasRoom(o)
    ensures Converses(c, toOwner, toClient, O.ObserveNative(o, now, e), session)
  {
    hide Converses, O.ObserveNative, OI.OwnerInv;
    ObserveShape(o, now, e);
    var t := O.ObserveNative(o, now, e);
    if !t.session.connected { LeavingConverses(c, toOwner, toClient, o, toOwner, t, session); }
    else { ResultArrives(c, toOwner, toClient, o, t, session); }
  }

  /** What a poll of the owner leaves on its way to the client, and on its way from it. */
  function Sent(toClient: seq<Message>, o: O.OwnerState, now: U64, e: O.Environment): seq<Message>
    requires O.HasRoom(o)
  {
    var sent := O.SentBy(o, now, e);
    if sent.Some? then toClient + [sent.value] else toClient
  }

  function Left(toOwner: seq<Message>, o: O.OwnerState, now: U64, e: O.Environment): seq<Message>
    requires O.HasRoom(o)
  {
    if O.Takes(o, now, e) && toOwner != [] then toOwner[1..] else toOwner
  }

  lemma BeforeReceivingConverses(c: ClientState, toOwner: seq<Message>, toClient: seq<Message>, o: O.OwnerState,
                                 w: OC.World, now: U64, e: O.Environment, session: U64)
    requires Converses(c, toOwner, toClient, o, session) && o.session.epoch == session
    requires OC.IsTended(o, w) && OC.IsAbout(o, w, O.PollTime(o, now), e)
    ensures O.HasRoom(o)
    ensures Converses(c, toOwner, Sent(toClient, o, now, e), O.BeforeReceiving(o, now, e), session)
    ensures OI.OwnerInv(O.BeforeReceiving(o, now, e)) && O.BeforeReceiving(o, now, e).session.epoch == session
  {
    OC.BeforeSendingTends(o, w, now, e);
    OC.BeforeReceivingTends(o, w, now, e);
    assert OI.OwnerInv(o);
    var t := O.PollTime(o, now);
    var o0 := O.CheckClock(o, now, e);
    CheckClockConverses(c, toOwner, toClient, o, now, e, session);
    ObserveConverses(c, toOwner, toClient, o0, t, e, session);
    var o1 := O.ObserveNative(o0, t, e);
    if o1.session.connected { QueueResultConverses(c, toOwner, toClient, o1, t, session); }
    var o2 := O.BeforeSending(o, now, e);
    EpochsAgree(o, now, e);
    FlushConverses(c, toOwner, toClient, o2, t, e, session);
    var o3 := O.Flush(o2, t, e);
    if o3.session.connected { QueueResultConverses(c, toOwner, Sent(toClient, o, now, e), o3, t, session); }
  }

  lemma ObserveKeepsEpoch(o: O.OwnerState, now: U64, e: O.Environment)
    requires O.HasRoom(o)
    ensures O.ObserveNative(o, now, e).session.epoch == o.session.epoch
  {
    hide O.Disconnect, O.Fail, PS.CloseChannels, PS.Poll;
    if o.process.Some? {
      var q := PS.Poll(o.process.value, now, e.pipe, e.poll).0;
      var o1 := o.(process := Some(q));
      NoLongerConnected(o1, now, e);
      var o2 := if O.IsBad(q) then O.Disconnect(O.Fail(o1), now, e) else o1;
      NoLongerConnected(o2.(process := Some(PS.CloseChannels(o2.process.value, e.controlClose, e.eventClose).0)), now,
                        e);
    }
  }

  lemma MessagesKeepEpoch(o: O.OwnerState, now: U64, e: O.Environment)
    ensures O.Flush(o, now, e).session.epoch == o.session.epoch
    ensures O.QueueResult(o, now).session.epoch == o.session.epoch
    ensures O.CheckClock(o, now, e).session.epoch == o.session.epoch
  {
    hide O.Disconnect, O.Fail;
    NoLongerConnected(o, now, e);
    NoLongerConnected(o, o.lastNow, e);
  }

  lemma AnswersKeepEpoch(o: O.OwnerState, now: U64, e: O.Environment)
    ensures O.Receive(o, now, e).session.epoch == o.session.epoch
  {
    hide O.Disconnect, O.Fail, O.IsClear, O.IsQuery, O.IsActivation, O.IsSubmission, PS.Launch;
    NoLongerConnected(o, now, e);
    if e.receive.Got? {
      var m := e.receive.message;
      NoLongerConnected(o.(session := o.session.(lastRequest := m.request, lastOperation := m.operation)), now, e);
    }
  }

  /** No stage of a poll changes the session's number. */
  lemma EpochsAgree(o: O.OwnerState, now: U64, e: O.Environment)
    requires O.HasRoom(o)
    ensures O.BeforeSending(o, now, e).session.epoch == o.session.epoch
    ensures O.BeforeReceiving(o, now, e).session.epoch == o.session.epoch
    ensures O.PollOwner(o, now, e).session.epoch == o.session.epoch
  {
    hide O.CheckClock, O.ObserveNative, O.QueueResult, O.Flush, O.Receive, O.HasRoom;
    O.CheckClockKeepsRoom(o, now, e);
    var t := O.PollTime(o, now);
    MessagesKeepEpoch(o, now, e);
    var o0 := O.CheckClock(o, now, e);
    ObserveKeepsEpoch(o0, t, e);
    MessagesKeepEpoch(O.ObserveNative(o0, t, e), t, e);
    var o2 := O.BeforeSending(o, now, e);
    MessagesKeepEpoch(o2, t, e);
    MessagesKeepEpoch(O.Flush(o2, t, e), t, e);
    AnswersKeepEpoch(O.BeforeReceiving(o, now, e), t, e);
  }

  /** A whole poll of the owner, on the session it is attached to. */
  lemma OwnerPollConverses(c: ClientState, toOwner: seq<Message>, toClient: seq<Message>, o: O.OwnerState,
                           w: OC.World, now: U64, e: O.Environment, session: U64)
    requires Converses(c, toOwner, toClient, o, session) && o.session.epoch == session && CR.ClientInv(c)
    requires OC.IsTended(o, w) && OC.IsAbout(o, w, O.PollTime(o, now), e)
    requires e.receive.Got? ==> toOwner != [] && e.receive.message == toOwner[0]
    ensures O.HasRoom(o)
    ensures Converses(c, Left(toOwner, o, now, e), Sent(toClient, o, now, e), O.PollOwner(o, now, e), session)
  {
    hide Converses, O.BeforeReceiving, OI.OwnerInv, O.Receive, CR.ClientInv, OC.IsTended, OC.IsAbout, O.SentBy,
         O.HasRoom;
    BeforeReceivingConverses(c, toOwner, toClient, o, w, now, e, session);
    var o4 := O.BeforeReceiving(o, now, e);
    if O.MayReceive(o4) {
      ReceiveConverses(c, toOwner, Sent(toClient, o, now, e), o4, O.PollTime(o, now), e, session);
    }
  }
}
