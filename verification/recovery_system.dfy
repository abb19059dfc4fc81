/**
 The whole recovery protocol: one surviving owner, the children it launches, and any number of
 hosts that attach, recover, submit, crash and are replaced, each over its own pair of channels.
 */
module RecoverySystem {
  import opened Machine
  import opened Sums
  import P = RecoveryProtocol
  import opened RecoveryProtocol
  import W = Workers
  import SV = Supervision
  import PS = ProcessSpec
  import C = ClientSpec
  import CR = ClientRuns
  import CC = ClientConversation
  import opened Conversation
  import O = OwnerSpec
  import OI = OwnerInvariant
  import OC = OwnedChild

  /** One session: its client and the messages under way in both directions. */
  datatype Link = Link(client: C.ClientState, toOwner: seq<Message>, toClient: seq<Message>)

  /** The links of all sessions so far; those before the owner's current one are left to run dry. */
  datatype System = System(owner: O.OwnerState, world: OC.World, links: map<U64, Link>)

  datatype Move =
    | HostAttaches(usable: bool, attachAt: U64, hostTime: U64, attachEnvironment: O.Environment)
    | OwnerPolls(pollAt: U64, environment: O.Environment)
    | ClientPolls(poller: U64, clientAt: U64, send: SendOutcome, receive: ReceiveOutcome)
    | ClientRecovers(recoverer: U64, recoverAt: U64)
    | ClientSubmits(submitter: U64, iterations: U64, submitAt: U64)
    | ClientCloses(leaver: U64)
    | ChildMoves(move: SV.Move)

  function Start(stopGrace: U64): System {
    System(O.NewOwner(stopGrace), OC.NEWBORN, map[])
  }

  /** What the environment may do next: it invents no message, no exit status and no stop command. */
  ghost predicate Possible(s: System, m: Move) {
    match m
    case HostAttaches(_, _, _, _) => true
    case OwnerPolls(now, e) =>
      && O.HasRoom(s.owner) && OC.IsAbout(s.owner, s.world, O.PollTime(s.owner, now), e)
      && (e.receive.Got? ==>
            && s.owner.session.epoch in s.links && s.links[s.owner.session.epoch].toOwner != []
            && e.receive.message == s.links[s.owner.session.epoch].toOwner[0])
    case ClientPolls(session, _, _, receive) =>
      && session in s.links && C.CanHandle(s.links[session].client) && !C.IsClosed(s.links[session].client)
      && (receive.Got? ==> s.links[session].toClient != [] && receive.message == s.links[session].toClient[0])
    case ClientRecovers(session, _) => session in s.links && !C.IsClosed(s.links[session].client)
    case ClientSubmits(session, _, _) =>
      && session in s.links && !C.IsClosed(s.links[session].client)
      && (s.links[session].client.phase == C.ReadyToSubmit ==> s.links[session].client.gate.Some?)
    case ClientCloses(session) => session in s.links
    case ChildMoves(move) =>
      && (move.ChildTurn? || move.Kill?) && s.owner.process.Some? && IsDriven(s)
      && SV.Enabled(OC.Joined(s.world, s.owner.process.value), move)
  }

  predicate IsDriven(s: System)
    requires s.owner.process.Some?
  {
    var p := s.owner.process.value;
    |p.stream.buffer| < 32 && W.InRange(p.limit, s.world.trace.child)
  }

  function WithClient(s: System, session: U64, c: C.ClientState): System
    requires session in s.links
  {
    s.(links := s.links[session := s.links[session].(client := c)])
  }

  function AfterAttach(s: System, usable: bool, now: U64, hostTime: U64, e: O.Environment): System {
    var (o, attached) := O.Attach(s.owner, usable, now, e);
    if attached then System(o, s.world, s.links[o.session.epoch := Link(C.NewClient(hostTime), [], [])])
    else System(o, OC.Onward(s.owner, s.world, o), s.links)
  }

  ghost function AfterOwnerPoll(s: System, now: U64, e: O.Environment): System
    requires O.HasRoom(s.owner)
  {
    var o := s.owner;
    var session := o.session.epoch;
    var links := if session !in s.links then s.links else
      var l := s.links[session];
      s.links[session := l.(toOwner := Left(l.toOwner, o, now, e), toClient := Sent(l.toClient, o, now, e))];
    System(O.PollOwner(o, now, e), OC.WorldAfter(o, s.world, now, e), links)
  }

  function AfterClientPoll(l: Link, now: U64, send: SendOutcome, receive: ReceiveOutcome): Link
    requires C.CanHandle(l.client)
  {
    Link(C.PollClient(l.client, now, send, receive), CC.ToOwnerAfter(l.client, l.toOwner, now, send),
         CC.ToClientAfter(l.client, l.toClient, now, send, receive))
  }

  ghost function AfterChildMove(s: System, move: SV.Move): System
    requires s.owner.process.Some? && IsDriven(s)
  {
    var t := SV.Apply(OC.Joined(s.world, s.owner.process.value), move);
    s.(world := OC.World(t.trace, t.killed, t.stopCommand, t.pipe))
  }

  ghost function Next(s: System, m: Move): System
    requires Possible(s, m)
  {
    match m
    case HostAttaches(usable, now, hostTime, e) => AfterAttach(s, usable, now, hostTime, e)
    case OwnerPolls(now, e) => AfterOwnerPoll(s, now, e)
    case ClientPolls(session, now, send, receive) =>
      s.(links := s.links[session := AfterClientPoll(s.links[session], now, send, receive)])
    case ClientRecovers(session, now) => WithClient(s, session, C.Recover(s.links[session].client, now).0)
    case ClientSubmits(session, n, now) => WithClient(s, session, C.SubmitWork(s.links[session].client, n, now).0)
    case ClientCloses(session) => WithClient(s, session, C.CloseClient(s.links[session].client, C.ByCaller))
    case ChildMoves(move) => AfterChildMove(s, move)
  }

  // ---------- The invariant ----------

  ghost predicate WasSent(log: seq<O.Event>, m: Message) {
    exists j :: 0 <= j < |log| && log[j].SentResult? && log[j].result == m
  }

  predicate ReportsChild(m: Message) {
    m.kind == P.Result && m.flags != NOT_LAUNCHED
  }

  /** Results under way to a client of this session were sent by the owner, for this session. */
  ghost predicate RepliesAreSent(log: seq<O.Event>, replies: seq<Message>, session: U64) {
    forall i :: 0 <= i < |replies| && ReportsChild(replies[i]) ==>
      replies[i].session == session && WasSent(log, replies[i])
  }

  /** The message a shown value came with. */
  function ShownBy(c: C.ClientState, session: U64, request: U64): Message
    requires c.operation.Some? && c.value.Some?
  {
    Reply(P.Result, session, request).(operation := c.operation.value.operationId, amount := c.iterations,
                                      value := c.value.value, flags := SUCCEEDED)
  }

  ghost predicate ValueIsSent(log: seq<O.Event>, c: C.ClientState, session: U64) {
    c.value.Some? ==> c.operation.Some? && exists request :: WasSent(log, ShownBy(c, session, request))
  }

  ghost predicate LinkInv(o: O.OwnerState, l: Link, session: U64) {
    && CR.ClientInv(l.client) && l.client.cause != Some(C.OutOfPlace)
    && Converses(l.client, l.toOwner, l.toClient, o, session)
    && RepliesAreSent(o.log, l.toClient, session) && ValueIsSent(o.log, l.client, session)
  }

  ghost predicate SystemInv(s: System) {
    && OC.IsTended(s.owner, s.world)
    && forall session :: session in s.links ==>
         2 <= session <= s.owner.session.epoch && LinkInv(s.owner, s.links[session], session)
  }

  lemma StartIsValid(stopGrace: U64)
    ensures SystemInv(Start(stopGrace))
  {
    OI.NewOwnerIsValid(stopGrace);
  }

  // ---------- Histories only grow ----------

  predicate Grows(o: O.OwnerState, t: O.OwnerState) {
    o.log <= t.log
  }

  lemma GrowsSent(o: O.OwnerState, t: O.OwnerState, replies: seq<Message>, c: C.ClientState, session: U64)
    requires Grows(o, t)
    ensures RepliesAreSent(o.log, replies, session) ==> RepliesAreSent(t.log, replies, session)
    ensures ValueIsSent(o.log, c, session) ==> ValueIsSent(t.log, c, session)
  {
    forall m | WasSent(o.log, m) ensures WasSent(t.log, m) {
      var j :| 0 <= j < |o.log| && o.log[j].SentResult? && o.log[j].result == m;
      assert t.log[j] == o.log[j];
    }
    if ValueIsSent(o.log, c, session) && c.value.Some? {
      var request :| WasSent(o.log, ShownBy(c, session, request));
      assert WasSent(t.log, ShownBy(c, session, request));
    }
  }

  lemma LeavingGrows(o: O.OwnerState, now: U64, e: O.Environment)
    ensures Grows(o, O.Disconnect(o, now, e)) && Grows(o, O.Fail(o))
    ensures o.process.Some? ==> O.Disconnect(o, now, e).process.Some?
  {
    hide O.Summarize, PS.RequestStop;
  }

  lemma DisconnectGrows(o: O.OwnerState, now: U64, e: O.Environment)
    ensures Grows(o, O.Disconnect(o, now, e)) && Grows(o, O.Disconnect(O.Fail(o), now, e))
    ensures o.process.Some? ==> O.Disconnect(O.Fail(o), now, e).process.Some?
  {
    hide O.Disconnect;
    LeavingGrows(o, now, e);
    LeavingGrows(O.Fail(o), now, e);
  }

  lemma ObserveGrows(o: O.OwnerState, now: U64, e: O.Environment)
    requires O.HasRoom(o)
    ensures Grows(o, O.ObserveNative(o, now, e))
  {
    hide O.Disconnect, O.Fail, PS.CloseChannels, PS.Poll, O.Summarize;
    if o.process.Some? {
      var q := PS.Poll(o.process.value, now, e.pipe, e.poll).0;
      var o1 := o.(process := Some(q));
      DisconnectGrows(o1, now, e);
      var o2 := if O.IsBad(q) then O.Disconnect(O.Fail(o1), now, e) else o1;
      DisconnectGrows(o2.(process := Some(PS.CloseChannels(o2.process.value, e.controlClose, e.eventClose).0)), now, e);
    }
  }

  lemma MessagesGrow(o: O.OwnerState, now: U64, e: O.Environment)
    ensures Grows(o, O.Flush(o, now, e)) && Grows(o, O.QueueResult(o, now)) && Grows(o, O.CheckClock(o, now, e))
    ensures O.Sends(o, now, e) && ReportsChild(o.session.pending.value.message) ==>
            WasSent(O.Flush(o, now, e).log, o.session.pending.value.message)
  {
    hide O.Disconnect, O.Fail, O.Summarize;
    DisconnectGrows(o, now, e);
    DisconnectGrows(o, o.lastNow, e);
    if O.Sends(o, now, e) && ReportsChild(o.session.pending.value.message) {
      var t := O.Flush(o, now, e);
      assert t.log[|o.log|].SentResult? && t.log[|o.log|].result == o.session.pending.value.message;
    }
  }

  lemma AnswersGrow(o: O.OwnerState, now: U64, e: O.Environment)
    ensures Grows(o, O.Receive(o, now, e))
  {
    hide O.Disconnect, O.Fail, O.IsClear, O.IsQuery, O.IsActivation, O.IsSubmission, PS.Launch, O.Summarize;
    DisconnectGrows(o, now, e);
    if e.receive.Got? {
      var m := e.receive.message;
      DisconnectGrows(o.(session := o.session.(lastRequest := m.request, lastOperation := m.operation)), now, e);
    }
  }

  lemma AttachGrows(o: O.OwnerState, usable: bool, now: U64, e: O.Environment)
    ensures Grows(o, O.Attach(o, usable, now, e).0)
  {
    hide O.Disconnect, O.Fail;
    DisconnectGrows(o, o.lastNow, e);
  }

  lemma PollGrows(o: O.OwnerState, now: U64, e: O.Environment)
    requires O.HasRoom(o)
    ensures Grows(o, O.PollOwner(o, now, e))
    ensures var sent := O.SentBy(o, now, e);
      sent.Some? && ReportsChild(sent.value) ==> WasSent(O.PollOwner(o, now, e).log, sent.value)
  {
    hide O.CheckClock, O.ObserveNative, O.QueueResult, O.Flush, O.Receive, O.HasRoom, O.Sends;
    O.CheckClockKeepsRoom(o, now, e);
    var t := O.PollTime(o, now);
    MessagesGrow(o, now, e);
    var o0 := O.CheckClock(o, now, e);
    ObserveGrows(o0, t, e);
    MessagesGrow(O.ObserveNative(o0, t, e), t, e);
    var o2 := O.BeforeSending(o, now, e);
    MessagesGrow(o2, t, e);
    var o3 := O.Flush(o2, t, e);
    MessagesGrow(o3, t, e);
    var o4 := O.BeforeReceiving(o, now, e);
    AnswersGrow(o4, t, e);
    var sent := O.SentBy(o, now, e);
    if sent.Some? && ReportsChild(sent.value) {
      var j :| 0 <= j < |o3.log| && o3.log[j].SentResult? && o3.log[j].result == sent.value;
      assert O.PollOwner(o, now, e).log[j] == o3.log[j];
    }
  }

  // ---------- What every move keeps ----------

  /** A link nobody at the owner's end attends to only sees the history grow. */
  lemma IdleLinkKeeps(o: O.OwnerState, t: O.OwnerState, l: Link, session: U64)
    requires LinkInv(o, l, session) && Grows(o, t) && !IsLive(t, session)
    ensures LinkInv(t, l, session)
  {
    hide Expects, Aligned, CR.ClientInv, RepliesAreSent, ValueIsSent, Grows;
    GrowsSent(o, t, l.toClient, l.client, session);
    var closed := o.(session := o.session.(connected := false));
    LeavingConverses(l.client, l.toOwner, l.toClient, o, l.toOwner, closed, session);
  }

  lemma LinksKeep(s: System, t: System, except: U64)
    requires SystemInv(s) && Grows(s.owner, t.owner) && s.owner.session.epoch <= t.owner.session.epoch
    requires forall session :: session in t.links && session != except ==>
               session in s.links && t.links[session] == s.links[session] && !IsLive(t.owner, session)
    requires OC.IsTended(t.owner, t.world)
    requires except in t.links ==> 2 <= except <= t.owner.session.epoch && LinkInv(t.owner, t.links[except], except)
    ensures SystemInv(t)
  {
    hide LinkInv, OC.IsTended, Grows, IsLive;
    forall session | session in t.links
      ensures 2 <= session <= t.owner.session.epoch && LinkInv(t.owner, t.links[session], session)
    {
      if session != except { IdleLinkKeeps(s.owner, t.owner, s.links[session], session); }
    }
  }

  lemma NewLinkIsValid(o: O.OwnerState, hostTime: U64, now: U64)
    requires o.session == O.Session(true, o.session.epoch, false, 0, 0, 0, 0,
                                    Some(O.Pending(Reply(P.Hello, o.session.epoch, 0), now)))
    requires o.session.epoch >= 2 && o.work.operation == 0
    ensures LinkInv(o, Link(C.NewClient(hostTime), [], []), o.session.epoch)
  {
    CR.NewClientIsValid(hostTime);
    var c := C.NewClient(hostTime);
    assert Replies([], o.session) == [Reply(P.Hello, o.session.epoch, 0)];
  }

  lemma AttachTends(o: O.OwnerState, w: OC.World, usable: bool, now: U64, e: O.Environment)
    requires OC.IsTended(o, w)
    ensures var (t, attached) := O.Attach(o, usable, now, e);
      && OC.IsTended(t, if attached then w else OC.Onward(o, w, t))
      && (!attached ==> t == o || !t.session.connected) && (attached ==> !o.session.connected && o.work.operation == 0)
      && o.session.epoch <= t.session.epoch && (!attached ==> t.session.epoch == o.session.epoch)
  {
    hide SV.SupervisedInv, O.Disconnect, O.Fail, OI.IsHistory, O.Summarize;
    OI.AttachKeeps(o, usable, now, e);
    OC.FailAndDisconnectTends(o, w, o.lastNow, e);
    OI.FailAndDisconnectKeeps(o, o.lastNow, e);
    var (t, attached) := O.Attach(o, usable, now, e);
    if t == o { assert OC.Onward(o, w, t) == w; }
  }

  lemma AttachedKeepsSystem(s: System, usable: bool, now: U64, hostTime: U64, e: O.Environment)
    requires SystemInv(s) && O.Attach(s.owner, usable, now, e).1
    ensures SystemInv(AfterAttach(s, usable, now, hostTime, e))
  {
    var o := s.owner;
    var t := O.Attach(o, usable, now, e).0;
    var u := AfterAttach(s, usable, now, hostTime, e);
    AttachGrows(o, usable, now, e);
    AttachTends(o, s.world, usable, now, e);
    assert o.session.epoch >= 1 by { EpochIsPositive(o); }
    NewLinkIsValid(t, hostTime, now);
    assert t.session.epoch == o.session.epoch + 1;
    LinksKeep(s, u, t.session.epoch);
  }

  lemma {:induction false} SessionsArePositive(log: seq<O.Event>)
    requires OI.IsHistory(log)
    ensures O.Summarize(log).session >= 1
  {
    if log == [] {
    } else {
      SessionsArePositive(log[..|log| - 1]);
    }
  }

  lemma EpochIsPositive(o: O.OwnerState)
    requires OI.OwnerInv(o)
    ensures o.session.epoch >= 1
  {
    SessionsArePositive(o.log);
  }

  lemma AttachKeepsSystem(s: System, usable: bool, now: U64, hostTime: U64, e: O.Environment)
    requires SystemInv(s)
    ensures SystemInv(AfterAttach(s, usable, now, hostTime, e))
  {
    hide LinkInv, OC.IsTended, Grows, O.Attach;
    var o := s.owner;
    var (t, attached) := O.Attach(o, usable, now, e);
    if attached { AttachedKeepsSystem(s, usable, now, hostTime, e); }
    else {
      var u := AfterAttach(s, usable, now, hostTime, e);
      AttachGrows(o, usable, now, e);
      AttachTends(o, s.world, usable, now, e);
      if t == o { assert OC.Onward(o, s.world, t) == s.world; }
      else {
        LinksKeep(s, u, 0);
      }
    }
  }

  lemma SendsForSession(o: O.OwnerState, w: OC.World, now: U64, e: O.Environment)
    requires OC.IsTended(o, w) && OC.IsAbout(o, w, O.PollTime(o, now), e)
    ensures O.HasRoom(o)
    ensures var sent := O.SentBy(o, now, e); sent.Some? ==> sent.value.session == o.session.epoch
  {
    hide OC.IsTended, OC.IsAbout, O.BeforeSending, O.HasRoom, OC.Follows, OC.RestOfPipe, O.CheckClock,
         O.BeforeReceiving, O.ObserveNative;
    OC.BeforeReceivingTends(o, w, now, e);
    EpochsAgree(o, now, e);
    assert OI.PendingIsConsistent(O.BeforeSending(o, now, e).session, O.BeforeSending(o, now, e).work);
  }

  lemma SentRepliesAreSent(o: O.OwnerState, w: OC.World, l: Link, now: U64, e: O.Environment, session: U64)
    requires OC.IsTended(o, w) && OC.IsAbout(o, w, O.PollTime(o, now), e) && o.session.epoch == session
    requires RepliesAreSent(o.log, l.toClient, session)
    ensures O.HasRoom(o)
    ensures RepliesAreSent(O.PollOwner(o, now, e).log, Sent(l.toClient, o, now, e), session)
  {
    hide OC.IsTended, OC.IsAbout, O.PollOwner, O.SentBy, O.HasRoom, WasSent, RepliesAreSent;
    SendsForSession(o, w, now, e);
    PollGrows(o, now, e);
    var t := O.PollOwner(o, now, e);
    GrowsSent(o, t, l.toClient, l.client, session);
    var sent := O.SentBy(o, now, e);
    if sent.Some? { OneMoreSent(t.log, l.toClient, sent.value, session); }
  }

  lemma OneMoreSent(log: seq<O.Event>, replies: seq<Message>, m: Message, session: U64)
    requires RepliesAreSent(log, replies, session) && m.session == session && (ReportsChild(m) ==> WasSent(log, m))
    ensures RepliesAreSent(log, replies + [m], session)
  {
    hide WasSent;
  }

  lemma OwnerPollKeepsLink(o: O.OwnerState, w: OC.World, l: Link, now: U64, e: O.Environment, session: U64)
    requires OC.IsTended(o, w) && OC.IsAbout(o, w, O.PollTime(o, now), e) && o.session.epoch == session
    requires LinkInv(o, l, session) && (e.receive.Got? ==> l.toOwner != [] && e.receive.message == l.toOwner[0])
    ensures O.HasRoom(o)
    ensures LinkInv(O.PollOwner(o, now, e),
                    l.(toOwner := Left(l.toOwner, o, now, e), toClient := Sent(l.toClient, o, now, e)), session)
  {
    hide OC.IsTended, OC.IsAbout, O.PollOwner, O.HasRoom, RepliesAreSent, ValueIsSent, Converses, CR.ClientInv, Sent,
         Left;
    OwnerPollConverses(l.client, l.toOwner, l.toClient, o, w, now, e, session);
    SentRepliesAreSent(o, w, l, now, e, session);
    PollGrows(o, now, e);
    GrowsSent(o, O.PollOwner(o, now, e), l.toClient, l.client, session);
  }

  lemma OwnerPollKeepsSystem(s: System, now: U64, e: O.Environment)
    requires SystemInv(s) && Possible(s, OwnerPolls(now, e))
    ensures SystemInv(AfterOwnerPoll(s, now, e))
  {
    hide LinkInv, OC.IsTended, OC.IsAbout, O.PollOwner, O.HasRoom, OC.WorldAfter, Grows, Left, Sent, O.PollTime;
    var session := s.owner.session.epoch;
    var t := AfterOwnerPoll(s, now, e);
    OC.PollKeepsTending(s.owner, s.world, now, e);
    PollGrows(s.owner, now, e);
    EpochsAgree(s.owner, now, e);
    if session in s.links { OwnerPollKeepsLink(s.owner, s.world, s.links[session], now, e, session); }
    LinksKeep(s, t, session);
  }

  // ---------- The client's and the child's moves ----------

  /** The value a client shows, and what it is for. */
  predicate ShowsTheSame(c: C.ClientState, d: C.ClientState) {
    d.value == c.value && d.operation == c.operation && d.iterations == c.iterations
  }

  /** A value newly shown is that of the message just handled. */
  predicate ShowsMessage(c: C.ClientState, m: Message, d: C.ClientState) {
    && d.operation.Some? && d.value.Some? && m.session == c.epoch && ReportsChild(m)
    && m == ShownBy(d, c.epoch, m.request)
  }

  lemma ResultShows(c: C.ClientState, m: Message)
    requires C.CanObserveNative(c) && C.IsResult(c, m) && m.session == c.epoch
    requires m.operation == c.operation.value.operationId && m.amount == c.iterations
    ensures var d := C.AcceptResult(c, m, c.lastTime); ShowsTheSame(c, d) || ShowsMessage(c, m, d)
  {
    hide CC.GS.ObserveNative, CC.GS.ObserveOutputAccepted, CC.GS.ObserveOutputNotDelivered, CC.GS.ObserveSettlement,
         CC.GS.CanDeliverResult, ExpectedSum, C.NativeId;
  }

  lemma OfferShowsNothing(c: C.ClientState, kind: CC.G.StartupEvidenceKind)
    requires c.gate.Some? && c.candidate.Some?
    ensures ShowsTheSame(c, C.CommitRecovery(c, c.lastTime))
    ensures c.queryAt <= MAX_U64 - EVIDENCE_LIFETIME_MS ==>
      var d := C.Offer(c, kind, c.lastTime);
      ShowsTheSame(c, d) && d.lastTime == c.lastTime && d.queryAt == c.queryAt && d.candidate == c.candidate
        && d.gate.Some?
  {
    hide CC.GS.ObserveReadiness, CC.GS.CommitRebind;
  }

  lemma ActivationShowsNothing(c: C.ClientState, m: Message)
    requires c.gate.Some? && c.queryAt <= MAX_U64 - EVIDENCE_LIFETIME_MS
    ensures ShowsTheSame(c, C.AcceptActivation(c, m, c.lastTime))
  {
    hide C.Offer, C.CommitRecovery;
    if c.candidate.Some? {
      OfferShowsNothing(c, CC.G.BindingIdleAndSettled);
      var c1 := C.Offer(c, CC.G.BindingIdleAndSettled, c.lastTime);
      OfferShowsNothing(c1, CC.G.AdapterReady);
      var c2 := C.Offer(c1, CC.G.AdapterReady, c.lastTime);
      OfferShowsNothing(c2, CC.G.ResultSinkReady);
      OfferShowsNothing(C.Offer(c2, CC.G.ResultSinkReady, c.lastTime), CC.G.ResultSinkReady);
    }
  }

  lemma SnapshotShowsNothing(c: C.ClientState, m: Message)
    requires c.gate.Some? && CC.GS.Callable(c.gate.value)
    ensures ShowsTheSame(c, C.AcceptSnapshot(c, m, c.lastTime))
  {
    hide CC.GS.BeginRebind;
  }

  lemma AcceptanceShowsNothing(c: C.ClientState)
    ensures C.CanObserveNative(c) ==> ShowsTheSame(c, C.ReportNative(c, CC.G.AcceptedEvent, c.lastTime))
  {
    hide CC.GS.ObserveNative, C.NativeId;
  }

  lemma HandlingShows(c: C.ClientState, m: Message)
    requires C.CanHandle(c)
    ensures var d := C.Handle(c, m, c.lastTime); ShowsTheSame(c, d) || ShowsMessage(c, m, d)
  {
    hide CC.GS.WithdrawBinding, C.AcceptSnapshot, C.AcceptActivation, C.AcceptResult, C.ReportNative, C.IsResult,
         C.IsAcceptance;
    if c.exchange != C.HelloExchange {
      SnapshotShowsNothing(c, m);
      if c.queryAt <= MAX_U64 - EVIDENCE_LIFETIME_MS { ActivationShowsNothing(c, m); }
      AcceptanceShowsNothing(c);
      if c.operation.Some? && C.IsResult(c, m) && m.session == c.epoch
         && m.operation == c.operation.value.operationId && m.amount == c.iterations { ResultShows(c, m); }
    }
  }

  /** Up to receiving, a poll changes neither what is shown nor whose session it is. */
  lemma SendingShowsNothing(c: C.ClientState, now: U64, send: SendOutcome)
    ensures var d := C.SendPending(C.Advance(c, now), now, send);
      && ShowsTheSame(c, C.Advance(c, now)) && ShowsTheSame(c, d) && d.epoch == c.epoch
      && (C.MayReceiveNow(d) && !C.IsClosed(C.Advance(c, now)) ==> d.lastTime == now)
      && (C.CanHandle(c) && !C.IsClosed(d) ==> C.CanHandle(d))
      && (C.IsClosed(C.Advance(c, now)) ==> C.IsClosed(d))
  {
  }

  lemma ReceivingShows(c: C.ClientState, receive: ReceiveOutcome)
    requires C.CanHandle(c)
    ensures var d := C.ReceiveNow(c, c.lastTime, receive);
      || ShowsTheSame(c, d)
      || (receive.Got? && !(C.Waits(c) && !IsFresh(c.issuedAt, c.lastTime)) && ShowsMessage(c, receive.message, d))
  {
    hide C.Handle, C.CanHandle, ShowsMessage;
    if receive.Got? { HandlingShows(c, receive.message); }
  }

  lemma PollShows(c: C.ClientState, now: U64, send: SendOutcome, receive: ReceiveOutcome)
    requires C.CanHandle(c)
    ensures var d := C.PollClient(c, now, send, receive);
      || ShowsTheSame(c, d)
      || (receive.Got? && C.PollTakes(c, now, send, receive) && ShowsMessage(c, receive.message, d))
  {
    hide C.Advance, C.SendPending, C.ReceiveNow, C.CanHandle;
    SendingShowsNothing(c, now, send);
    var c2 := C.SendPending(C.Advance(c, now), now, send);
    if !C.IsClosed(C.Advance(c, now)) && C.MayReceiveNow(c2) { ReceivingShows(c2, receive); }
  }

  lemma PolledValueIsSent(o: O.OwnerState, l: Link, now: U64, send: SendOutcome, receive: ReceiveOutcome, session: U64)
    requires LinkInv(o, l, session) && !C.IsClosed(l.client) && C.CanHandle(l.client)
    requires receive.Got? ==> l.toClient != [] && receive.message == l.toClient[0]
    ensures ValueIsSent(o.log, C.PollClient(l.client, now, send, receive), session)
  {
    hide Converses, CR.ClientInv, C.PollClient, C.CanHandle, WasSent, C.PollTakes;
    var c := l.client;
    PollShows(c, now, send, receive);
    HelloHasNoValue(o, l, session);
    var d := C.PollClient(c, now, send, receive);
    if d.value.Some? {
      if ShowsTheSame(c, d) {
        var request :| WasSent(o.log, ShownBy(c, session, request));
        assert ShownBy(d, session, request) == ShownBy(c, session, request);
      } else {
        assert receive.message == ShownBy(d, session, receive.message.request);
      }
    }
  }

  lemma ClientPollKeepsLink(o: O.OwnerState, l: Link, now: U64, send: SendOutcome, receive: ReceiveOutcome,
                            session: U64)
    requires LinkInv(o, l, session) && !C.IsClosed(l.client)
    requires receive.Got? ==> l.toClient != [] && receive.message == l.toClient[0]
    ensures C.CanHandle(l.client) && LinkInv(o, AfterClientPoll(l, now, send, receive), session)
  {
    hide Converses, CR.ClientInv, C.PollClient, C.CanHandle, WasSent, C.PollTakes, CC.ToOwnerAfter, ValueIsSent;
    var c := l.client;
    CC.ClientPollConverses(c, l.toOwner, l.toClient, o, now, send, receive, session);
    CR.PollKeeps(c, now, send, receive);
    PolledValueIsSent(o, l, now, send, receive, session);
  }

  /** A client shows only what came in its own session. */
  lemma HelloHasNoValue(o: O.OwnerState, l: Link, session: U64)
    requires LinkInv(o, l, session) && !C.IsClosed(l.client)
    ensures l.client.exchange == C.HelloExchange || l.client.epoch == session
    ensures l.client.exchange == C.HelloExchange && l.toClient != [] ==> !ReportsChild(l.toClient[0])
  {
    if l.toClient != [] { assert Replies(l.toClient, o.session)[0] == l.toClient[0]; }
  }

  lemma ClientCallKeepsLink(o: O.OwnerState, l: Link, d: C.ClientState, session: U64)
    requires LinkInv(o, l, session) && CR.ClientInv(d) && d.cause != Some(C.OutOfPlace)
    requires Converses(d, l.toOwner, l.toClient, o, session) && (ShowsTheSame(l.client, d) || d.value.None?)
    ensures LinkInv(o, l.(client := d), session)
  {
    hide Converses, CR.ClientInv, WasSent;
    if d.value.Some? {
      var request :| WasSent(o.log, ShownBy(l.client, session, request));
      assert ShownBy(d, session, request) == ShownBy(l.client, session, request);
    }
  }

  lemma ClientCallsKeepLink(o: O.OwnerState, l: Link, n: U64, now: U64, session: U64)
    requires LinkInv(o, l, session) && !C.IsClosed(l.client)
    ensures l.client.phase == C.ReadyToSubmit ==> l.client.gate.Some?
    ensures LinkInv(o, l.(client := C.Recover(l.client, now).0), session)
    ensures LinkInv(o, l.(client := C.SubmitWork(l.client, n, now).0), session)
  {
    var c := l.client;
    CC.RecoverConverses(c, l.toOwner, l.toClient, o, now, session);
    CR.RecoverKeeps(c, now);
    CC.SubmitConverses(c, l.toOwner, l.toClient, o, n, now, session);
    CR.SubmitKeeps(c, n, now);
    ClientCallKeepsLink(o, l, C.Recover(c, now).0, session);
    ClientCallKeepsLink(o, l, C.SubmitWork(c, n, now).0, session);
  }

  lemma ClientClosesKeepsLink(o: O.OwnerState, l: Link, session: U64)
    requires LinkInv(o, l, session)
    ensures LinkInv(o, l.(client := C.CloseClient(l.client, C.ByCaller)), session)
  {
    hide Converses, CR.ClientInv;
    var d := C.CloseClient(l.client, C.ByCaller);
    CR.CloseKeeps(l.client, C.ByCaller);
    CC.ClosedConverses(d, l.toOwner, l.toClient, o, session);
    ClientCallKeepsLink(o, l, d, session);
  }

  lemma ChildMoveTends(o: O.OwnerState, w: OC.World, move: SV.Move)
    requires OC.IsTended(o, w) && o.process.Some? && (move.ChildTurn? || move.Kill?)
    requires SV.Enabled(OC.Joined(w, o.process.value), move)
    ensures |o.process.value.stream.buffer| < 32 && W.InRange(o.process.value.limit, w.trace.child)
    ensures var t := SV.Apply(OC.Joined(w, o.process.value), move);
      OC.IsTended(o, OC.World(t.trace, t.killed, t.stopCommand, t.pipe))
  {
    hide OI.OwnerInv, SV.Watches, W.Step, SV.Enabled;
    SV.MoveKeeps(OC.Joined(w, o.process.value), move);
    var t := SV.Apply(OC.Joined(w, o.process.value), move);
    assert OC.Joined(OC.World(t.trace, t.killed, t.stopCommand, t.pipe), o.process.value) == t;
  }

  /** Every move of every party keeps the whole protocol's invariant. */
  lemma MoveKeepsSystem(s: System, m: Move)
    requires SystemInv(s) && Possible(s, m)
    ensures SystemInv(Next(s, m))
  {
    hide LinkInv, OC.IsTended, AfterAttach, AfterOwnerPoll, AfterClientPoll, C.Recover, C.SubmitWork, C.CloseClient,
         Grows;
    match m
    case HostAttaches(usable, now, hostTime, e) => AttachKeepsSystem(s, usable, now, hostTime, e);
    case OwnerPolls(now, e) => OwnerPollKeepsSystem(s, now, e);
    case ClientPolls(session, now, send, receive) =>
      ClientPollKeepsLink(s.owner, s.links[session], now, send, receive, session);
    case ClientRecovers(session, now) => ClientCallsKeepLink(s.owner, s.links[session], 0, now, session);
    case ClientSubmits(session, n, now) => ClientCallsKeepLink(s.owner, s.links[session], n, now, session);
    case ClientCloses(session) => ClientClosesKeepsLink(s.owner, s.links[session], session);
    case ChildMoves(move) => ChildMoveTends(s.owner, s.world, move);
  }
}
