/**
 The owner together with the real child it supervises: through every call of the owner the child,
 its pipe and the owner's process stay one sound machine, so a result is what the child computed.
 */
module OwnedChild {
  import opened Machine
  import opened Sums
  import opened Frames
  import opened Workers
  import opened ProcessSpec
  import opened Supervision
  import P = RecoveryProtocol
  import opened OwnerSpec
  import OI = OwnerInvariant

  /** The child as the system has it: its program, whether it was killed, and the two channels. */
  datatype World = World(trace: Trace, killed: bool, stopCommand: bool, pipe: seq<Byte>)

  const NEWBORN := World(Trace(Starting, []), false, false, [])

  function Joined(w: World, p: ProcessState): Supervised {
    Supervised(w.trace, w.killed, w.stopCommand, w.pipe, p)
  }

  /** The owner's process is the owner of exactly this child. */
  ghost predicate Tends(o: OwnerState, w: World) {
    o.process.Some? ==> SupervisedInv(Joined(w, o.process.value))
  }

  predicate HasDelivered(o: OwnerState) {
    o.process.Some? && o.process.value.stopping.delivered
  }

  /** A stop command sent is on its way to the child. */
  function Onward(o: OwnerState, w: World, t: OwnerState): World {
    w.(stopCommand := w.stopCommand || (HasDelivered(t) && !HasDelivered(o)))
  }

  /** A result in hand is true: the exact sum, or no value. */
  predicate ResultIsTrue(w: Work) {
    w.result.Some? ==>
      var m := w.result.value;
      && m.kind == P.Result && m.session == w.session && m.request == w.request
      && m.operation == w.operation && m.amount == w.amount
      && (m.flags == P.SUCCEEDED || m.flags == P.FAILED)
      && m.value == (if m.flags == P.SUCCEEDED then SumTo(m.amount) else 0)
  }

  /** What holds of the owner and its child between calls. */
  ghost predicate IsTended(o: OwnerState, w: World) {
    OI.OwnerInv(o) && Tends(o, w) && ResultIsTrue(o.work)
  }

  /** The owner by itself, in any stage of a call. */
  predicate HasTrueResult(o: OwnerState) {
    OI.OwnerInv(o) && ResultIsTrue(o.work)
  }

  // ---------- The process ----------

  lemma StopTends(w: World, p: ProcessState, now: U64, error: Option<int>)
    requires SupervisedInv(Joined(w, p))
    ensures var q := RequestStop(p, now, error);
      && SupervisedInv(Joined(w.(stopCommand := w.stopCommand || (q.stopping.delivered && !p.stopping.delivered)), q))
      && (p.stopping.delivered ==> q.stopping.delivered)
  {
    hide Watches;
    AskStopKeeps(Joined(w, p), now, error);
  }

  lemma PollTends(w: World, p: ProcessState, now: U64, i: PollInput)
    requires SupervisedInv(Joined(w, p)) && Enabled(Joined(w, p), PollProcess(now, i))
    ensures |p.stream.buffer| < FRAME_BYTES
    ensures var (q, rest) := Poll(p, now, w.pipe, i);
      SupervisedInv(Joined(w.(pipe := rest), q)) && q.stopping.delivered == p.stopping.delivered
  {
    hide Watches, Drain;
    Supervision.PollKeeps(Joined(w, p), now, i);
  }

  lemma CloseTends(w: World, p: ProcessState, c: Option<int>, e: Option<int>)
    requires SupervisedInv(Joined(w, p))
    ensures var q := CloseChannels(p, c, e).0;
      && SupervisedInv(Joined(w, q)) && IsTrue(q.limit, q.stream.view) && q.limit == p.limit
      && q.stopping == p.stopping && q.stream.view == p.stream.view
  {
    hide Watches, IsTrue;
    Supervision.CloseKeeps(Joined(w, p), c, e);
    SoundIsTrue(Joined(w, CloseChannels(p, c, e).0));
  }

  // ---------- Stages ----------

  lemma DisconnectTends(o: OwnerState, w: World, now: U64, e: Environment)
    requires IsTended(o, w)
    ensures var d := Disconnect(o, now, e);
      IsTended(d, Onward(o, w, d)) && d.counters.launches == o.counters.launches
        && (HasDelivered(o) ==> HasDelivered(d))
  {
    hide OI.OwnerInv, SupervisedInv, RequestStop;
    OI.DisconnectKeeps(o, now, e);
    if o.process.Some? { StopTends(w, o.process.value, now, e.stopSend); }
  }

  /** How a stage of a poll leaves the owner and its child. */
  ghost predicate Follows(o: OwnerState, w: World, t: OwnerState) {
    && IsTended(t, Onward(o, w, t)) && t.counters.launches == o.counters.launches
    && (t.process.Some? ==> o.process.Some?)
    && (HasDelivered(o) && t.process.Some? ==> HasDelivered(t))
  }

  lemma TendedMeans(o: OwnerState, w: World)
    requires IsTended(o, w)
    ensures OI.OwnerInv(o) && ResultIsTrue(o.work) && HasTrueResult(o)
  {
  }

  lemma FollowsMeans(o: OwnerState, w: World, t: OwnerState)
    requires Follows(o, w, t)
    ensures IsTended(t, Onward(o, w, t)) && HasTrueResult(t) && t.counters.launches == o.counters.launches
  {
  }

  lemma FollowsComposes(o: OwnerState, w: World, t: OwnerState, u: OwnerState)
    requires Follows(o, w, t) && Follows(t, Onward(o, w, t), u)
    ensures Follows(o, w, u)
  {
    hide OI.OwnerInv, SupervisedInv, ResultIsTrue;
    if u.process.Some? { assert Onward(t, Onward(o, w, t), u) == Onward(o, w, u); }
  }

  lemma DisconnectFollows(o: OwnerState, w: World, now: U64, e: Environment)
    requires IsTended(o, w)
    ensures Follows(o, w, Disconnect(o, now, e)) && !Disconnect(o, now, e).session.connected
  {
    hide OI.OwnerInv, SupervisedInv, Disconnect, ResultIsTrue;
    DisconnectTends(o, w, now, e);
    OI.DisconnectKeeps(o, now, e);
  }

  lemma FailTends(o: OwnerState, w: World)
    requires IsTended(o, w)
    ensures IsTended(Fail(o), w) && Fail(o).process == o.process && Fail(o).counters == o.counters
    ensures Fail(o).session == o.session && Fail(o).work == o.work
  {
    hide OI.OwnerInv, SupervisedInv;
    OI.FailKeeps(o);
  }

  lemma FailAndDisconnectTends(o: OwnerState, w: World, now: U64, e: Environment)
    requires IsTended(o, w)
    ensures Follows(o, w, Disconnect(Fail(o), now, e))
    ensures Disconnect(Fail(o), now, e).process.Some? <==> o.process.Some?
  {
    hide OI.OwnerInv, SupervisedInv, Disconnect, Fail, ResultIsTrue;
    FailTends(o, w);
    DisconnectTends(Fail(o), w, now, e);
    OI.FailAndDisconnectKeeps(o, now, e);
  }

  lemma CheckClockTends(o: OwnerState, w: World, now: U64, e: Environment)
    requires IsTended(o, w)
    ensures Follows(o, w, CheckClock(o, now, e))
  {
    hide SupervisedInv, Disconnect, Fail, OI.OwnerInv;
    OI.CheckClockKeeps(o, now, e);
    FailAndDisconnectTends(o, w, o.lastNow, e);
  }

  /** The result of a reaped child is true because what it reported is. */
  lemma ReapTends(o: OwnerState, closed: ProcessState)
    requires OI.OwnerInv(o) && o.process.Some? && OI.OwnerInv(Reap(o, closed)) && ResultIsTrue(o.work)
    requires IsTrue(closed.limit, closed.stream.view) && closed.limit == o.process.value.limit
    requires closed.stream.view.stopRequested == o.process.value.stream.view.stopRequested
    ensures ResultIsTrue(Reap(o, closed).work)
  {
    hide OI.IsHistory, Summarize, SumTo;
    if o.work.operation != 0 && ResultOf(o.work, closed).flags == P.SUCCEEDED {
      assert closed.limit == o.work.amount;
    }
  }

  lemma CloseChildTends(o: OwnerState, w: World, now: U64, e: Environment)
    requires IsTended(o, w) && o.process.Some?
    ensures Follows(o, w, CloseChild(o, now, e))
  {
    hide SupervisedInv, Disconnect, Fail, CloseChannels, IsTrue, OI.HistoryMatches, OI.IsHistory, Summarize,
         ResultIsTrue, ResultOf;
    var p := o.process.value;
    var (q, closed) := CloseChannels(p, e.controlClose, e.eventClose);
    CloseTends(w, p, e.controlClose, e.eventClose);
    OI.CloseOutcome(p, e.controlClose, e.eventClose);
    if closed {
      OI.ReapKeeps(o, q);
      ReapTends(o, q);
    } else {
      OI.ReplaceKeeps(o, q);
      FailAndDisconnectTends(o.(process := Some(q)), w, now, e);
    }
  }

  lemma AfterPollTends(o: OwnerState, w: World, now: U64, e: Environment)
    requires IsTended(o, w) && o.process.Some?
    ensures Follows(o, w, AfterPoll(o, now, e))
  {
    hide SupervisedInv, Disconnect, Fail, CloseChild, OI.OwnerInv, ResultIsTrue;
    var o1 := if IsBad(o.process.value) then Disconnect(Fail(o), now, e) else o;
    FailAndDisconnectTends(o, w, now, e);
    if IsFinished(o1.process.value) {
      CloseChildTends(o1, Onward(o, w, o1), now, e);
      FollowsComposes(o, w, o1, CloseChild(o1, now, e));
    }
  }

  function RestOfPipe(o: OwnerState, now: U64, e: Environment): seq<Byte>
    requires HasRoom(o)
  {
    if o.process.None? then e.pipe else Poll(o.process.value, now, e.pipe, e.poll).1
  }

  /** What the environment may answer about the child this owner has. */
  ghost predicate IsAbout(o: OwnerState, w: World, now: U64, e: Environment) {
    && e.pipe == w.pipe
    && (o.process.Some? ==> Enabled(Joined(w, o.process.value), PollProcess(now, e.poll)))
  }

  lemma ObserveNativeTends(o: OwnerState, w: World, now: U64, e: Environment)
    requires IsTended(o, w) && IsAbout(o, w, now, e)
    ensures HasRoom(o)
    ensures Follows(o, w.(pipe := RestOfPipe(o, now, e)), ObserveNative(o, now, e))
  {
    hide SupervisedInv, AfterPoll, Enabled, Poll, OI.HistoryMatches, OI.IsHistory, Summarize, ResultIsTrue;
    if o.process.Some? {
      var p := o.process.value;
      PollTends(w, p, now, e.poll);
      var q := Poll(p, now, e.pipe, e.poll).0;
      OI.PollOnlyObserves(p, now, e.pipe, e.poll);
      OI.ReplaceKeeps(o, q);
      var v := w.(pipe := RestOfPipe(o, now, e));
      var o1 := o.(process := Some(q));
      assert Onward(o, v, o1) == v;
      AfterPollTends(o1, v, now, e);
      FollowsComposes(o, v, o1, AfterPoll(o1, now, e));
    }
  }

  lemma QueueResultTends(o: OwnerState, w: World, now: U64)
    requires IsTended(o, w) && o.session.connected
    ensures Follows(o, w, QueueResult(o, now))
  {
    hide SupervisedInv, OI.OwnerInv, ResultIsTrue;
    OI.QueueResultKeeps(o, now);
    assert Onward(o, w, QueueResult(o, now)) == w;
  }

  /** A stage that does not touch the process. */
  lemma SameProcess(o: OwnerState, w: World, t: OwnerState)
    requires IsTended(o, w) && OI.OwnerInv(t) && t.process == o.process && ResultIsTrue(t.work)
    requires t.counters.launches == o.counters.launches
    ensures Follows(o, w, t)
  {
    hide OI.OwnerInv, SupervisedInv, ResultIsTrue;
    assert Onward(o, w, t) == w;
  }

  lemma FlushTends(o: OwnerState, w: World, now: U64, e: Environment)
    requires IsTended(o, w)
    ensures Follows(o, w, Flush(o, now, e))
  {
    hide SupervisedInv, OI.OwnerInv, Disconnect;
    OI.FlushKeeps(o, now, e);
    DisconnectFollows(o, w, now, e);
    var t := Flush(o, now, e);
    if t.session.connected || t == o { SameProcess(o, w, t); }
    else { assert t == Disconnect(o, now, e); }
  }

  lemma NewbornIsSpawn(amount: U64, stopGrace: U64, outcome: LaunchOutcome)
    requires outcome.Spawned? && 0 < amount <= MAXIMUM_ITERATIONS
    ensures Joined(NEWBORN, Launch(NewProcess(amount, stopGrace), outcome).0)
            == Spawn(amount, stopGrace, outcome.closeError)
  {
  }

  lemma AnswersKeepProcess(o: OwnerState, m: P.Message, now: U64, canLaunch: bool)
    ensures var t := AnswerQuery(o, m, now, canLaunch);
      t.process == o.process && t.work == o.work && t.counters == o.counters
    ensures var t := AnswerActivation(o, m, now);
      t.process == o.process && t.work == o.work && t.counters == o.counters
  {
  }

  lemma AnswerSubmissionTends(o: OwnerState, w: World, m: P.Message, now: U64, e: Environment)
    requires IsTended(o, w) && MayReceive(o) && IsSubmission(o, m, e.canLaunch) && m.request > o.session.lastRequest
    ensures var t := AnswerSubmission(o, m, now, e);
      if t.counters.launches == o.counters.launches then Follows(o, w, t) else IsTended(t, NEWBORN)
  {
    hide SupervisedInv, Disconnect, Fail, OI.IsHistory, Summarize, Launch, OI.HistoryMatches;
    OI.AnswerSubmissionKeeps(o, m, now, e);
    var o1 := o.(session := o.session.(lastRequest := m.request, lastOperation := m.operation));
    OI.HistoryIgnoresSession(o, o1.session, Summarize(o.log));
    assert IsTended(o1, w);
    FailAndDisconnectTends(o, w, now, e);
    FailAndDisconnectTends(o1, w, now, e);
    var (p, launched) := Launch(NewProcess(m.amount, o.stopGrace), e.launch);
    OI.LaunchOutcomeOf(m.amount, o.stopGrace, e.launch);
    if launched {
      SpawnIsSound(m.amount, o.stopGrace, e.launch.closeError);
      NewbornIsSpawn(m.amount, o.stopGrace, e.launch);
    }
  }

  lemma ReceiveTends(o: OwnerState, w: World, now: U64, e: Environment)
    requires IsTended(o, w) && MayReceive(o)
    ensures var t := Receive(o, now, e);
      if t.counters.launches == o.counters.launches then Follows(o, w, t) else IsTended(t, NEWBORN)
  {
    hide SupervisedInv, Disconnect, AnswerSubmission, IsQuery, IsActivation, IsSubmission, OI.OwnerInv, IsTended,
         Follows, AnswerQuery, AnswerActivation;
    TendedMeans(o, w);
    OI.ReceiveKeeps(o, now, e);
    DisconnectFollows(o, w, now, e);
    var t := Receive(o, now, e);
    if e.receive.NothingThere? { SameProcess(o, w, t); }
    else if e.receive.Got? {
      var m := e.receive.message;
      AnswersKeepProcess(o, m, now, e.canLaunch);
      if m.session == o.session.epoch && m.request > o.session.lastRequest {
        if IsQuery(o, m) { SameProcess(o, w, t); }
        else if IsActivation(o, m, now, e.canLaunch) { SameProcess(o, w, t); }
        else if IsSubmission(o, m, e.canLaunch) { AnswerSubmissionTends(o, w, m, now, e); }
      }
    }
    LaunchesMatter(o, w, t);
  }

  lemma LaunchesMatter(o: OwnerState, w: World, t: OwnerState)
    ensures Follows(o, w, t) ==> t.counters.launches == o.counters.launches
  {
  }

  // ---------- A whole poll ----------

  /** The child after a poll of its owner: drained, perhaps told to stop, or newly launched. */
  ghost function WorldAfter(o: OwnerState, w: World, now: U64, e: Environment): World
    requires HasRoom(o)
  {
    CheckClockKeepsRoom(o, now, e);
    var t := PollOwner(o, now, e);
    if t.counters.launches != o.counters.launches then NEWBORN
    else Onward(o, w.(pipe := RestOfPipe(CheckClock(o, now, e), PollTime(o, now), e)), t)
  }

  lemma RoomOf(o: OwnerState)
    requires OI.OwnerInv(o)
    ensures HasRoom(o)
  {
  }

  /** What the clock check leaves of the process is what the environment was asked about. */
  lemma CheckedProcess(o: OwnerState, w: World, now: U64, e: Environment)
    requires IsTended(o, w) && IsAbout(o, w, PollTime(o, now), e)
    ensures IsAbout(CheckClock(o, now, e), Onward(o, w, CheckClock(o, now, e)), PollTime(o, now), e)
  {
    hide SupervisedInv, Disconnect, Fail;
    CheckClockTends(o, w, now, e);
  }

  lemma BeforeSendingTends(o: OwnerState, w: World, now: U64, e: Environment)
    requires IsTended(o, w) && IsAbout(o, w, PollTime(o, now), e)
    ensures HasRoom(o) && HasRoom(CheckClock(o, now, e))
    ensures var v := w.(pipe := RestOfPipe(CheckClock(o, now, e), PollTime(o, now), e));
      Follows(o, v, BeforeSending(o, now, e))
    ensures HasTrueResult(CheckClock(o, now, e))
    ensures HasTrueResult(ObserveNative(CheckClock(o, now, e), PollTime(o, now), e))
  {
    hide HasTrueResult, CheckClock, IsTended, Follows, ObserveNative, QueueResult, HasRoom, IsAbout;
    TendedMeans(o, w);
    RoomOf(o);
    CheckClockTends(o, w, now, e);
    CheckedProcess(o, w, now, e);
    var t := PollTime(o, now);
    var o0 := CheckClock(o, now, e);
    var w0 := Onward(o, w, o0);
    FollowsMeans(o, w, o0);
    TendedMeans(o0, w0);
    RoomOf(o0);
    var rest := RestOfPipe(o0, t, e);
    ObserveNativeTends(o0, w0, t, e);
    var o1 := ObserveNative(o0, t, e);
    assert Follows(o0, w0.(pipe := rest), o1);
    FollowsMeans(o0, w0.(pipe := rest), o1);
    PipeIsApart(o, w, o0, rest, o1);
    var v := w.(pipe := rest);
    if o1.session.connected {
      FollowsMeans(o, v, o1);
      QueueResultTends(o1, Onward(o, v, o1), t);
      FollowsComposes(o, v, o1, QueueResult(o1, t));
    }
  }

  lemma PipeIsApart(o: OwnerState, w: World, o0: OwnerState, rest: seq<Byte>, o1: OwnerState)
    requires Follows(o, w, o0) && Follows(o0, Onward(o, w, o0).(pipe := rest), o1)
    ensures Follows(o, w.(pipe := rest), o1)
  {
    hide OI.OwnerInv, SupervisedInv, ResultIsTrue;
    if o1.process.Some? {
      assert Onward(o0, Onward(o, w, o0).(pipe := rest), o1) == Onward(o, w.(pipe := rest), o1);
    }
  }

  lemma BeforeReceivingTends(o: OwnerState, w: World, now: U64, e: Environment)
    requires IsTended(o, w) && IsAbout(o, w, PollTime(o, now), e)
    ensures HasRoom(o) && HasRoom(CheckClock(o, now, e))
    ensures var v := w.(pipe := RestOfPipe(CheckClock(o, now, e), PollTime(o, now), e));
      Follows(o, v, BeforeReceiving(o, now, e))
    ensures HasTrueResult(BeforeSending(o, now, e))
    ensures HasTrueResult(Flush(BeforeSending(o, now, e), PollTime(o, now), e))
    ensures HasTrueResult(BeforeReceiving(o, now, e))
  {
    hide HasTrueResult, CheckClock, IsTended, Follows, Flush, BeforeSending, QueueResult, HasRoom, IsAbout,
         RestOfPipe;
    BeforeSendingTends(o, w, now, e);
    var t := PollTime(o, now);
    var v := w.(pipe := RestOfPipe(CheckClock(o, now, e), t, e));
    var o2 := BeforeSending(o, now, e);
    FollowsMeans(o, v, o2);
    FlushTends(o2, Onward(o, v, o2), t, e);
    var o3 := Flush(o2, t, e);
    FollowsComposes(o, v, o2, o3);
    FollowsMeans(o, v, o3);
    if o3.session.connected {
      QueueResultTends(o3, Onward(o, v, o3), t);
      FollowsComposes(o, v, o3, QueueResult(o3, t));
      FollowsMeans(o, v, QueueResult(o3, t));
    }
  }

  /** Whatever the owner does in a poll, its process stays the owner of exactly its child. */
  lemma PollKeepsTending(o: OwnerState, w: World, now: U64, e: Environment)
    requires IsTended(o, w) && IsAbout(o, w, PollTime(o, now), e)
    ensures HasRoom(o) && IsTended(PollOwner(o, now, e), WorldAfter(o, w, now, e))
  {
    hide CheckClock, IsTended, Follows, BeforeReceiving, Receive, HasRoom, IsAbout, RestOfPipe;
    BeforeReceivingTends(o, w, now, e);
    var t := PollTime(o, now);
    var v := w.(pipe := RestOfPipe(CheckClock(o, now, e), t, e));
    var o4 := BeforeReceiving(o, now, e);
    FollowsMeans(o, v, o4);
    if MayReceive(o4) {
      ReceiveTends(o4, Onward(o, v, o4), t, e);
      var o5 := Receive(o4, t, e);
      if o5.counters.launches == o4.counters.launches {
        FollowsComposes(o, v, o4, o5);
        FollowsMeans(o, v, o5);
      }
    }
  }
}
