/**
 What the owner answers: to each request, in terms of the request and of what the owner holds, and for each
 child it reaped.
 */
module OwnerAnswers {
  import opened Machine
  import opened Sums
  import opened Frames
  import opened ProcessSpec
  import P = RecoveryProtocol
  import opened RecoveryProtocol
  import opened OwnerSpec
  import opened OwnerInvariant
  import opened OwnerRuns

  // ---------- Children ----------

  /** Enough answers in a history hold the one for each child. */
  lemma {:induction false} AnswerExists(log: seq<Event>, j: nat, number: nat) returns (i: nat)
    requires IsHistory(log) && j <= |log|
    requires 1 <= number <= Summarize(log[..j]).sent + Summarize(log[..j]).discarded
    ensures i < j && Answers(log[i], number)
    decreases j
  {
    hide IsHistory, Summarize;
    NothingAtFirst(log);
    if j == 0 {
      assert false;
    } else {
      HistoryFits(log, j - 1);
      var before := Summarize(log[..j - 1]);
      if number <= before.sent + before.discarded { i := AnswerExists(log, j - 1, number); } else { i := j - 1; }
    }
  }

  lemma NothingAtFirst(log: seq<Event>)
    ensures Summarize(log[..0]).sent + Summarize(log[..0]).discarded == 0
  {
    assert log[..0] == [];
  }

  lemma ReapedOnce(log: seq<Event>, k: nat, l: nat)
    requires IsHistory(log) && k < |log| && l < |log| && log[k].ReapedChild? && log[l].ReapedChild?
    requires log[k].number == log[l].number
    ensures k == l
  {
    hide IsHistory, Summarize;
    HistoryFits(log, k);
    HistoryFits(log, l);
    if k < l { SummaryGrows(log, k + 1, l); } else if l < k { SummaryGrows(log, l + 1, k); }
  }

  /** The answer in hand is the one this child earned. */
  predicate HoldsAnswer(o: OwnerState, reaping: Event)
    requires reaping.ReapedChild?
  {
    && o.work.operation != 0 && o.session.connected && o.process.None? && o.work.result.Some?
    && EarnsResult(LaunchedChild(reaping.number, o.work.session, o.work.operation, o.work.amount), reaping,
                   reaping.number,
                   o.work.result.value)
  }

  /**
   Every child that was reaped is answered: its result was sent or discarded, or it is in hand, just as the child earned
   it, for the session still connected.
   */
  lemma ReapedIsAnswered(stopGrace: U64, calls: seq<OwnerCall>, k: nat) returns (j: nat)
    requires var log := After(stopGrace, calls).log; k < |log| && log[k].ReapedChild?
    ensures var o := After(stopGrace, calls);
      (j < |o.log| && Answers(o.log[j], o.log[k].number)) || HoldsAnswer(o, o.log[k])
  {
    hide After, IsHistory, Summarize, HoldsAnswer, Answers;
    var o := After(stopGrace, calls);
    j := ReapedIsAnsweredBy(o, k);
  }

  lemma ReapedIsAnsweredBy(o: OwnerState, k: nat) returns (j: nat)
    requires OwnerInv(o) && k < |o.log| && o.log[k].ReapedChild?
    ensures (j < |o.log| && Answers(o.log[j], o.log[k].number)) || HoldsAnswer(o, o.log[k])
  {
    hide IsHistory, Summarize, Answers, HoldsAnswer;
    var log := o.log;
    var number := log[k].number;
    assert log[..|log|] == log;
    HistoryFits(log, k);
    SummaryGrows(log, k + 1, |log|);
    if number <= Summarize(log).sent + Summarize(log).discarded {
      j := AnswerExists(log, |log|, number);
    } else {
      j := |log|;
      var l := LastReap(log, |log|);
      ReapedOnce(log, k, l);
      InHandIsEarned(o, log[k]);
    }
  }

  lemma InHandIsEarned(o: OwnerState, reaping: Event)
    requires OwnerInv(o) && reaping.ReapedChild? && o.work.operation != 0
    requires var h := Summarize(o.log); h.launches == h.reaps == reaping.number && h.seen == Some(reaping.seen)
    requires HasExited(reaping.seen) && reaping.seen.stream.eof && reaping.seen.channels.closed
    ensures HoldsAnswer(o, reaping)
  {
    hide IsHistory, Summarize;
  }

  /** Control of the child was lost, or what it sent makes no sense, or could not be read. */
  predicate WentWrong(q: ProcessState) {
    q.reaping.ownershipLost || q.stream.view.malformed || q.stream.ioError != 0
  }

  /** It is gone, its stream is read to the end, and its channels close. */
  predicate IsDoneWith(q: ProcessState, e: Environment) {
    && q.reaping.exit.Some? && q.stream.eof && !q.reaping.ownershipLost && !q.channels.cleanupUnknown
    && (q.channels.controlOpen ==> e.controlClose.None?) && (q.channels.eventOpen ==> e.eventClose.None?)
  }

  /**
   What an observation of the child comes to: it is a fault, and ends the session, if and only if something went
   wrong or
   its channels do not close; the child is reaped if and only if it is done with, and its answer is then in hand.
   */
  lemma ChildIsObserved(o: OwnerState, now: U64, e: Environment)
    requires OwnerInv(o) && o.process.Some? && HasRoom(o)
    ensures var q, t := Poll(o.process.value, now, e.pipe, e.poll).0, ObserveNative(o, now, e);
      var fails := WentWrong(q) || (q.reaping.exit.Some? && q.stream.eof && !IsDoneWith(q, e));
      && (fails ==> t.fault && !t.session.connected)
      && (!fails ==> t.fault == o.fault && t.session == o.session && t.work.operation == o.work.operation)
      && (t.process.None? <==> IsDoneWith(q, e))
      && (t.process.None? ==> ReapedLast(t, q))
      && (t.process.None? && !fails && o.work.operation != 0 ==> t.work.result.Some?)
  {
    hide OwnerInv, Poll, Disconnect, Fail, AfterPoll;
    StillOpen(o, now, e);
    ObservationIsExact(o.(process := Some(Poll(o.process.value, now, e.pipe, e.poll).0)), now, e);
  }

  lemma ObservationIsExact(o: OwnerState, now: U64, e: Environment)
    requires o.process.Some? && !o.process.value.channels.closed && (o.work.operation != 0 ==> o.session.connected)
    ensures var q, t := o.process.value, AfterPoll(o, now, e);
      var fails := WentWrong(q) || (q.reaping.exit.Some? && q.stream.eof && !IsDoneWith(q, e));
      && (fails ==> t.fault && !t.session.connected)
      && (!fails ==> t.fault == o.fault && t.session == o.session && t.work.operation == o.work.operation)
      && (t.process.None? <==> IsDoneWith(q, e))
      && (t.process.None? ==> ReapedLast(t, q))
      && (t.process.None? && !fails && o.work.operation != 0 ==> t.work.result.Some?)
  {
    hide Disconnect, Fail, CloseChild;
    var u := if IsBad(o.process.value) then Disconnect(Fail(o), now, e) else o;
    FaultLeaves(o, now, e);
    ExitedIsNotStopped(o, now, e);
    if IsFinished(u.process.value) { ClosingIsExact(u, now, e); }
  }

  /** What is last in the history is that this child was reaped. */
  predicate ReapedLast(t: OwnerState, q: ProcessState) {
    && t.log != [] && t.log[|t.log| - 1].ReapedChild?
    && t.log[|t.log| - 1].seen.reaping == q.reaping && t.log[|t.log| - 1].seen.stream == q.stream
  }

  lemma ClosingIsExact(o: OwnerState, now: U64, e: Environment)
    requires o.process.Some? && IsFinished(o.process.value) && !o.process.value.channels.closed
    ensures var q, t := o.process.value, CloseChild(o, now, e);
      if IsDoneWith(q, e) then
        && t.process.None? && ReapedLast(t, q) && t.fault == o.fault && t.session == o.session
        && t.work.operation == o.work.operation
        && (o.work.operation != 0 && o.session.connected ==> t.work.result.Some?)
      else t.process.Some? && t.fault && !t.session.connected
  {
    hide Disconnect, Fail, Launches, ResultOf;
    FaultLeaves(o.(process := Some(CloseChannels(o.process.value, e.controlClose, e.eventClose).0)), now, e);
  }

  lemma StillOpen(o: OwnerState, now: U64, e: Environment)
    requires OwnerInv(o) && o.process.Some? && HasRoom(o)
    ensures !Poll(o.process.value, now, e.pipe, e.poll).0.channels.closed
    ensures o.work.operation != 0 ==> o.session.connected
  {
    hide IsHistory, Summarize, HistoryMatches, Poll;
    PollOnlyObserves(o.process.value, now, e.pipe, e.poll);
  }

  lemma ExitedIsNotStopped(o: OwnerState, now: U64, e: Environment)
    requires o.process.Some?
    ensures var u := Disconnect(Fail(o), now, e).process;
      && u.Some? && u.value.reaping == o.process.value.reaping && u.value.stream.eof == o.process.value.stream.eof
      && (HasExited(o.process.value) ==> u == o.process)
  {
    hide Launches;
  }

  /** A result in hand goes out with the first poll that can send it. */
  lemma ResultIsSent(o: OwnerState, now: U64, e: Environment)
    requires OwnerInv(o) && o.work.result.Some? && o.session.pending.None? && e.send == Done
    requires o.clockSeen ==> o.lastNow <= now
    ensures HasRoom(o) && SentBy(o, now, e) == o.work.result
  {
    hide IsHistory, Summarize, HistoryMatches;
  }

  /**
   A reply waiting to be sent is sent, waits on, or ends the session: it ends it if and only if it is a second
   old or the
   peer is gone. What was sent is remembered if it was the answer for a child.
   */
  lemma SendingIsExact(o: OwnerState, now: U64, e: Environment)
    requires OwnerInv(o) && o.session.pending.Some?
    ensures var m, late, t := o.session.pending.value.message, Elapsed(o.session.pending.value.at, now) >= 1000,
            Flush(o, now, e);
      if late || e.send == PeerClosed then !t.session.connected
      else if e.send == Again then t == o
      else
        && t.session == o.session.(pending := None) && t.process == o.process
        && (m.kind != P.Result ==> t.work == o.work && t.log == o.log)
        && (m.kind == P.Result ==> t.work.operation == 0)
        && (m.kind == P.Result ==> t.log == if m.flags == 4 then o.log else o.log + [SentResult(Launches(o.log), m)])
  {
    DisconnectLeaves(o, now, e);
    hide IsHistory, Summarize, HistoryMatches, Disconnect, Launches;
  }

  /** Leaving a session asks its child to stop, if that was not asked before. */
  lemma LeavingStopsChild(o: OwnerState, now: U64, e: Environment)
    requires OwnerInv(o)
    ensures var t := Disconnect(o, now, e);
      if o.process.None? then t.process.None?
      else if o.process.value.reaping.exit.Some? || o.process.value.stream.view.stopRequested
      then t.process == o.process
      else
        && t.process.Some? && t.process.value.stream.view.stopRequested
        && t.process.value.stopping.requestedAt == Some(now)
  {
    hide IsHistory, Summarize, HistoryMatches, Launches, Disconnect;
    DisconnectKeeps(o, now, e);
  }

  /** Leaving a session discards the answer that was not sent, and says so. */
  lemma LeavingDiscards(o: OwnerState, now: U64, e: Environment)
    requires OwnerInv(o)
    ensures var t := Disconnect(o, now, e);
      if o.work.operation == 0 then t.log == o.log || t.log == o.log + [Faulted]
      else |o.log| < |t.log| && t.log[..|o.log|] == o.log && t.log[|o.log|] == DiscardedResult(Launches(o.log))
  {
    hide IsHistory, Summarize, HistoryMatches, Launches, RequestStop, ChildIsConsistent;
  }

  // ---------- Requests ----------

  /** A request of the connected session that was not made before. */
  predicate IsNewRequest(o: OwnerState, m: Message) {
    m.session == o.session.epoch && m.request > o.session.lastRequest
  }

  /** Nothing went wrong, a worker can be launched, and there is no child to tend to. */
  predicate CanServe(o: OwnerState, canLaunch: bool) {
    !o.fault && canLaunch && o.process.None?
  }

  lemma ClearIsExact(o: OwnerState, canLaunch: bool)
    requires OwnerInv(o)
    ensures IsClear(o, canLaunch) <==> CanServe(o, canLaunch)
  {
    hide IsHistory, Summarize, HistoryMatches;
  }

  predicate Asks(o: OwnerState, m: Message) {
    IsNewRequest(o, m) && m == Reply(P.Query, m.session, m.request) && !o.session.active
  }

  predicate Activates(o: OwnerState, m: Message, now: U64, canLaunch: bool) {
    && IsNewRequest(o, m) && m == Reply(P.Activate, m.session, m.request).(value := o.session.clearToken)
    && !o.session.active && o.session.clearToken != 0 && Elapsed(o.session.clearTokenAt, now) < 1000
    && CanServe(o, canLaunch)
  }

  predicate Submits(o: OwnerState, m: Message, canLaunch: bool) {
    && IsNewRequest(o, m) && m == Reply(P.Submit, m.session, m.request).(operation := m.operation, amount := m.amount)
    && o.session.active && o.work.operation == 0 && m.operation > o.session.lastOperation
    && 0 < m.amount <= MAXIMUM_ITERATIONS && CanServe(o, canLaunch)
  }

  /** Only a reply is queued, and what the session remembers of the request. */
  predicate OnlyReplies(o: OwnerState, t: OwnerState, reply: Message, now: U64) {
    && t.session.connected && t.session.epoch == o.session.epoch && t.session.lastRequest == reply.request
    && t.session.pending == Some(Pending(reply, now)) && t.fault == o.fault
  }

  /**
   A query is answered by whether the owner can serve, and that answer is remembered as the token to activate
   with.
   */
  lemma QueryIsAnswered(o: OwnerState, m: Message, now: U64, e: Environment)
    requires OwnerInv(o) && MayReceive(o) && e.receive == Got(m) && Asks(o, m)
    ensures var t, clear := Receive(o, now, e), CanServe(o, e.canLaunch);
      && OnlyReplies(o, t, Reply(P.Snapshot, m.session, m.request).(flags := if clear then 1 else 0), now)
      && !t.session.active && t.session.clearToken == (if clear then m.request else 0)
      && (clear ==> t.session.clearTokenAt == now) && t.work == o.work && t.process == o.process && t.log == o.log
  {
    ClearIsExact(o, e.canLaunch);
    hide IsClear, CanServe, IsHistory, Summarize, HistoryMatches, IsActivation, IsSubmission, Disconnect,
         AnswerSubmission;
  }

  lemma ActivationIsAnswered(o: OwnerState, m: Message, now: U64, e: Environment)
    requires OwnerInv(o) && MayReceive(o) && e.receive == Got(m) && Activates(o, m, now, e.canLaunch)
    ensures var t := Receive(o, now, e);
      && OnlyReplies(o, t, Reply(P.Activated, m.session, m.request).(value := m.value), now)
      && t.session.active && t.session.clearToken == 0 && t.work == o.work && t.process == o.process
      && t.log == o.log + [ActivatedSession(o.session.epoch)]
  {
    ClearIsExact(o, e.canLaunch);
    hide IsClear, CanServe, IsHistory, Summarize, HistoryMatches, IsSubmission, Disconnect, AnswerSubmission;
  }

  /**
   A submission launches one child for just the amount asked for, says that it could not be launched, or is a
   fault.
   */
  lemma SubmissionIsAnswered(o: OwnerState, m: Message, now: U64, e: Environment)
    requires OwnerInv(o) && MayReceive(o) && e.receive == Got(m) && Submits(o, m, e.canLaunch)
    ensures var t := Receive(o, now, e);
      if !e.allocates || e.launch.closeError.Some? then
        t.fault && !t.session.connected && t.process.None? && t.work.operation == 0
      else if e.launch.NotSpawned? then
        && OnlyReplies(o, t, Message(P.Result, m.session, m.request, m.operation, m.amount, 0, 4), now)
        && t.process.None? && t.work == o.work && t.log == o.log && t.session.lastOperation == m.operation
      else
        && OnlyReplies(o, t, Message(P.Accepted, m.session, m.request, m.operation, m.amount, 0, 0), now)
        && t.process.Some? && t.process.value.launched && t.process.value.limit == m.amount
        && t.work == Work(m.operation, m.session, m.request, m.amount, false, false, None)
        && t.session.lastOperation == m.operation
        && t.log == o.log + [LaunchedChild(Launches(o.log) + 1, m.session, m.operation, m.amount)]
  {
    ClearIsExact(o, e.canLaunch);
    hide IsClear, CanServe, IsHistory, Summarize, HistoryMatches, Launches, Disconnect;
    var o1 := o.(session := o.session.(lastRequest := m.request, lastOperation := m.operation));
    FaultLeaves(o, now, e);
    FaultLeaves(o1, now, e);
  }

  lemma DisconnectLeaves(o: OwnerState, now: U64, e: Environment)
    ensures var t := Disconnect(o, now, e);
      && !t.session.connected && (t.process.None? <==> o.process.None?) && t.work.operation == 0
      && (o.fault ==> t.fault)
  {
    hide RequestStop, Launches;
  }

  lemma FaultLeaves(o: OwnerState, now: U64, e: Environment)
    ensures var t := Disconnect(Fail(o), now, e);
      t.fault && !t.session.connected && (t.process.None? <==> o.process.None?) && t.work.operation == 0
    ensures var t := Disconnect(o, now, e);
      !t.session.connected && (t.process.None? <==> o.process.None?) && t.work.operation == 0
  {
    hide Disconnect;
    DisconnectLeaves(o, now, e);
    DisconnectLeaves(Fail(o), now, e);
  }

  /** Anything else a host sends ends its session. */
  lemma NothingElseIsAnswered(o: OwnerState, m: Message, now: U64, e: Environment)
    requires OwnerInv(o) && MayReceive(o) && e.receive == Got(m)
    requires !Asks(o, m) && !Activates(o, m, now, e.canLaunch) && !Submits(o, m, e.canLaunch)
    ensures var t := Receive(o, now, e);
            !t.session.connected && t.work.operation == 0 && t.process.Some? == o.process.Some?
  {
    ClearIsExact(o, e.canLaunch);
    FaultLeaves(o, now, e);
    hide IsClear, CanServe, IsHistory, Summarize, HistoryMatches, Disconnect, AnswerSubmission;
  }
}
