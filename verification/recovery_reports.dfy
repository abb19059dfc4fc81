/**
 In every run of the whole protocol the owner answers for a child what that child did: success, with the sum,
 if and only if it exited with zero.
 */
module RecoveryReports {
  import opened Machine
  import opened Sums
  import opened RecoveryProtocol
  import PS = ProcessSpec
  import SV = Supervision
  import O = OwnerSpec
  import OI = OwnerInvariant
  import OR = OwnerRuns
  import OA = OwnerAnswers
  import OC = OwnedChild
  import opened RecoverySystem
  import opened RecoveryRuns

  /** A child exits with zero if and only if its last word was that it completed, all of it, with the sum. */
  predicate IsTrueReport(seen: PS.ProcessState) {
    var v := seen.stream.view;
    && (seen.reaping.exit == Some(PS.ExitedWith(0)) <==> v.terminal == PS.CompletedTerminal)
    && (v.terminal == PS.CompletedTerminal ==>
        v.terminalIterations == seen.limit && v.terminalValue == SumTo(seen.limit))
  }

  predicate ReportsAreTrue(log: seq<O.Event>) {
    forall j :: 0 <= j < |log| && log[j].ReapedChild? ==> IsTrueReport(log[j].seen)
  }

  lemma SoundReportIsTrue(w: OC.World, p: PS.ProcessState)
    requires SV.SupervisedInv(OC.Joined(w, p)) && PS.HasExited(p) && p.stream.eof
    ensures IsTrueReport(p)
  {
    hide SumTo;
    var inFlight :| SV.Watches(OC.Joined(w, p), inFlight);
  }

  // ---------- Histories ----------

  /** The history goes on without another reaping. */
  predicate GoesOn(o: O.OwnerState, t: O.OwnerState) {
    && o.log <= t.log
    && forall j :: |o.log| <= j < |t.log| ==> !t.log[j].ReapedChild?
  }

  lemma GoingOnIsTrue(o: O.OwnerState, t: O.OwnerState)
    requires GoesOn(o, t) && ReportsAreTrue(o.log)
    ensures ReportsAreTrue(t.log)
  {
    hide IsTrueReport;
    forall j | 0 <= j < |t.log| && t.log[j].ReapedChild? ensures IsTrueReport(t.log[j].seen) {
      assert t.log[j] == o.log[j];
    }
  }

  lemma LeavingGoesOn(o: O.OwnerState, now: U64, e: O.Environment)
    ensures GoesOn(o, O.Disconnect(o, now, e)) && GoesOn(o, O.Fail(o)) && O.Fail(o).process == o.process
  {
    hide O.Launches, PS.RequestStop;
  }

  lemma FaultGoesOn(o: O.OwnerState, now: U64, e: O.Environment)
    ensures GoesOn(o, O.Disconnect(O.Fail(o), now, e)) && GoesOn(o, O.Disconnect(o, now, e))
  {
    hide O.Disconnect, O.Fail;
    LeavingGoesOn(o, now, e);
    LeavingGoesOn(O.Fail(o), now, e);
  }

  lemma MessagesGoOn(o: O.OwnerState, now: U64, e: O.Environment)
    ensures GoesOn(o, O.Flush(o, now, e)) && GoesOn(o, O.QueueResult(o, now)) && GoesOn(o, O.CheckClock(o, now, e))
  {
    hide O.Disconnect, O.Fail, O.Launches;
    FaultGoesOn(o, now, e);
    FaultGoesOn(o, o.lastNow, e);
  }

  lemma RequestsGoOn(o: O.OwnerState, now: U64, e: O.Environment)
    ensures GoesOn(o, O.Receive(o, now, e))
  {
    hide O.Disconnect, O.Fail, O.Launches, O.IsClear, O.IsQuery, O.IsActivation, O.IsSubmission, PS.Launch;
    FaultGoesOn(o, now, e);
    if e.receive.Got? {
      var m := e.receive.message;
      FaultGoesOn(o.(session := o.session.(lastRequest := m.request, lastOperation := m.operation)), now, e);
    }
  }

  lemma AttachingGoesOn(o: O.OwnerState, usable: bool, now: U64, e: O.Environment)
    ensures GoesOn(o, O.Attach(o, usable, now, e).0)
  {
    hide O.Disconnect, O.Fail;
    FaultGoesOn(o, o.lastNow, e);
  }

  // ---------- Reaping ----------

  /** What is reaped is what was last seen of the process. */
  lemma ClosingIsTrue(o: O.OwnerState, w: OC.World, now: U64, e: O.Environment)
    requires o.process.Some? && SV.SupervisedInv(OC.Joined(w, o.process.value)) && !o.process.value.channels.closed
    requires ReportsAreTrue(o.log)
    ensures ReportsAreTrue(O.CloseChild(o, now, e).log)
  {
    hide O.Disconnect, O.Fail, PS.CloseChannels, O.Launches, O.ResultOf, SV.SupervisedInv, IsTrueReport;
    var (q, closed) := PS.CloseChannels(o.process.value, e.controlClose, e.eventClose);
    OI.CloseOutcome(o.process.value, e.controlClose, e.eventClose);
    OC.CloseTends(w, o.process.value, e.controlClose, e.eventClose);
    if closed {
      SoundReportIsTrue(w, q);
    } else {
      FaultGoesOn(o.(process := Some(q)), now, e);
      GoingOnIsTrue(o.(process := Some(q)), O.CloseChild(o, now, e));
    }
  }

  lemma TendedIsOpen(o: O.OwnerState, w: OC.World)
    requires OC.IsTended(o, w) && o.process.Some?
    ensures SV.SupervisedInv(OC.Joined(w, o.process.value)) && !o.process.value.channels.closed
  {
    hide SV.SupervisedInv, OI.IsHistory, OI.HistoryMatches, O.Summarize, OC.ResultIsTrue;
  }

  lemma AfterPollIsTrue(o: O.OwnerState, w: OC.World, now: U64, e: O.Environment)
    requires OC.IsTended(o, w) && o.process.Some? && ReportsAreTrue(o.log)
    ensures ReportsAreTrue(O.AfterPoll(o, now, e).log)
  {
    hide O.Disconnect, O.Fail, O.CloseChild, OC.IsTended, ReportsAreTrue, OC.Follows, GoesOn, SV.SupervisedInv;
    var u := if O.IsBad(o.process.value) then O.Disconnect(O.Fail(o), now, e) else o;
    var v := if O.IsBad(o.process.value) then OC.Onward(o, w, u) else w;
    if O.IsBad(o.process.value) {
      FaultGoesOn(o, now, e);
      GoingOnIsTrue(o, u);
      OC.FailAndDisconnectTends(o, w, now, e);
      OC.FollowsMeans(o, w, u);
    }
    if O.IsFinished(u.process.value) {
      TendedIsOpen(u, v);
      ClosingIsTrue(u, v, now, e);
    }
  }

  lemma ObservingIsTrue(o: O.OwnerState, w: OC.World, now: U64, e: O.Environment)
    requires OC.IsTended(o, w) && OC.IsAbout(o, w, now, e) && ReportsAreTrue(o.log)
    ensures O.HasRoom(o) && ReportsAreTrue(O.ObserveNative(o, now, e).log)
  {
    hide SV.SupervisedInv, O.AfterPoll, SV.Enabled, PS.Poll, OI.HistoryMatches, OI.IsHistory, O.Summarize,
         OC.ResultIsTrue,
         ReportsAreTrue;
    if o.process.Some? {
      OC.PollTends(w, o.process.value, now, e.poll);
      var q := PS.Poll(o.process.value, now, e.pipe, e.poll).0;
      OI.PollOnlyObserves(o.process.value, now, e.pipe, e.poll);
      OI.ReplaceKeeps(o, q);
      AfterPollIsTrue(o.(process := Some(q)), w.(pipe := OC.RestOfPipe(o, now, e)), now, e);
    }
  }

  lemma PollIsTrue(o: O.OwnerState, w: OC.World, now: U64, e: O.Environment)
    requires OC.IsTended(o, w) && OC.IsAbout(o, w, O.PollTime(o, now), e) && ReportsAreTrue(o.log)
    ensures O.HasRoom(o) && ReportsAreTrue(O.PollOwner(o, now, e).log)
  {
    hide O.CheckClock, OC.IsTended, OC.Follows, O.ObserveNative, O.QueueResult, O.Flush, O.Receive, O.HasRoom,
         OC.IsAbout,
         ReportsAreTrue, GoesOn;
    OC.TendedMeans(o, w);
    OC.RoomOf(o);
    var t := O.PollTime(o, now);
    MessagesGoOn(o, now, e);
    OC.CheckClockTends(o, w, now, e);
    OC.CheckedProcess(o, w, now, e);
    var o0 := O.CheckClock(o, now, e);
    OC.FollowsMeans(o, w, o0);
    GoingOnIsTrue(o, o0);
    ObservingIsTrue(o0, OC.Onward(o, w, o0), t, e);
    var o1 := O.ObserveNative(o0, t, e);
    MessagesGoOn(o1, t, e);
    GoingOnIsTrue(o1, O.QueueResult(o1, t));
    var o2 := O.BeforeSending(o, now, e);
    MessagesGoOn(o2, t, e);
    var o3 := O.Flush(o2, t, e);
    GoingOnIsTrue(o2, o3);
    MessagesGoOn(o3, t, e);
    GoingOnIsTrue(o3, O.QueueResult(o3, t));
    var o4 := O.BeforeReceiving(o, now, e);
    RequestsGoOn(o4, t, e);
    GoingOnIsTrue(o4, O.Receive(o4, t, e));
  }

  lemma MoveIsTrue(s: System, m: Move)
    requires SystemInv(s) && Possible(s, m) && ReportsAreTrue(s.owner.log)
    ensures ReportsAreTrue(Next(s, m).owner.log)
  {
    hide LinkInv, OC.IsTended, O.PollOwner, O.Attach, ReportsAreTrue, GoesOn, OC.IsAbout, O.HasRoom, OC.WorldAfter,
         AfterClientPoll,
         Conversation.Left, Conversation.Sent, SV.Apply, SV.Enabled;
    match m
    case HostAttaches(usable, now, _, e) =>
      AttachingGoesOn(s.owner, usable, now, e);
      GoingOnIsTrue(s.owner, O.Attach(s.owner, usable, now, e).0);
    case OwnerPolls(now, e) => PollIsTrue(s.owner, s.world, now, e);
    case _ =>
  }

  // ---------- Runs ----------

  /** In every run, what was seen of a reaped child is what it did. */
  lemma {:induction false} RunReportsTruly(stopGrace: U64, states: seq<System>, moves: seq<Move>, k: nat)
    requires IsRun(stopGrace, states, moves) && k < |states|
    ensures ReportsAreTrue(states[k].owner.log)
  {
    hide SystemInv, Next, Possible, ReportsAreTrue;
    if k == 0 {
      StartReportsNothing(stopGrace);
    } else {
      RunReportsTruly(stopGrace, states, moves, k - 1);
      RunsAreValid(stopGrace, states, moves, k - 1);
      assert Steps(states[k - 1], moves[k - 1], states[k]);
      MoveIsTrue(states[k - 1], moves[k - 1]);
    }
  }

  lemma StartReportsNothing(stopGrace: U64)
    ensures ReportsAreTrue(Start(stopGrace).owner.log)
  {
  }

  /** The answer says success and the sum where the child exited with zero, and failure without a value elsewhere. */
  predicate SaysWhatHappened(m: Message, seen: PS.ProcessState) {
    && m.amount == seen.limit && m.flags == (if seen.reaping.exit == Some(PS.ExitedWith(0)) then SUCCEEDED else FAILED)
    && m.value == (if seen.reaping.exit == Some(PS.ExitedWith(0)) then SumTo(m.amount) else 0)
  }

  lemma EarnedIsTrue(launch: O.Event, reaping: O.Event, number: nat, m: Message)
    requires reaping.ReapedChild? && OR.EarnsResult(launch, reaping, number, m) && IsTrueReport(reaping.seen)
    ensures SaysWhatHappened(m, reaping.seen)
  {
    hide SumTo;
  }

  /**
   Every answer sent for a child, in every run, is for one that was launched in that very session and reaped; and says
   success, with the exact sum for what was asked, if and only if that child exited with zero.
   */
  lemma AnswersAreTrue(stopGrace: U64, states: seq<System>, moves: seq<Move>, k: nat, j: nat) returns (i: nat, r: nat)
    requires IsRun(stopGrace, states, moves) && k < |states|
    requires var log := states[k].owner.log; j < |log| && log[j].SentResult?
    ensures var log := states[k].owner.log;
      OR.IsEarned(log, i, r, j) && SaysWhatHappened(log[j].result, log[r].seen)
  {
    hide IsRun, ReportsAreTrue, SaysWhatHappened, IsTrueReport, LinkInv, OI.IsHistory;
    RunsAreValid(stopGrace, states, moves, k);
    RunReportsTruly(stopGrace, states, moves, k);
    var log := states[k].owner.log;
    IsHistoryOf(states[k]);
    i, r := OR.SentResultIsEarned(log, j);
    ReportIsTrue(log, r);
    EarnedIsTrue(log[i], log[r], log[j].number, log[j].result);
  }

  lemma ReportIsTrue(log: seq<O.Event>, r: nat)
    requires ReportsAreTrue(log) && r < |log| && log[r].ReapedChild?
    ensures IsTrueReport(log[r].seen)
  {
    hide IsTrueReport;
  }

  lemma IsHistoryOf(s: System)
    requires SystemInv(s)
    ensures OI.OwnerInv(s.owner) && OI.IsHistory(s.owner.log)
  {
    hide LinkInv, OI.IsHistory;
  }

  /** A child is answered by what happened to it: sent, in hand to be sent, or discarded with the session that asked. */
  predicate IsAnswered(o: O.OwnerState, r: nat, j: nat)
    requires r < |o.log| && o.log[r].ReapedChild?
  {
    var seen, number := o.log[r].seen, o.log[r].number;
    || (j < |o.log| && o.log[j] == O.DiscardedResult(number))
    || (j < |o.log| && o.log[j].SentResult? && o.log[j].number == number && SaysWhatHappened(o.log[j].result, seen))
    || (o.session.connected && o.work.result.Some? && SaysWhatHappened(o.work.result.value, seen))
  }

  /**
   Every child reaped, in every run, is answered by what happened to it: one that exited with zero is answered with
   success and its sum, unless the session that asked was gone.
   */
  lemma ReapedChildIsAnswered(stopGrace: U64, states: seq<System>, moves: seq<Move>, k: nat, r: nat) returns (j: nat)
    requires IsRun(stopGrace, states, moves) && k < |states|
    requires var log := states[k].owner.log; r < |log| && log[r].ReapedChild?
    ensures IsAnswered(states[k].owner, r, j)
  {
    hide IsRun, SystemInv, ReportsAreTrue, SaysWhatHappened, IsTrueReport, OI.IsHistory, OI.OwnerInv, OR.EarnsResult;
    RunsAreValid(stopGrace, states, moves, k);
    RunReportsTruly(stopGrace, states, moves, k);
    var o := states[k].owner;
    IsHistoryOf(states[k]);
    ReportIsTrue(o.log, r);
    j := OA.ReapedIsAnsweredBy(o, r);
    if j < |o.log| && o.log[j].SentResult? && OR.Answers(o.log[j], o.log[r].number) {
      var i, l := AnswersAreTrue(stopGrace, states, moves, k, j);
      EarnedNumber(o.log, i, l, j);
      OA.ReapedOnce(o.log, r, l);
    } else if OA.HoldsAnswer(o, o.log[r]) {
      var w := o.work;
      EarnedIsTrue(O.LaunchedChild(o.log[r].number, w.session, w.operation, w.amount), o.log[r], o.log[r].number,
                   w.result.value);
    }
  }

  lemma EarnedNumber(log: seq<O.Event>, i: nat, r: nat, j: nat)
    requires OR.IsEarned(log, i, r, j)
    ensures r < |log| && j < |log| && log[r].ReapedChild? && log[j].SentResult? && log[r].number == log[j].number
  {
  }
}
