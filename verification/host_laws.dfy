/**
 What the compute host does about its child, in terms of the child and of what the gate remembers: when it is
 asked to stop, when it is killed, and how its end is reported.
 */
module HostLaws {
  import opened Machine
  import opened Sums
  import opened Frames
  import opened GateTypes
  import opened GateSpec
  import opened GateInvariant
  import opened GateEffects
  import PS = ProcessSpec
  import opened ProcessSpec
  import opened HostSpec
  import opened HostInvariant
  import opened HostSteps
  import opened HostRuns
  import GL = GateLaws

  // ---------- Ends ----------

  /** The child did all of what it was asked for, and said so with the sum. */
  predicate DidAll(p: ProcessState, n: U64) {
    && p.reaping.exit == Some(ExitedWith(0)) && p.stream.view.terminal == CompletedTerminal
    && p.stream.view.terminalIterations == n && p.stream.view.terminalValue == SumTo(n)
  }

  /** The child was asked to stop, and said that it did, short of the end. */
  predicate DidStop(p: ProcessState, n: U64) {
    && p.reaping.exit == Some(ExitedWith(20)) && p.stream.view.terminal == CancelledTerminal
    && p.stream.view.stopRequested && p.stream.view.terminalIterations < n
  }

  /**
   In every run, a receipt says success only of a child that did all it was asked for, cancellation only of one that was
   asked to stop and did, and failure only of one that did neither, or could not be understood; the child is gone.
   */
  lemma EndsAreTrue(states: seq<HostState>, calls: seq<HostCall>, k: nat)
    requires IsRun(states, calls) && k < |states| && states[k].gate.receipt.Some?
    ensures var s, n := states[k], states[k].gate.receipt.value.native;
      n.succeeded.Some? || n.cancelled.Some? || n.failed.Some? ==>
        && s.process.Some? && s.request.Some?
        && var p, m := s.process.value, s.request.value.iterations;
           && p.reaping.exit.Some? && p.stream.eof && (n.succeeded.Some? ==> DidAll(p, m))
           && (n.cancelled.Some? ==> DidStop(p, m))
           && (n.failed.Some? ==> p.stream.view.malformed || p.stream.ioError != 0 || (!DidAll(p, m) && !DidStop(p, m)))
  {
    hide HostInv, IsRun, DidAll, DidStop;
    AlwaysRests(states, calls, k);
    var s := states[k];
    WhatIsTold(s);
    if s.request.Some? && s.process.Some? { AccountsAreExact(s.process.value, s.request.value.iterations); }
  }

  lemma WhatIsTold(s: HostState)
    requires HostInv(s) && s.gate.receipt.Some?
    ensures EndsAreTold(s, s.gate.receipt.value.native) && (s.request.Some? ==> IsRequest(s.request.value))
    ensures s.process.Some? ==> s.request.Some? && s.process.value.limit == s.request.value.iterations
  {
    hide GateFits, EndsAreTold, ExpectedSum, IsRequest;
  }

  lemma AccountsAreExact(p: ProcessState, n: U64)
    requires n <= MAXIMUM_ITERATIONS
    ensures Completed(p, n) <==> p.stream.eof && DidAll(p, n)
    ensures StoppedShort(p, n) <==> p.stream.eof && DidStop(p, n)
    ensures FellShort(p, n) ==> p.reaping.exit.Some? && p.stream.eof
  {
    hide ExpectedSum, SumTo;
    SupportedSumsDoNotWrap(n);
  }

  /** In every run, the child works on just what was asked for, with the grace the host was made with. */
  lemma ChildServesRequest(states: seq<HostState>, calls: seq<HostCall>, k: nat)
    requires IsRun(states, calls) && k < |states| && states[k].process.Some?
    ensures states[k].request.Some? && states[k].process.value.limit == states[k].request.value.iterations
    ensures states[k].process.value.stopGrace == states[k].stopGrace
  {
    hide GateFits, ExpectedSum, IsRun, IsRequest;
    AlwaysRests(states, calls, k);
  }

  // ---------- Stopping ----------

  /** The child was asked to stop. */
  predicate IsAsked(s: HostState) {
    s.process.Some? && s.process.value.stream.view.stopRequested
  }

  /** The operation in hand, of the live binding, not released. */
  predicate IsOpen(s: HostState, a: OperationAuthority) {
    && s.gate.receipt.Some? && s.gate.receipt.value.authority == a && a.binding == s.gate.config.binding
    && s.gate.receipt.value.disposition != Released
  }

  /** Submitted, without an outcome, and not told to stop before. */
  predicate IsUnderWay(s: HostState) {
    && s.gate.receipt.Some? && s.gate.receipt.value.dispatch.status == Submitted
    && s.gate.receipt.value.native.outcome == OutcomePending && s.gate.receipt.value.control.stopRequestedAt.None?
  }

  lemma GateIsInTime(s: HostState)
    requires HostInv(s)
    ensures Inv(s.gate) && Callable(s.gate) && GateEndsBy(s.gate, s.now)
    ensures s.gate.receipt.Some? ==> EndsBy(s.gate.receipt.value, s.now)
  {
    hide Inv, EndsBy, ExpectedSum;
    InvIsCallable(s.gate);
  }

  lemma UnsubmittedKeepsChild(s: HostState, cleanupConfirmed: bool)
    requires s.authority.Some?
    ensures SettleUnsubmitted(s, cleanupConfirmed).process == s.process
  {
    hide Asked, AnswerOf;
  }

  lemma StopReaches(s: HostState, should: bool, time: U64, i: HostInput)
    requires IsLaunched(s)
    ensures IsAsked(StopProcess(s, should, time, i)) <==> IsAsked(s) || should
    ensures var p, q := s.process.value, StopProcess(s, should, time, i).process.value;
      !IsAsked(s) && should ==> q.stopping.requestedAt == Some(time)
    ensures StopProcess(s, should, time, i).authority == s.authority
  {
  }

  /** Cancelling asks the child to stop if and only if it is under way and was not cancelled before. */
  lemma CancelReachesChild(s: HostState, a: OperationAuthority, i: HostInput)
    requires HostInv(s) && IsLaunched(s)
    ensures IsAsked(CancelFor(s, a, i).0) <==>
            IsAsked(s) || (IsOpen(s, a) && s.gate.receipt.value.control.cancelledAt.None? && IsUnderWay(s))
  {
    hide HostInv, GateSpec.RequestCancel, StopProcess, SettleUnsubmitted, EndsBy, GateEndsBy, Inv;
    ReadKeeps(s);
    var s1 := Read(s);
    GateIsInTime(s1);
    GL.CancelIsExact(s1.gate, a, s1.now);
    CancelAsks(s1.gate, a, s1.now);
    var c := CallRequestCancel(a, s1.now);
    var answer := AnswerOf(s1.gate, c);
    StopReaches(Ask(s1, c), ShouldRequestStop(answer), s1.now, i);
    var s2 := StopProcess(Ask(s1, c), ShouldRequestStop(answer), s1.now, i);
    if s2.authority.Some? { UnsubmittedKeepsChild(s2, true); }
  }

  lemma CancelAsks(g: GateState, a: OperationAuthority, at: U64)
    requires Inv(g)
    ensures var (h, d) := GateSpec.RequestCancel(g, a, at);
      d.shouldRequestNativeStop <==>
      && d.status == ControlApplied && g.receipt.Some? && g.receipt.value.dispatch.status == Submitted
      && g.receipt.value.native.outcome == OutcomePending && g.receipt.value.control.stopRequestedAt.None?
  {
    hide LatestTime, Revoke, Inv;
  }

  /** The deadline does likewise, once it is reached. */
  lemma ExpiryReachesChild(s: HostState, i: HostInput)
    requires HostInv(s) && IsLaunched(s) && s.authority.Some?
    ensures var r := s.gate.receipt;
      IsAsked(Expire(s, s.now, i)) <==>
      || IsAsked(s)
      || (&& IsOpen(s, s.authority.value) && r.value.control.expiredAt.None? && IsUnderWay(s)
          && r.value.deadline.Some? && r.value.deadline.value <= s.now)
  {
    hide HostInv, GateSpec.ObserveTime, StopProcess, EndsBy, GateEndsBy, Inv;
    GateIsInTime(s);
    GL.ExpiryIsExact(s.gate, s.authority.value, s.now);
    ExpiryAsks(s.gate, s.authority.value, s.now);
    var c := CallObserveTime(s.authority.value, s.now);
    StopReaches(Ask(s, c), ShouldRequestStop(AnswerOf(s.gate, c)), s.now, i);
  }

  lemma ExpiryAsks(g: GateState, a: OperationAuthority, at: U64)
    requires Inv(g)
    ensures var (h, d) := GateSpec.ObserveTime(g, a, at);
      d.shouldRequestNativeStop <==>
      && d.status == ControlApplied && g.receipt.Some? && g.receipt.value.dispatch.status == Submitted
      && g.receipt.value.native.outcome == OutcomePending && g.receipt.value.control.stopRequestedAt.None?
  {
    hide LatestTime, Revoke, Inv;
  }

  /** Withdrawing the live binding does likewise. */
  lemma WithdrawalReachesChild(s: HostState, expected: BindingIdentity, i: HostInput)
    requires HostInv(s) && IsLaunched(s) && s.authority.Some? && s.gate.phase != Preparing
    ensures IsAsked(HostSpec.Withdraw(s, expected, i).0) <==>
            || IsAsked(s)
            || (&& s.gate.phase == Active && expected == s.gate.config.binding
                && IsOpen(s, s.authority.value) && IsUnderWay(s))
  {
    hide HostInv, GateSpec.WithdrawBinding, StopProcess, SettleUnsubmitted, EndsBy, GateEndsBy, Inv;
    ReadKeeps(s);
    var s1 := Read(s);
    GateIsInTime(s1);
    HandsAgree(s1);
    GL.WithdrawalIsExact(s1.gate, expected, s1.now);
    WithdrawalAsks(s1.gate, expected, s1.now);
    PhaseTells(s1.gate);
    var c := CallWithdraw(expected, s1.now);
    var d := GateSpec.WithdrawBinding(s1.gate, expected, s1.now).1;
    var s2 := Ask(s1, c);
    if d.status == Applied {
      var stops := d.nativeStopAuthority.Some? && d.nativeStopAuthority == s2.authority;
      StopReaches(s2, stops, s1.now, i);
      UnsubmittedKeepsChild(StopProcess(s2, stops, s1.now, i), true);
    }
  }

  lemma HandsAgree(s: HostState)
    requires HostInv(s) && s.authority.Some?
    ensures s.gate.receipt.Some? && s.gate.receipt.value.authority == s.authority.value
  {
    hide GateFits, ExpectedSum;
  }

  lemma PhaseTells(g: GateState)
    requires Inv(g)
    ensures g.candidate.Some? <==> g.phase == Preparing
  {
    hide ReceiptValid, CandidateIsValid;
  }

  lemma WithdrawalAsks(g: GateState, b: BindingIdentity, now: U64)
    requires Inv(g)
    ensures var (h, d) := GateSpec.WithdrawBinding(g, b, now);
      d.nativeStopAuthority == if && d.status == Applied && g.candidate.None? && g.receipt.Some?
                                  && g.receipt.value.authority.binding == g.config.binding
                                  && g.receipt.value.disposition != Released
                                    && g.receipt.value.dispatch.status == Submitted
                                  && g.receipt.value.native.outcome == OutcomePending
                                  && g.receipt.value.control.stopRequestedAt.None?
                               then Some(g.receipt.value.authority) else None
  {
    hide LatestBindingTime, Revoke, ReceiptValid, CandidateIsValid;
    if g.receipt.Some? { ReleasedIsReleasable(g); }
  }

  lemma ReleasedIsReleasable(g: GateState)
    requires Inv(g) && g.receipt.Some?
    ensures IsReleasable(g.receipt.value) <==> g.receipt.value.disposition == Released
  {
    hide HasResolvedEffects, CandidateIsValid;
  }

  // ---------- Killing ----------

  /** What calls other than a poll leave of a child: a stop once asked for, and whether it was killed. */
  predicate IsSteady(p: ProcessState, q: ProcessState) {
    && q.launched == p.launched && q.stopGrace == p.stopGrace && q.reaping == p.reaping && q.channels == p.channels
    && q.stream.buffer == p.stream.buffer && q.stream.eof == p.stream.eof
    && q.stopping.terminationAttempted == p.stopping.terminationAttempted
    && (p.stream.view.stopRequested ==> q.stream.view.stopRequested && q.stopping == p.stopping)
  }

  predicate StaysSteady(s: HostState, t: HostState) {
    s.process.Some? ==> t.process.Some? && IsSteady(s.process.value, t.process.value) && t.now >= s.now
  }

  lemma SteadyOn(s: HostState, t: HostState, u: HostState)
    requires StaysSteady(s, t) && StaysSteady(t, u)
    ensures StaysSteady(s, u)
  {
  }

  lemma StopIsSteady(s: HostState, should: bool, time: U64, i: HostInput)
    ensures StaysSteady(s, StopProcess(s, should, time, i))
  {
  }

  lemma ReadIsSteady(s: HostState)
    ensures StaysSteady(s, Read(s))
  {
  }

  lemma UnsubmittedIsSteady(s: HostState, cleanupConfirmed: bool)
    requires s.authority.Some?
    ensures StaysSteady(s, SettleUnsubmitted(s, cleanupConfirmed))
  {
    hide Asked, AnswerOf, IsSteady;
    ReadIsSteady(s);
    SteadyWithItself(s);
  }

  lemma SteadyWithItself(s: HostState)
    ensures StaysSteady(s, s)
  {
  }

  lemma CancelIsSteady(s: HostState, a: OperationAuthority, i: HostInput)
    ensures StaysSteady(s, CancelFor(s, a, i).0)
  {
    hide Asked, AnswerOf, StopProcess, SettleUnsubmitted, IsPending, CurrentReceipt, IsSteady;
    ReadIsSteady(s);
    var s1 := Read(s);
    var c := CallRequestCancel(a, s1.now);
    var should := ShouldRequestStop(AnswerOf(s1.gate, c));
    StopIsSteady(Ask(s1, c), should, s1.now, i);
    var s2 := StopProcess(Ask(s1, c), should, s1.now, i);
    SteadyOn(s, s1, s2);
    if s2.authority.Some? {
      UnsubmittedIsSteady(s2, true);
      SteadyOn(s, s2, SettleUnsubmitted(s2, true));
    }
  }

  lemma ExpireIsSteady(s: HostState, time: U64, i: HostInput)
    ensures StaysSteady(s, Expire(s, time, i))
    ensures Expire(s, time, i).authority == s.authority && Expire(s, time, i).request == s.request
  {
    hide Asked, AnswerOf, RequestStop, IsSteady;
    SteadyWithItself(s);
    if s.authority.Some? {
      var c := CallObserveTime(s.authority.value, time);
      StopIsSteady(Ask(s, c), ShouldRequestStop(AnswerOf(s.gate, c)), time, i);
    }
  }

  lemma WithdrawIsSteady(s: HostState, expected: BindingIdentity, i: HostInput)
    ensures StaysSteady(s, HostSpec.Withdraw(s, expected, i).0)
  {
    hide Asked, AnswerOf, StopProcess, SettleUnsubmitted, GateSpec.WithdrawBinding, IsSteady;
    ReadIsSteady(s);
    var s1 := Read(s);
    var d := GateSpec.WithdrawBinding(s1.gate, expected, s1.now).1;
    var s2 := Ask(s1, CallWithdraw(expected, s1.now));
    var stops := d.nativeStopAuthority.Some? && d.nativeStopAuthority == s2.authority;
    StopIsSteady(s2, stops, s1.now, i);
    var s3 := StopProcess(s2, stops, s1.now, i);
    SteadyOn(s, s1, s3);
    if s3.authority.Some? {
      UnsubmittedIsSteady(s3, true);
      SteadyOn(s, s3, SettleUnsubmitted(s3, true));
    }
  }

  /** The host at the moment it polls its child. */
  function AtPoll(s: HostState, i: HostInput): HostState {
    Read(CheckSupport(ExpirePrepared(Refreshed(s, i), i), i))
  }

  lemma RefreshIsSteady(s: HostState, i: HostInput)
    ensures StaysSteady(s, Refreshed(s, i))
  {
    hide Asked, AnswerOf, HostSpec.Withdraw, IsSteady;
    SteadyWithItself(s);
    ReadIsSteady(s);
    var r := Read(s);
    if r.gate.phase == Active {
      var active := r.gate.config.binding;
      var c := CallObserveCapabilities(ExecutionCapabilities(active, COMPUTE_CAPABILITY, PROFILE, r.maximumIterations,
                                                             i.canLaunch,
                                                             RecordBy(r, OBSERVER, r.now), Expiry(r.now)));
      WithdrawIsSteady(Report(Numbered(r), c), active, i);
      SteadyOn(s, r, HostSpec.Withdraw(Report(Numbered(r), c), active, i).0);
    }
  }

  lemma PreparedIsSteady(s: HostState, i: HostInput)
    ensures StaysSteady(s, ExpirePrepared(s, i))
  {
    hide Expire, SettleUnsubmitted, IsPending, CurrentReceipt, IsSteady;
    ReadIsSteady(s);
    var s1 := Read(s);
    ExpireIsSteady(s1, s1.now, i);
    var s2 := Expire(s1, s1.now, i);
    SteadyOn(s, s1, s2);
    if s2.authority.Some? {
      UnsubmittedIsSteady(s2, true);
      SteadyOn(s, s2, SettleUnsubmitted(s2, true));
    }
  }

  lemma SupportIsSteady(s: HostState, i: HostInput)
    ensures StaysSteady(s, CheckSupport(s, i))
  {
    hide HostSpec.Withdraw, SupportsExecution, IsSteady;
    ReadIsSteady(s);
    var s1 := Read(s);
    ReadIsSteady(s1);
    var s2 := Read(s1);
    SteadyOn(s, s1, s2);
    WithdrawIsSteady(s2, s2.gate.config.binding, i);
    SteadyOn(s, s2, HostSpec.Withdraw(s2, s2.gate.config.binding, i).0);
  }

  lemma AtPollIsSteady(s: HostState, i: HostInput)
    ensures StaysSteady(s, AtPoll(s, i))
  {
    hide Refreshed, ExpirePrepared, CheckSupport, IsSteady;
    RefreshIsSteady(s, i);
    var t := Refreshed(s, i);
    PreparedIsSteady(t, i);
    var u := ExpirePrepared(t, i);
    SteadyOn(s, t, u);
    SupportIsSteady(u, i);
    var v := CheckSupport(u, i);
    SteadyOn(s, u, v);
    ReadIsSteady(v);
    SteadyOn(s, v, Read(v));
  }

  /** Nothing but a poll attempts to kill the child. */
  predicate KeepsAttempt(s: HostState, t: HostState) {
    && s.process.Some? && t.process.Some?
    && t.process.value.stopping.terminationAttempted == s.process.value.stopping.terminationAttempted
  }

  lemma SteadyAttempts(s: HostState, t: HostState)
    requires StaysSteady(s, t) && s.process.Some?
    ensures KeepsAttempt(s, t)
  {
  }

  lemma ReportsAttemptNothing(s: HostState)
    requires s.process.Some? && s.authority.Some?
    ensures KeepsAttempt(s, ReportStarted(s)) && ReportStarted(s).authority == s.authority
            && ReportStarted(s).request == s.request
    ensures KeepsAttempt(s, ReportStop(s)) && ReportStop(s).authority == s.authority
            && ReportStop(s).request == s.request
  {
    hide Asked, AnswerOf;
  }

  lemma RespondAttemptsNothing(s: HostState, i: HostInput)
    requires s.process.Some? && s.authority.Some? && s.request.Some?
    ensures KeepsAttempt(s, Respond(s, i))
  {
    hide CancelFor, ReportStarted, ReportStop, Finish, IsTroubled, StaysSteady;
    CancelIsSteady(s, s.authority.value, i);
    SteadyAttempts(s, CancelFor(s, s.authority.value, i).0);
    var t := if IsTroubled(s.process.value) then CancelFor(s, s.authority.value, i).0 else s;
    if t.process.Some? && t.authority.Some? && t.request.Some? {
      ReportsAttemptNothing(t);
      var u := ReportStarted(t);
      ReportsAttemptNothing(u);
      FinishAttemptsNothing(ReportStop(u), i);
    }
  }

  lemma FinishAttemptsNothing(s: HostState, i: HostInput)
    requires s.process.Some? && s.authority.Some? && s.request.Some?
    ensures KeepsAttempt(s, Finish(s, i))
  {
    hide ReportOutcome, CloseAndSettle, IsDone;
    OutcomeAttemptsNothing(s, i);
    var t := if s.flags.outcomeReported then s else ReportOutcome(s, i);
    if t.authority.Some? { ClosingAttemptsNothing(t, i); }
  }

  lemma ClosingAttemptsNothing(s: HostState, i: HostInput)
    requires s.process.Some? && s.authority.Some?
    ensures KeepsAttempt(s, CloseAndSettle(s, i))
  {
    hide Asked, AnswerOf;
  }

  lemma OutcomeAttemptsNothing(s: HostState, i: HostInput)
    requires s.process.Some? && s.authority.Some? && s.request.Some?
    ensures KeepsAttempt(s, ReportOutcome(s, i))
  {
    hide Asked, AnswerOf, Expire, HostSpec.OutcomeOf, HostSpec.Succeeded, CanDeliverResult, StaysSteady;
    var r := Read(s);
    ExpireIsSteady(r, r.now, i);
    SteadyAttempts(r, Expire(r, r.now, i));
    var t := ExpireNow(s, i);
    var u := Read(ReportNative(t, HostSpec.OutcomeOf(t.process.value, t.request.value.iterations), t.now));
    ExpireIsSteady(u, u.now, i);
    SteadyAttempts(u, Expire(u, u.now, i));
  }

  /** A child that is still there after a poll at this time, as far as its owner can tell. */
  predicate IsStillThere(p: ProcessState, i: HostInput) {
    && p.reaping.owned && p.reaping.exit.None? && !p.reaping.ownershipLost
      && (i.poll.wait.NotYet? || i.poll.wait.WaitFailed?)
  }

  /** What is wrong with a child: what it sent, or reading it, or a request to end it that is still open. */
  predicate IsWrong(p: ProcessState, q: ProcessState) {
    q.stream.view.malformed || q.stream.ioError != 0 || p.stopping.terminationPending
  }

  /** A stop it was not told of, or one it had its grace to follow. */
  predicate IsOverdue(p: ProcessState, now: U64) {
    && p.stream.view.stopRequested
    && (!p.stopping.delivered
        || (p.stopping.requestedAt.Some? && p.stopping.requestedAt.value + p.stopGrace <= now))
  }

  /**
   A poll of the host kills its child if and only if the child is still there, was not killed before, and something is
   wrong with it or it is overdue at the moment of the poll; between the call and that moment a stop once asked
   for stays
   as it was.
   */
  lemma PollKillsExactly(s: HostState, i: HostInput)
    requires HostInv(s) && OwnsChild(s) && s.shutdown != ShutdownClosed
    ensures var t, u := AtPoll(s, i), PollHost(s, i);
      && StaysSteady(s, t) && t.process.Some? && u.process.Some? && |t.process.value.stream.buffer| < FRAME_BYTES
      && var p, q := t.process.value, PS.Poll(t.process.value, t.now, i.pipe, i.poll).0;
         u.process.value.stopping.terminationAttempted <==>
         p.stopping.terminationAttempted || (IsStillThere(p, i) && (IsWrong(p, q) || IsOverdue(p, t.now)))
  {
    hide HostInv, Refreshed, ExpirePrepared, CheckSupport, Respond, PS.Poll, IsSteady, UpdateShutdown, OwnsChild,
         AtPoll;
    AtPollIsSteady(s, i);
    AtPollKeeps(s, i);
    var t := AtPoll(s, i);
    PollHostUnfolds(s, i);
    var polled := t.(process := Some(PS.Poll(t.process.value, t.now, i.pipe, i.poll).0));
    PollAttempts(t.process.value, t.now, i);
    RespondAttemptsNothing(polled, i);
    ShutdownKeepsChild(Respond(polled, i));
  }

  lemma ShutdownKeepsChild(s: HostState)
    ensures UpdateShutdown(s).process == s.process
  {
  }

  lemma PollAttempts(p: ProcessState, now: U64, i: HostInput)
    requires |p.stream.buffer| < FRAME_BYTES && p.launched && !p.channels.closed && ClosesLast(p)
    ensures var q := PS.Poll(p, now, i.pipe, i.poll).0;
      q.stopping.terminationAttempted <==>
      p.stopping.terminationAttempted || (IsStillThere(p, i) && (IsWrong(p, q) || IsOverdue(p, now)))
  {
    hide DrainEvents, Supervise;
    DrainEventsEffects(p, i.pipe, i.poll);
    SuperviseEffects(DrainEvents(p, i.pipe, i.poll).0, now, i.poll);
    SupervisionIsExact(DrainEvents(p, i.pipe, i.poll).0, now, i.poll);
  }

  lemma SteadyIsOwned(s: HostState, t: HostState)
    requires StaysSteady(s, t) && OwnsChild(s)
    ensures OwnsChild(t) && IsLaunched(t)
  {
  }

  /** What the host polls is the child it was called with, still open. */
  lemma AtPollKeeps(s: HostState, i: HostInput)
    requires HostInv(s) && OwnsChild(s)
    ensures var t := AtPoll(s, i);
      && t.process.Some? && t.authority.Some? && t.request.Some? && t.process.value.launched
      && !t.process.value.channels.closed && |t.process.value.stream.buffer| < FRAME_BYTES
        && ClosesLast(t.process.value)
    ensures OwnsChild(ExpirePrepared(Refreshed(s, i), i)) && IsLaunched(ExpirePrepared(Refreshed(s, i), i))
  {
    hide HostInv, Refreshed, ExpirePrepared, CheckSupport, StaysSteady, ChildStays;
    RefreshIsSteady(s, i);
    var t := Refreshed(s, i);
    PreparedIsSteady(t, i);
    SteadyOn(s, t, ExpirePrepared(t, i));
    SteadyIsOwned(s, ExpirePrepared(t, i));
    AtPollIsSteady(s, i);
    SteadyIsOwned(s, AtPoll(s, i));
    RefreshedKeeps(s, i);
    HostInvOf(s, t);
    ExpirePreparedKeeps(t, i);
    HostInvOf(t, ExpirePrepared(t, i));
    CheckSupportKeeps(ExpirePrepared(t, i), i);
    HostInvOf(ExpirePrepared(t, i), CheckSupport(ExpirePrepared(t, i), i));
    ReadKeeps(CheckSupport(ExpirePrepared(t, i), i));
    HostInvOf(CheckSupport(ExpirePrepared(t, i), i), AtPoll(s, i));
    ChildIsInHand(AtPoll(s, i));
  }

  lemma ChildIsInHand(s: HostState)
    requires HostInv(s) && s.process.Some?
    ensures s.authority.Some? && s.request.Some? && |s.process.value.stream.buffer| < FRAME_BYTES
            && ClosesLast(s.process.value)
  {
    hide GateFits, ClosesLast, ExpectedSum;
  }

  lemma PollHostUnfolds(s: HostState, i: HostInput)
    requires HostInv(s) && OwnsChild(s) && s.shutdown != ShutdownClosed
    ensures var t := AtPoll(s, i);
      && t.process.Some? && |t.process.value.stream.buffer| < FRAME_BYTES && t.authority.Some? && t.request.Some?
      && PollHost(s, i)
      == UpdateShutdown(Respond(t.(process := Some(PS.Poll(t.process.value, t.now, i.pipe, i.poll).0)), i))
  {
    hide HostInv, Refreshed, ExpirePrepared, CheckSupport, Respond, PS.Poll, UpdateShutdown;
    AtPollKeeps(s, i);
  }

  /**
   A child that was asked to stop and could not be told, or has had its grace when the host is polled, and is
   still there
   and has not been reaped, is killed by that poll if it was not before.
   */
  lemma OverdueChildIsKilled(s: HostState, i: HostInput)
    requires HostInv(s) && OwnsChild(s) && s.shutdown != ShutdownClosed
    requires IsOverdue(s.process.value, s.now) && IsStillThere(s.process.value, i)
    ensures PollHost(s, i).process.Some? && PollHost(s, i).process.value.stopping.terminationAttempted
  {
    hide HostInv, PollHost, AtPoll;
    PollKillsExactly(s, i);
  }

  /** As callers of a poll see it. */
  lemma OverdueChildIsKilledByCall(s: HostState, i: HostInput, readings: seq<U64>)
    requires Rests(s) && OwnsChild(s) && s.shutdown != ShutdownClosed
    requires IsOverdue(s.process.value, s.now) && IsStillThere(s.process.value, i)
    ensures var t := HostNext(s, HostCall(DoPoll, i, readings));
      t.process.Some? && t.process.value.stopping.terminationAttempted
  {
    hide HostInv, PollHost, HasNoChild;
    SameAfterReadings(s, readings);
    OverdueChildIsKilled(s.(readings := readings), i);
  }

  // ---------- Preparing and dispatching ----------

  /** A request within the bounds a host accepts at all. */
  predicate IsWithinBounds(q: ComputeRequest) {
    0 < |q.reference| <= 128 && 0 < q.iterations <= 100_000_000 && 0 < |q.profileId| <= 128
  }

  /** What the gate must allow, at a time, for a request to be prepared. */
  predicate GateAllows(g: GateState, q: ComputeRequest, at: U64) {
    && g.phase == Active && g.initialization == Ready && g.nextOperationId != 0
    && (g.receipt.Some? ==> g.receipt.value.disposition == Released)
    && (q.deadline.Some? ==> at < q.deadline.value)
    && GL.Supports(g.capabilities, ExecutionRequirements(q.profileId, q.iterations), at)
  }

  /**
   A request is prepared if and only if it is within bounds, no evidence was refused, the host is not shutting down, and
   its gate, looked at anew, allows it. Nothing of earlier work is then in hand.
   */
  lemma PrepareIsExact(s: HostState, q: ComputeRequest, i: HostInput)
    requires HostInv(s)
    ensures var (t, d) := HostSpec.Prepare(s, q, i);
      var stock := TakeStock(s, i);
      if !IsWithinBounds(q) then t == s && d.status == InvalidSubmission
      else if s.flags.evidenceError || s.shutdown != ShutdownOpen then t == s && d.status == BlockedSubmission
      else if GateAllows(stock.gate, q, stock.now) then
        && d.status == PreparedSubmission && d.authority.Some? && t.authority == d.authority && t.request == Some(q)
        && t.process.None? && t.result.None? && t.gate.receipt.Some?
        && t.gate.receipt.value.authority == d.authority.value && t.gate.receipt.value.deadline == q.deadline
        && t.gate.receipt.value.requirements == Some(ExecutionRequirements(q.profileId, q.iterations))
      else d.status == BlockedSubmission && d.authority.None? && t == stock
  {
    hide HostInv, TakeStock, GateSpec.Admit, GateAllows, GL.Supports;
    TakeStockKeeps(s, i);
    var stock := TakeStock(s, i);
    HostInvOf(s, stock);
    GateIsInTime(stock);
    if IsWithinBounds(q) { GateAllowsExactly(stock, q); }
  }

  lemma GateAllowsExactly(s: HostState, q: ComputeRequest)
    requires HostInv(s) && IsWithinBounds(q)
    ensures var (h, d) := GateSpec.Admit(s.gate, OperationFor(s, q));
      if GateAllows(s.gate, q, s.now) then
        && d.authority.Some? && h.receipt.Some? && h.receipt.value.authority == d.authority.value
        && h.receipt.value.deadline == q.deadline
        && h.receipt.value.requirements == Some(ExecutionRequirements(q.profileId, q.iterations))
      else d.authority.None? && h == s.gate
  {
    hide AdmissionRefusal, HostInv, Inv, GL.Supports, EndsBy;
    GateIsInTime(s);
    NothingIsLater(s.gate, s.now);
    CapabilityIsOwn(s);
    GL.AdmissionChecks(s.gate, OperationFor(s, q));
  }

  lemma NothingIsLater(g: GateState, now: U64)
    requires GateEndsBy(g, now)
    ensures GL.FollowsAll(g, now) <==> (g.receipt.Some? ==> g.receipt.value.disposition == Released)
  {
    hide EndsBy;
  }

  lemma CapabilityIsOwn(s: HostState)
    requires HostInv(s)
    ensures s.gate.config.capabilityId == COMPUTE_CAPABILITY
  {
    hide InTime, ExpectedSum;
  }

  /**
   A dispatch that says so has launched the child, for just what was asked, and the gate holds the work as
   submitted.
   */
  lemma DispatchLaunches(s: HostState, a: OperationAuthority, i: HostInput)
    requires HostInv(s)
    ensures var (t, launched) := HostSpec.Dispatch(s, a, i);
      && (launched ==>
            && s.authority == Some(a) && s.process.None? && IsLaunched(t) && i.launch.Spawned?
            && t.process.value.limit == s.request.value.iterations && t.gate.receipt.Some?
              && t.gate.receipt.value.dispatch.status == Submitted && !s.flags.evidenceError)
      && (!launched ==> t.process == s.process || (s.process.None? && t.process.Some? && !t.process.value.launched))
  {
    hide HostInv, ObserveLaunchable, Expire, DispatchFrom, IsPending, CurrentReceipt;
    if s.authority == Some(a) && s.request.Some? && s.process.None? {
      var s1 := Read(s);
      ReadKeeps(s);
      ObserveLaunchableKeeps(s1, s1.now, i);
      var s2 := ObserveLaunchable(s1, s1.now, i).0;
      HostInvOf(s1, s2);
      var s3 := Read(s2);
      ReadKeeps(s2);
      ExpireKeeps(s3, s3.now, i);
      var s4 := Expire(s3, s3.now, i);
      HostInvOf(s3, s4);
      if s4.authority.Some? && s4.request.Some? { LaunchIsExact(s4, a, i); }
    }
  }

  lemma LaunchIsExact(s: HostState, a: OperationAuthority, i: HostInput)
    requires HostInv(s) && s.authority.Some? && s.request.Some? && s.process.None?
    ensures var (t, launched) := DispatchFrom(s, a, i);
      && (launched ==>
            && !s.flags.evidenceError && i.launch.Spawned? && IsLaunched(t)
            && t.process.value.limit == s.request.value.iterations && t.gate.receipt.Some?
            && t.gate.receipt.value.dispatch.status == Submitted)
      && (!launched ==> t.process.None? || !t.process.value.launched)
  {
    hide HostInv, Asked, AnswerOf, SettleUnsubmitted, ChildStays;
    UnsubmittedKeepsChild(s, true);
    var claim := CallClaimDispatch(a, s.now);
    UnsubmittedKeepsChild(Ask(s, claim), true);
    if !s.flags.evidenceError && AnswerOf(s.gate, claim) == GateSpec.Dispatch(true) {
      ClaimSubmits(s, a);
      ClaimKeeps(s, a, i);
      var (t, launched) := LaunchProcess(Ask(s, claim), i);
      HostInvOf(s, t);
      UnsubmittedKeepsChild(t, t.process.value.stream.ioError == 0);
      ReadKeeps(t);
      HostInvOf(t, Read(t));
      AcceptanceKeepsDispatch(Read(t));
    }
  }

  lemma ClaimSubmits(s: HostState, a: OperationAuthority)
    requires HostInv(s) && AnswerOf(s.gate, CallClaimDispatch(a, s.now)) == GateSpec.Dispatch(true)
    ensures var h := Asked(s.gate, CallClaimDispatch(a, s.now));
      h.receipt.Some? && h.receipt.value.dispatch.status == Submitted
  {
    hide Inv, SupportsExecution, GateEndsBy;
    InvIsCallable(s.gate);
  }

  lemma AcceptanceKeepsDispatch(s: HostState)
    requires HostInv(s) && s.authority.Some?
    ensures var t := ReportNative(s, AcceptedEvent, s.now);
      && t.process == s.process && (s.gate.receipt.Some? ==> t.gate.receipt.Some?)
      && (s.gate.receipt.Some? ==> t.gate.receipt.value.dispatch == s.gate.receipt.value.dispatch)
  {
    hide HostInv, ObserveNative, AnswerOf;
    GateIsInTime(s);
    NativeEffects(s.gate, NativeEvidence(s.authority.value, NativeIdentity(s.authority.value.operationId),
                                         AcceptedEvent,
                                         RecordBy(s, NATIVE, s.now)));
  }

  // ---------- Reporting ----------

  /** Once the channels of a finished child are closed its work is settled, or it is remembered that it could not be. */
  lemma ClosedWorkIsSettled(s: HostState, i: HostInput)
    requires HostInv(s) && s.process.Some? && s.authority.Some?
             && CloseChannels(s.process.value, i.controlClose, i.eventClose).1
    ensures var t := CloseAndSettle(s, i);
      && t.process.Some? && t.process.value.channels.closed && t.gate.receipt.Some?
      && (t.gate.receipt.value.settlement.Some? || t.flags.evidenceError)
  {
    hide HostInv, CloseChannels, Asked, AnswerOf;
    HandsAgree(s);
    ClosesWhenAble(s.process.value, i);
    var u := Read(s.(process := Some(CloseChannels(s.process.value, i.controlClose, i.eventClose).0)));
    ReadKeeps(s);
    GateIsInTime(s);
    SettlementTells(u.gate, SettlementEvidence(s.authority.value, CLEANUP_SCOPE, true, RecordBy(u, OBSERVER, u.now)));
  }

  lemma ClosesWhenAble(p: ProcessState, i: HostInput)
    ensures var (q, closed) := CloseChannels(p, i.controlClose, i.eventClose); closed ==> q.channels.closed
  {
  }

  lemma SettlementTells(g: GateState, e: SettlementEvidence)
    requires Callable(g)
    ensures var h := Asked(g, CallObserveSettlement(e));
      && (h.receipt.Some? <==> g.receipt.Some?)
      && (AnswerOf(g, CallObserveSettlement(e)) != Evidence(Rejected) ==>
          h.receipt.Some? && h.receipt.value.settlement.Some?)
  {
    hide Callable, IsWellFormed, LatestEffectTime, FollowsSameSource, HasResolvedEffects, DispositionOf;
  }

  /** What the gate hears about a stop is what the child was seen to make of it. */
  lemma StopAnswerIsTrue(s: HostState)
    requires HostInv(s) && s.process.Some? && s.authority.Some? && s.gate.receipt.Some?
    requires s.gate.receipt.value.control.stop.None?
    ensures var t := ReportStop(s);
      t.gate.receipt.Some?
        && (t.gate.receipt.value.control.stop.Some? ==>
              var p, told := s.process.value, t.gate.receipt.value.control.stopAcknowledgement;
              && p.stream.view.stopRequested
              && (told == Unavailable <==> !p.stopping.delivered)
              && (told == Refused <==> p.stopping.delivered && p.stream.view.stopIgnored)
              && (told == Acknowledged <==>
                  p.stopping.delivered && !p.stream.view.stopIgnored && p.stream.view.stopAcknowledged))
  {
    hide HostInv, Asked, AnswerOf;
    GateIsInTime(s);
    var t := Read(s);
    StopTells(t.gate, StopAcknowledgementEvidence(t.authority.value, StopOutcome(s.process.value),
                                                  RecordBy(t, STOP, t.now)));
  }

  lemma StopTells(g: GateState, e: StopAcknowledgementEvidence)
    requires Callable(g) && g.receipt.Some? && g.receipt.value.control.stop.None?
    ensures var h := Asked(g, CallObserveStop(e));
      h.receipt.Some?
        && (h.receipt.value.control.stop.Some? ==> h.receipt.value.control.stopAcknowledgement == e.acknowledgement)
  {
    hide IsWellFormed, Callable;
  }
}
