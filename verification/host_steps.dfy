/** Every public call of the compute host keeps the host's invariant: one lemma per function of HostSpec. */
module HostSteps {
  import opened Machine
  import opened Sums
  import opened Frames
  import opened GateTypes
  import opened GateSpec
  import opened GateInvariant
  import opened GateEffects
  import PS = ProcessSpec
  import opened ProcessSpec
  import opened HostSpec
  import opened HostInvariant

  lemma LeadsOn(s: HostState, t: HostState, u: HostState)
    requires Leads(s, t) && Leads(t, u)
    ensures Leads(s, u)
  {
    hide HostInv;
  }

  lemma LeadsThrice(s: HostState, t: HostState, u: HostState, v: HostState)
    requires Leads(s, t) && Leads(t, u) && Leads(u, v)
    ensures Leads(s, v)
  {
    LeadsOn(s, t, u);
    LeadsOn(s, u, v);
  }

  lemma StandingStill(s: HostState)
    requires HostInv(s)
    ensures Leads(s, s)
  {
    hide HostInv;
  }

  // ---------- Reports ----------

  lemma NumberedKeeps(s: HostState)
    requires HostInv(s)
    ensures Leads(s, Numbered(s))
  {
    hide GateFits, ClosesLast, ExpectedSum, Completed, StoppedShort, FellShort;
  }

  lemma ReportKeeps(s: HostState, c: Call)
    requires HostInv(s) && IsPlain(c) && TimeOf(c) <= s.now
    ensures Leads(s, Report(Numbered(s), c)) && Report(Numbered(s), c).process == s.process
  {
    hide HostInv, Leads, Asked, AnswerOf, IsPlain, TimeOf;
    NumberedKeeps(s);
    HostInvOf(s, Numbered(s));
    AskKeeps(Numbered(s), c);
    LeadsOn(s, Numbered(s), Report(Numbered(s), c));
  }

  lemma HostInvOf(s: HostState, t: HostState)
    requires Leads(s, t)
    ensures HostInv(t) && Stays(s, t)
  {
    hide HostInv;
  }

  predicate SameChannels(s: HostState, t: HostState) {
    && (s.process.Some? <==> t.process.Some?)
    && (s.process.Some? ==>
          t.process.value.launched == s.process.value.launched && t.process.value.channels == s.process.value.channels)
  }

  /** Of a child that is asked to stop all that was known stays known. */
  lemma StopForgetsNothing(p: ProcessState, time: U64, send: Option<int>)
    ensures var q := RequestStop(p, time, send);
      && SameChild(p, q) && q.launched == p.launched && q.channels == p.channels && q.stream.buffer == p.stream.buffer
      && (ClosesLast(p) ==> ClosesLast(q)) && (CancelsWhenAsked(p) ==> CancelsWhenAsked(q))
      && forall n :: (Completed(p, n) ==> Completed(q, n)) && (StoppedShort(p, n) ==> StoppedShort(q, n))
                     && (CancelsWhenAsked(p) && FellShort(p, n) ==> FellShort(q, n))
  {
    hide ExpectedSum;
  }

  lemma StopKeeps(s: HostState, should: bool, time: U64, i: HostInput)
    requires HostInv(s)
    ensures Leads(s, StopProcess(s, should, time, i)) && SameChannels(s, StopProcess(s, should, time, i))
  {
    hide GateFits, ExpectedSum, RequestStop, ClosesLast, CancelsWhenAsked, Completed, StoppedShort, FellShort;
    if s.process.Some? { StopForgetsNothing(s.process.value, time, i.stopSend); }
  }

  lemma ExpireKeeps(s: HostState, time: U64, i: HostInput)
    requires HostInv(s) && time <= s.now
    ensures Leads(s, Expire(s, time, i)) && SameChannels(s, Expire(s, time, i))
  {
    hide HostInv, Leads, Asked, AnswerOf, StopProcess;
    if s.authority.None? {
      StandingStill(s);
    } else {
      var c := CallObserveTime(s.authority.value, time);
      AskKeeps(s, c);
      HostInvOf(s, Ask(s, c));
      StopKeeps(Ask(s, c), ShouldRequestStop(AnswerOf(s.gate, c)), time, i);
      LeadsOn(s, Ask(s, c), Expire(s, time, i));
    }
  }

  // ---------- Settling ----------

  /** The gate a settlement leaves behind. */
  ghost predicate Settles(g: GateState, h: GateState, now: U64) {
    && GateFits(h, now) && (h.phase == Preparing ==> g.phase == Preparing) && (h.receipt.Some? <==> g.receipt.Some?)
    && (g.receipt.Some? ==>
          && h.receipt.value.authority == g.receipt.value.authority && h.receipt.value.output == g.receipt.value.output
          && h.receipt.value.native == g.receipt.value.native
          && h.receipt.value.dispatch == g.receipt.value.dispatch
          && (g.receipt.value.settlement.Some? ==> h.receipt.value.settlement == g.receipt.value.settlement))
  }

  lemma GateSettles(g: GateState, e: SettlementEvidence, now: U64)
    requires GateFits(g, now) && e.record.observedAt <= now
    ensures Settles(g, Asked(g, CallObserveSettlement(e)), now)
  {
    hide GateFits, ObserveSettlement, Callable;
    SettlementEffects(g, e);
    CallFits(g, CallObserveSettlement(e), now);
    OnlyBeginPrepares(g, CallObserveSettlement(e));
  }

  lemma SettledGateKeeps(s: HostState, h: GateState, e: bool)
    requires HostInv(s) && OwnsNothing(s) && Settles(s.gate, h, s.now) && (s.flags.evidenceError ==> e)
    ensures Leads(s, s.(gate := h, flags := s.flags.(evidenceError := e)))
  {
    hide GateFits, ClosesLast, HasExited, ExpectedSum, Completed, StoppedShort, FellShort;
  }

  /** Work that owns nothing may be settled. */
  lemma SettleKeeps(s: HostState, time: U64)
    requires HostInv(s) && OwnsNothing(s) && s.authority.Some? && time <= s.now
    ensures Leads(s, ReportSettlement(s, time)) && ReportSettlement(s, time).process == s.process
  {
    var e := SettlementEvidence(s.authority.value, CLEANUP_SCOPE, true, RecordBy(s, OBSERVER, time));
    GateSettles(s.gate, e, s.now);
    NumberedKeeps(s);
    SettledGateKeeps(Numbered(s), Asked(s.gate, CallObserveSettlement(e)),
                     ReportSettlement(s, time).flags.evidenceError);
  }

  lemma NonSubmissionReported(s: HostState)
    requires HostInv(s) && s.authority.Some?
    ensures var t := Report(Numbered(s),
                            CallObserveNonSubmission(NonSubmissionEvidence(s.authority.value,
                                                                           RecordBy(s, OBSERVER, s.now))));
      Leads(s, t) && t.process == s.process && t.now == s.now
  {
    hide HostInv, Leads, Asked, AnswerOf;
    ReportKeeps(s, CallObserveNonSubmission(NonSubmissionEvidence(s.authority.value, RecordBy(s, OBSERVER, s.now))));
  }

  lemma SettleUnsubmittedKeeps(s: HostState, cleanupConfirmed: bool)
    requires HostInv(s) && OwnsNothing(s) && s.authority.Some?
    ensures Leads(s, SettleUnsubmitted(s, cleanupConfirmed))
    ensures SettleUnsubmitted(s, cleanupConfirmed).process == s.process
  {
    hide HostInv, Report, ReportNoOutput, ReportSettlement, ChildStays;
    ReadKeeps(s);
    var s1 := Read(s);
    NonSubmissionReported(s1);
    var s2 := Report(Numbered(s1),
                     CallObserveNonSubmission(NonSubmissionEvidence(s1.authority.value,
                                                                    RecordBy(s1, OBSERVER, s1.now))));
    HostInvOf(s1, s2);
    ReportNoOutputKeeps(s2, s1.now);
    var s3 := ReportNoOutput(s2, s1.now);
    LeadsThrice(s, s1, s2, s3);
    HostInvOf(s2, s3);
    if cleanupConfirmed { SettleKeeps(s3, s1.now); } else { ErrorKeeps(s3); }
    LeadsOn(s, s3, SettleUnsubmitted(s, cleanupConfirmed));
  }

  lemma ErrorKeeps(s: HostState)
    requires HostInv(s)
    ensures Leads(s, s.(flags := s.flags.(evidenceError := true)))
  {
    hide GateFits, ClosesLast, ExpectedSum, Completed, StoppedShort, FellShort;
  }

  lemma PendingOwnsNothing(s: HostState)
    requires HostInv(s) && IsPending(CurrentReceipt(s))
    ensures s.process.None? && s.authority.Some? && s.gate.receipt.Some? && s.gate.receipt.value.settlement.None?
    ensures s.shutdown != ShutdownClosed
  {
  }

  // ---------- Withdrawing, preparing, dispatching ----------

  /** A stop, and then a settlement of work that was still pending. */
  lemma StopAndSettleKeep(s: HostState, should: bool, time: U64, settles: bool, i: HostInput)
    requires HostInv(s)
    ensures var t := StopProcess(s, should, time, i);
            var u := if settles && IsPending(CurrentReceipt(t)) && t.authority.Some? then SettleUnsubmitted(t, true)
            else t;
            Leads(s, u) && SameChannels(s, u)
  {
    hide HostInv, Stays, StopProcess, SettleUnsubmitted, IsPending, CurrentReceipt;
    StopKeeps(s, should, time, i);
    var t := StopProcess(s, should, time, i);
    if settles && IsPending(CurrentReceipt(t)) {
      PendingOwnsNothing(t);
      SettleUnsubmittedKeeps(t, true);
      LeadsOn(s, t, SettleUnsubmitted(t, true));
    }
  }

  lemma WithdrawKeepsHost(s: HostState, expected: BindingIdentity, i: HostInput)
    requires HostInv(s)
    ensures Leads(s, Withdraw(s, expected, i).0) && SameChannels(s, Withdraw(s, expected, i).0)
  {
    hide HostInv, Asked, GateSpec.WithdrawBinding, StopProcess, SettleUnsubmitted, IsPending, CurrentReceipt, Stays;
    ReadKeeps(s);
    var s1 := Read(s);
    var d := GateSpec.WithdrawBinding(s1.gate, expected, s1.now).1;
    var c := CallWithdraw(expected, s1.now);
    AskKeeps(s1, c);
    var s2 := Ask(s1, c);
    LeadsOn(s, s1, s2);
    if d.status == Applied {
      var stops := d.nativeStopAuthority.Some? && d.nativeStopAuthority == s2.authority;
      StopAndSettleKeep(s2, stops, s1.now, true, i);
      var s3 := StopProcess(s2, stops, s1.now, i);
      StopKeeps(s2, stops, s1.now, i);
      if IsPending(CurrentReceipt(s3)) { PendingOwnsNothing(s3); }
      LeadsOn(s, s2, Withdraw(s, expected, i).0);
    }
  }

  lemma ObserveLaunchableKeeps(s: HostState, time: U64, i: HostInput)
    requires HostInv(s) && time <= s.now
    ensures Leads(s, ObserveLaunchable(s, time, i).0) && SameChannels(s, ObserveLaunchable(s, time, i).0)
  {
    hide HostInv, Asked, AnswerOf, Withdraw;
    if s.gate.phase != Active {
      StandingStill(s);
    } else {
      var active := s.gate.config.binding;
      var c := CallObserveCapabilities(ExecutionCapabilities(active, COMPUTE_CAPABILITY, PROFILE, s.maximumIterations,
                                                             i.canLaunch, RecordBy(s, OBSERVER, time), Expiry(time)));
      ReportKeeps(s, c);
      var t := Report(Numbered(s), c);
      HostInvOf(s, t);
      WithdrawKeepsHost(t, active, i);
    }
  }

  /** The gate just after an admission. */
  ghost predicate HasAdmitted(g: GateState, a: OperationAuthority, now: U64) {
    && GateFits(g, now) && g.phase == Active && g.receipt.Some? && g.receipt.value.authority == a
    && g.receipt.value.dispatch.status == DispatchPending && g.receipt.value.output.disposition == OutputPending
    && g.receipt.value.settlement.None? && g.receipt.value.native.succeeded.None?
    && g.receipt.value.native.failed.None? && g.receipt.value.native.cancelled.None?
  }

  lemma AdmissionAdmits(g: GateState, q: OperationRequest)
    requires GateFits(g, q.requestedAt) && Admit(g, q).1.authority.Some?
    ensures HasAdmitted(Asked(g, CallAdmit(q)), Admit(g, q).1.authority.value, q.requestedAt)
  {
    hide GateFits, Callable, GateSpec.Admit;
    AdmissionEffects(g, q);
    CallFits(g, CallAdmit(q), q.requestedAt);
  }

  lemma TakenUpKeeps(s: HostState, g: GateState, a: OperationAuthority, q: ComputeRequest)
    requires HasAdmitted(g, a, s.now) && s.shutdown == ShutdownOpen && IsRequest(q)
    ensures HostInv(TakeUp(s.(gate := g), a, q))
  {
    hide GateFits;
  }

  /** A request is taken up only when nothing of the work before it is owned any more. */
  lemma TakeUpKeeps(s: HostState, q: ComputeRequest)
    requires HostInv(s) && s.shutdown == ShutdownOpen && IsRequest(q)
    requires GateSpec.Admit(s.gate, OperationFor(s, q)).1.authority.Some?
    ensures var a := GateSpec.Admit(s.gate, OperationFor(s, q)).1.authority.value;
            HostInv(TakeUp(Ask(s, CallAdmit(OperationFor(s, q))), a, q))
    ensures OwnsNothing(s) && Asked(s.gate, CallAdmit(OperationFor(s, q))).phase == Active
  {
    hide GateFits, GateSpec.Admit, Asked, TakeUp;
    AdmissionEffects(s.gate, OperationFor(s, q));
    AdmissionAdmits(s.gate, OperationFor(s, q));
    var a := GateSpec.Admit(s.gate, OperationFor(s, q)).1.authority.value;
    TakenUpKeeps(s, Asked(s.gate, CallAdmit(OperationFor(s, q))), a, q);
  }

  lemma ReadingsStay(s: HostState, t: HostState)
    requires SameChannels(Read(s), t)
    ensures SameChannels(s, Read(Read(t))) && (OwnsNothing(Read(Read(t))) ==> OwnsNothing(s))
  {
  }

  lemma TakeStockKeeps(s: HostState, i: HostInput)
    requires HostInv(s)
    ensures Leads(s, TakeStock(s, i)) && SameChannels(s, TakeStock(s, i))
    ensures OwnsNothing(TakeStock(s, i)) ==> OwnsNothing(s)
  {
    hide HostInv, ObserveLaunchable, Stays, SameChannels, OwnsNothing;
    ReadKeeps(s);
    var s1 := Read(s);
    ObserveLaunchableKeeps(s1, s1.now, i);
    var t := ObserveLaunchable(s1, s1.now, i).0;
    ReadingsStay(s, t);
    ReadKeeps(t);
    ReadKeeps(Read(t));
    LeadsOn(t, Read(t), Read(Read(t)));
    LeadsThrice(s, s1, t, Read(Read(t)));
  }

  /** Until a request is taken up, the work in hand is kept; when one is, it owned nothing. */
  lemma PrepareKeeps(s: HostState, q: ComputeRequest, i: HostInput)
    requires HostInv(s)
    ensures var (t, d) := Prepare(s, q, i);
      && HostInv(t)
      && (d.authority.None? ==> Leads(s, t) && SameChannels(s, t))
      && (d.authority.Some? ==>
          OwnsNothing(s) && t.process.None? && t.result.None? && t.authority == d.authority && t.gate.phase == Active)
  {
    hide HostInv, OperationFor, GateSpec.Admit, TakeStock, ChildStays, OwnsNothing;
    StandingStill(s);
    if IsRequest(q) && !s.flags.evidenceError && s.shutdown == ShutdownOpen {
      TakeStockKeeps(s, i);
      var s2 := TakeStock(s, i);
      HostInvOf(s, s2);
      AdmissionEffects(s2.gate, OperationFor(s2, q));
      if GateSpec.Admit(s2.gate, OperationFor(s2, q)).1.authority.Some? { TakeUpKeeps(s2, q); }
    }
  }

  // ---------- Dispatching ----------

  lemma LaunchKeeps(s: HostState, i: HostInput)
    requires HostInv(s) && s.process.None? && s.request.Some? && s.gate.receipt.Some?
    requires s.gate.receipt.value.dispatch.status != DispatchPending && s.gate.receipt.value.settlement.None?
    ensures var (t, ok) := LaunchProcess(s, i);
      Leads(s, t) && t.process.Some? && (!ok ==> !t.process.value.launched)
  {
    hide GateFits, ExpectedSum;
  }

  /** A claim that is granted finds pending work and leaves it submitted. */
  lemma ClaimEffects(s: HostState, authority: OperationAuthority, at: U64)
    requires HostInv(s) && AnswerOf(s.gate, CallClaimDispatch(authority, at)) == GateSpec.Dispatch(true)
    ensures IsPending(CurrentReceipt(s))
    ensures var h := Asked(s.gate, CallClaimDispatch(authority, at));
      && h.receipt.Some? && h.receipt.value.dispatch.status != DispatchPending && h.receipt.value.settlement.None?
  {
    hide Inv, SupportsExecution, GateEndsBy;
    InvIsCallable(s.gate);
    SettledIsNotPending(s.gate);
  }

  lemma ClaimKeeps(s: HostState, authority: OperationAuthority, i: HostInput)
    requires HostInv(s) && s.process.None? && s.authority.Some? && s.request.Some?
    requires AnswerOf(s.gate, CallClaimDispatch(authority, s.now)) == GateSpec.Dispatch(true)
    ensures var (t, launched) := LaunchProcess(Ask(s, CallClaimDispatch(authority, s.now)), i);
      Leads(s, t) && t.process.Some? && (!launched ==> OwnsNothing(t))
  {
    hide HostInv, Asked, AnswerOf, LaunchProcess, ChildStays;
    var c := CallClaimDispatch(authority, s.now);
    ClaimEffects(s, authority, s.now);
    AskKeeps(s, c);
    HostInvOf(s, Ask(s, c));
    LaunchKeeps(Ask(s, c), i);
    LeadsOn(s, Ask(s, c), LaunchProcess(Ask(s, c), i).0);
  }

  /** Claimed work is launched, or settled without having run. */
  lemma LaunchOrSettleKeeps(s: HostState, authority: OperationAuthority, i: HostInput)
    requires HostInv(s) && s.process.None? && s.authority.Some? && s.request.Some?
    requires AnswerOf(s.gate, CallClaimDispatch(authority, s.now)) == GateSpec.Dispatch(true)
    ensures var (s5, launched) := LaunchProcess(Ask(s, CallClaimDispatch(authority, s.now)), i);
      s5.process.Some? && s5.authority.Some?
      && Leads(s, if launched then ReportNative(Read(s5), AcceptedEvent, Read(s5).now)
                  else SettleUnsubmitted(s5, s5.process.value.stream.ioError == 0))
  {
    hide HostInv, Asked, AnswerOf, LaunchProcess, ChildStays, OwnsNothing, SettleUnsubmitted;
    ClaimKeeps(s, authority, i);
    var (s5, launched) := LaunchProcess(Ask(s, CallClaimDispatch(authority, s.now)), i);
    HostInvOf(s, s5);
    if launched {
      ReadKeeps(s5);
      ReportNativeKeeps(Read(s5), AcceptedEvent, Read(s5).now);
      LeadsThrice(s, s5, Read(s5), ReportNative(Read(s5), AcceptedEvent, Read(s5).now));
    } else {
      SettleUnsubmittedKeeps(s5, s5.process.value.stream.ioError == 0);
      LeadsOn(s, s5, SettleUnsubmitted(s5, s5.process.value.stream.ioError == 0));
    }
  }

  lemma ReportNativeKeeps(s: HostState, kind: NativeEventKind, time: U64)
    requires HostInv(s) && s.authority.Some? && time <= s.now && !IsEnd(kind)
    ensures Leads(s, ReportNative(s, kind, time)) && ReportNative(s, kind, time).process == s.process
  {
    hide HostInv, Leads, Asked, AnswerOf, Decimal;
    ReportKeeps(s, CallObserveNative(NativeEvidence(s.authority.value, NativeIdentity(s.authority.value.operationId),
                                                    kind,
                                                    RecordBy(s, NATIVE, time))));
  }

  lemma DispatchKeepsHost(s: HostState, authority: OperationAuthority, i: HostInput)
    requires HostInv(s)
    ensures Leads(s, HostSpec.Dispatch(s, authority, i).0)
  {
    hide HostInv, ObserveLaunchable, Expire, ChildStays, IsPending, CurrentReceipt, DispatchFrom;
    StandingStill(s);
    if s.authority == Some(authority) && s.request.Some? && s.process.None? {
      ReadKeeps(s);
      var s1 := Read(s);
      ObserveLaunchableKeeps(s1, s1.now, i);
      var s2 := ObserveLaunchable(s1, s1.now, i).0;
      LeadsOn(s, s1, s2);
      HostInvOf(s, s2);
      if IsPending(CurrentReceipt(s2)) {
        PendingOwnsNothing(s2);
        ReadKeeps(s2);
        var s3 := Read(s2);
        ExpireKeeps(s3, s3.now, i);
        var s4 := Expire(s3, s3.now, i);
        LeadsThrice(s, s2, s3, s4);
        HostInvOf(s, s4);
        DispatchFromKeeps(s4, authority, i);
        LeadsOn(s, s4, DispatchFrom(s4, authority, i).0);
      }
    }
  }

  lemma ExpireKeepsNow(s: HostState, time: U64, i: HostInput)
    ensures Expire(s, time, i).now == s.now
    ensures s.process.Some? ==>
              Expire(s, time, i).process.Some?
                && IsDone(Expire(s, time, i).process.value) == IsDone(s.process.value)
  {
    hide Asked, AnswerOf;
  }

  lemma DispatchFromKeeps(s: HostState, authority: OperationAuthority, i: HostInput)
    requires HostInv(s) && s.process.None? && s.authority.Some? && s.request.Some?
    ensures Leads(s, DispatchFrom(s, authority, i).0)
  {
    hide HostInv, Asked, AnswerOf, LaunchProcess, ChildStays, SettleUnsubmitted, ReportNative;
    var claim := CallClaimDispatch(authority, s.now);
    if s.flags.evidenceError {
      SettleUnsubmittedKeeps(s, true);
    } else if AnswerOf(s.gate, claim) != GateSpec.Dispatch(true) {
      AskKeeps(s, claim);
      HostInvOf(s, Ask(s, claim));
      SettleUnsubmittedKeeps(Ask(s, claim), true);
      LeadsOn(s, Ask(s, claim), SettleUnsubmitted(Ask(s, claim), true));
    } else {
      LaunchOrSettleKeeps(s, authority, i);
    }
  }

  // ---------- Control ----------

  lemma CancelKeepsHost(s: HostState, authority: OperationAuthority, i: HostInput)
    requires HostInv(s)
    ensures Leads(s, CancelFor(s, authority, i).0) && SameChannels(s, CancelFor(s, authority, i).0)
  {
    hide HostInv, Asked, AnswerOf, StopProcess, SettleUnsubmitted, IsPending, CurrentReceipt;
    ReadKeeps(s);
    var s1 := Read(s);
    var c := CallRequestCancel(authority, s1.now);
    var answer := AnswerOf(s1.gate, c);
    AskKeeps(s1, c);
    var s2 := Ask(s1, c);
    LeadsOn(s, s1, s2);
    var settles := answer.Control? && answer.control.status == ControlApplied && s2.authority == Some(authority);
    StopAndSettleKeep(s2, ShouldRequestStop(answer), s1.now, settles, i);
    StopKeeps(s2, ShouldRequestStop(answer), s1.now, i);
    HostInvOf(s2, StopProcess(s2, ShouldRequestStop(answer), s1.now, i));
    LeadsOn(s, s2, CancelFor(s, authority, i).0);
  }

  // ---------- Polling ----------

  lemma ReportStartedKeeps(s: HostState)
    requires HostInv(s) && s.process.Some? && s.authority.Some?
    ensures Leads(s, ReportStarted(s)) && ReportStarted(s).process == s.process
  {
    StandingStill(s);
    ReadKeeps(s);
    ReportNativeKeeps(Read(s), StartedEvent, Read(s).now);
  }

  lemma ReportStopKeeps(s: HostState)
    requires HostInv(s) && s.process.Some? && s.authority.Some?
    ensures Leads(s, ReportStop(s)) && ReportStop(s).process == s.process
  {
    hide HostInv, Asked, AnswerOf, ChildStays, Report;
    StandingStill(s);
    ReadKeeps(s);
    var t := Read(s);
    var c := CallObserveStop(StopAcknowledgementEvidence(t.authority.value, StopOutcome(s.process.value),
                                                         RecordBy(t, STOP, t.now)));
    ReportKeeps(t, c);
    var u := Report(Numbered(t), c);
    LeadsOn(s, t, u);
    HostInvOf(s, u);
    FlagKeeps(u, u.flags.(stopReported := true));
    LeadsOn(s, u, u.(flags := u.flags.(stopReported := true)));
  }

  /** What has been reported does not bear on the invariant. */
  lemma FlagKeeps(s: HostState, f: Flags)
    requires HostInv(s) && f.evidenceError == s.flags.evidenceError
    ensures Leads(s, s.(flags := f))
  {
    hide GateFits, ClosesLast, ExpectedSum, Completed, StoppedShort, FellShort;
  }

  /** The gate once output has been offered to it. */
  ghost predicate Takes(g: GateState, h: GateState, now: U64, accepted: bool) {
    && GateFits(h, now) && (h.phase == Preparing ==> g.phase == Preparing) && (h.receipt.Some? <==> g.receipt.Some?)
    && (g.receipt.Some? ==>
          && h.receipt.value.authority == g.receipt.value.authority
            && h.receipt.value.settlement == g.receipt.value.settlement
          && h.receipt.value.dispatch == g.receipt.value.dispatch && h.receipt.value.native == g.receipt.value.native)
    && (accepted ==> h.receipt.Some? && h.receipt.value.output.disposition == OutputAccepted)
  }

  lemma GateTakes(g: GateState, e: OutputEvidence, now: U64)
    requires GateFits(g, now) && e.record.observedAt <= now
    ensures var c := CallObserveOutput(e);
      Takes(g, Asked(g, c), now, AnswerOf(g, c) != Evidence(Rejected))
  {
    hide GateFits, ObserveOutputAccepted, Callable;
    OutputEffects(g, e);
    CallFits(g, CallObserveOutput(e), now);
    OnlyBeginPrepares(g, CallObserveOutput(e));
  }

  function ResultFor(s: HostState): ComputeResult
    requires s.authority.Some? && s.request.Some?
  {
    ComputeResult(s.authority.value.operationId, s.request.value.reference, s.request.value.iterations,
                  ExpectedSum(s.request.value.iterations))
  }

  lemma TakenKeeps(s: HostState, h: GateState, t: HostState)
    requires HostInv(s) && s.authority.Some? && s.request.Some?
    requires t == s.(gate := h, sequence := t.sequence, wrapped := t.wrapped,
                     flags := s.flags.(evidenceError := t.flags.evidenceError),
                     result := Some(ResultFor(s)))
    requires Takes(s.gate, h, s.now, !t.flags.evidenceError || !t.wrapped)
    requires (s.flags.evidenceError ==> t.flags.evidenceError) && (s.wrapped ==> t.wrapped)
    ensures Leads(s, t)
  {
    hide GateFits, ClosesLast, HasExited, ExpectedSum, Completed, StoppedShort, FellShort;
  }

  lemma ExpireEffects(s: HostState, time: U64, i: HostInput)
    requires Callable(s.gate) && s.authority.Some?
    ensures var u := Expire(s, time, i);
      && u.gate == ObserveTime(s.gate, s.authority.value, time).0 && u.sequence == s.sequence && u.wrapped == s.wrapped
        && u.result == s.result
      && u.flags == s.flags && u.authority == s.authority && u.request == s.request && u.now == s.now
  {
    hide ObserveTime, RequestStop, Callable;
  }

  /** What may be delivered in time is kept and, while the evidence counter lasts, accepted. */
  lemma DeliverKeeps(s: HostState, sum: U64)
    requires HostInv(s) && s.authority.Some? && s.request.Some? && sum == ExpectedSum(s.request.value.iterations)
    requires CanDeliverResult(s.gate, s.authority.value) && !HasReachedDeadline(s.gate.receipt.value, s.now)
    ensures Leads(s, HostSpec.Deliver(s, sum, s.now)) && HostSpec.Deliver(s, sum, s.now).process == s.process
  {
    var id := s.authority.value.operationId;
    var e := OutputEvidence(s.authority.value, ResultReference(id), RecordBy(s, RESULT_SINK, s.now));
    var c := CallObserveOutput(e);
    GateTakes(s.gate, e, s.now);
    OfferIsAccepted(s.gate, e, s.now);
    CallFits(s.gate, c, s.now);
    var t := HostSpec.Deliver(s, sum, s.now);
    assert t == s.(gate := Asked(s.gate, c), sequence := t.sequence, wrapped := t.wrapped, result := Some(ResultFor(s)),
                   flags := s.flags.(evidenceError := t.flags.evidenceError));
    assert Takes(s.gate, Asked(s.gate, c), s.now, !t.flags.evidenceError || !t.wrapped) by {
    }
    TakenKeeps(s, Asked(s.gate, c), t);
  }

  lemma WithholdKeeps(s: HostState, time: U64)
    requires HostInv(s) && s.authority.Some? && time <= s.now
    ensures Leads(s, Withhold(s, time)) && Withhold(s, time).process == s.process
  {
    hide HostInv, Leads, Asked, AnswerOf, Decimal;
    ReportKeeps(s, CallObserveNonDelivery(NonDeliveryEvidence(s.authority.value, AuthorityRevoked,
                                                              ResultReference(s.authority.value.operationId),
                                                              RecordBy(s, RESULT_SINK, time))));
  }

  lemma ReportNoOutputKeeps(s: HostState, time: U64)
    requires HostInv(s) && s.authority.Some? && time <= s.now
    ensures Leads(s, ReportNoOutput(s, time)) && ReportNoOutput(s, time).process == s.process
  {
    hide HostInv, Leads, Asked, AnswerOf;
    ReportKeeps(s, CallObserveNonDelivery(NonDeliveryEvidence(s.authority.value, NoOutputProduced, "",
                                                              RecordBy(s, OBSERVER, time))));
  }

  lemma DeliverableAfterExpiry(s: HostState, i: HostInput)
    requires HostInv(s) && s.authority.Some? && CanDeliverResult(Expire(s, s.now, i).gate, s.authority.value)
    ensures !HasReachedDeadline(Expire(s, s.now, i).gate.receipt.value, s.now)
  {
    InvIsCallable(s.gate);
    ExpireEffects(s, s.now, i);
    DeliverableIsInTime(s.gate, s.authority.value, s.now);
  }

  lemma DeliverOrWithholdKeeps(s: HostState, sum: U64, i: HostInput)
    requires HostInv(s) && s.authority.Some? && s.request.Some? && sum == ExpectedSum(s.request.value.iterations)
    ensures Leads(s, DeliverOrWithhold(s, sum, i))
  {
    hide HostInv, Expire, ChildStays, HostSpec.Deliver, Withhold, CanDeliverResult, ExpectedSum;
    ReadKeeps(s);
    var t := Read(s);
    ExpireKeeps(t, t.now, i);
    var u := Expire(t, t.now, i);
    ExpireKeepsNow(t, t.now, i);
    LeadsOn(s, t, u);
    HostInvOf(s, u);
    if !u.flags.evidenceError && CanDeliverResult(u.gate, u.authority.value) {
      DeliverableAfterExpiry(t, i);
      DeliverKeeps(u, sum);
    } else {
      WithholdKeeps(u, t.now);
    }
    LeadsOn(s, u, DeliverOrWithhold(s, sum, i));
  }

  lemma ExpireNowKeeps(s: HostState, i: HostInput)
    requires HostInv(s)
    ensures Leads(s, ExpireNow(s, i))
    ensures s.process.Some? ==>
              ExpireNow(s, i).process.Some? && IsDone(ExpireNow(s, i).process.value) == IsDone(s.process.value)
  {
    hide HostInv, Expire, ChildStays;
    ReadKeeps(s);
    var t := Read(s);
    ExpireKeeps(t, t.now, i);
    ExpireKeepsNow(t, t.now, i);
    LeadsOn(s, t, Expire(t, t.now, i));
  }

  lemma ReportOutcomeKeeps(s: HostState, i: HostInput)
    requires HostInv(s) && s.process.Some? && s.authority.Some? && s.request.Some? && IsDone(s.process.value)
    ensures Leads(s, ReportOutcome(s, i))
  {
    hide HostInv, ExpireNow, ChildStays, ReportNative, DeliverOrWithhold, ReportNoOutput, HostSpec.Succeeded,
         HostSpec.OutcomeOf;
    ExpireNowKeeps(s, i);
    var t := ExpireNow(s, i);
    HostInvOf(s, t);
    OutcomeReportedKeeps(t, t.now, i);
    LeadsOn(s, t, ReportOutcome(s, i));
  }

  /** What the account of a child that is gone has to be for an end to be reported of it. */
  predicate EndFits(p: ProcessState, n: U64, kind: NativeEventKind) {
    match kind
    case TerminalSucceeded => Completed(p, n)
    case TerminalCancelled => StoppedShort(p, n)
    case TerminalFailed => FellShort(p, n)
    case _ => false
  }

  lemma OutcomeFits(p: ProcessState, n: U64)
    requires IsDone(p)
    ensures IsEnd(HostSpec.OutcomeOf(p, n)) && EndFits(p, n, HostSpec.OutcomeOf(p, n))
    ensures HostSpec.Succeeded(p, n) ==> p.stream.view.terminalValue == ExpectedSum(n)
  {
  }

  /** The gate once the outcome has been reported to it. */
  ghost predicate Credits(g: GateState, h: GateState, now: U64, kind: NativeEventKind) {
    && GateFits(h, now) && (h.phase == Preparing ==> g.phase == Preparing) && (h.receipt.Some? <==> g.receipt.Some?)
    && (g.receipt.Some? ==>
          && h.receipt.value.authority == g.receipt.value.authority
            && h.receipt.value.settlement == g.receipt.value.settlement
          && h.receipt.value.dispatch == g.receipt.value.dispatch && h.receipt.value.output == g.receipt.value.output
          && OnlyEnd(g.receipt.value.native, h.receipt.value.native, kind))
  }

  /** No other end than this one becomes known. */
  predicate OnlyEnd(n: NativeFacts, m: NativeFacts, kind: NativeEventKind) {
    && (m.succeeded.Some? ==> n.succeeded.Some? || kind == TerminalSucceeded)
    && (m.failed.Some? ==> n.failed.Some? || kind == TerminalFailed)
    && (m.cancelled.Some? ==> n.cancelled.Some? || kind == TerminalCancelled)
  }

  lemma GateCredits(g: GateState, e: NativeEvidence, now: U64)
    requires GateFits(g, now) && e.record.observedAt <= now && IsEnd(e.kind)
    ensures Credits(g, Asked(g, CallObserveNative(e)), now, e.kind)
  {
    hide GateFits, ObserveNative, Callable;
    CallFits(g, CallObserveNative(e), now);
    NativeEffects(g, e);
    if g.receipt.Some? { EndEffects(g, e); }
    OnlyBeginPrepares(g, CallObserveNative(e));
  }

  lemma CreditedKeeps(s: HostState, h: GateState, t: HostState, kind: NativeEventKind)
    requires t == s.(gate := h, sequence := t.sequence, wrapped := t.wrapped,
                     flags := s.flags.(evidenceError := t.flags.evidenceError))
    requires (s.flags.evidenceError ==> t.flags.evidenceError) && (s.wrapped ==> t.wrapped)
    requires HostInv(s) && Credits(s.gate, h, s.now, kind)
    requires s.process.Some? && s.request.Some? && EndFits(s.process.value, s.request.value.iterations, kind)
    ensures Leads(s, t)
  {
    hide GateFits, ClosesLast, HasExited, ExpectedSum, Completed, StoppedShort, FellShort;
  }

  /** An end is reported of a child whose account it is. */
  lemma ReportEndKeeps(s: HostState, time: U64, kind: NativeEventKind)
    requires HostInv(s) && s.process.Some? && s.authority.Some? && s.request.Some? && time <= s.now
    requires IsEnd(kind) && EndFits(s.process.value, s.request.value.iterations, kind)
    ensures var t := ReportNative(s, kind, time); Leads(s, t) && t.process == s.process
  {
    hide EndFits;
    var e := NativeEvidence(s.authority.value, NativeIdentity(s.authority.value.operationId), kind,
                            RecordBy(s, NATIVE, time));
    GateCredits(s.gate, e, s.now);
    CreditedKeeps(s, Asked(s.gate, CallObserveNative(e)), ReportNative(s, kind, time), kind);
  }

  lemma OutcomeReportedKeeps(s2: HostState, time: U64, i: HostInput)
    requires HostInv(s2) && s2.process.Some? && s2.authority.Some? && s2.request.Some? && time <= s2.now
    requires IsDone(s2.process.value)
    ensures var p, n := s2.process.value, s2.request.value.iterations;
      var s3 := ReportNative(s2, HostSpec.OutcomeOf(p, n), time);
      var s4 := if HostSpec.Succeeded(p, n) then DeliverOrWithhold(s3, p.stream.view.terminalValue, i)
                else ReportNoOutput(s3, time);
      Leads(s2, s4.(flags := s4.flags.(outcomeReported := true)))
  {
    hide HostInv, ChildStays, ReportNative, DeliverOrWithhold, ReportNoOutput, HostSpec.Succeeded, HostSpec.OutcomeOf,
         ExpectedSum, EndFits, IsDone;
    var p, n := s2.process.value, s2.request.value.iterations;
    var s3 := ReportNative(s2, HostSpec.OutcomeOf(p, n), time);
    OutcomeFits(p, n);
    ReportEndKeeps(s2, time, HostSpec.OutcomeOf(p, n));
    HostInvOf(s2, s3);
    if HostSpec.Succeeded(p, n) {
      DeliverOrWithholdKeeps(s3, p.stream.view.terminalValue, i);
    } else {
      ReportNoOutputKeeps(s3, time);
    }
    var s4 := if HostSpec.Succeeded(p, n) then DeliverOrWithhold(s3, p.stream.view.terminalValue, i)
              else ReportNoOutput(s3, time);
    HostInvOf(s3, s4);
    FlagKeeps(s4, s4.flags.(outcomeReported := true));
    LeadsThrice(s2, s3, s4, s4.(flags := s4.flags.(outcomeReported := true)));
  }

  /** The same child, and whatever it said to its end. */
  predicate SameAccount(p: ProcessState, q: ProcessState) {
    && SameChild(p, q)
    && (p.stream.view.malformed ==> q.stream.view.malformed) && (p.stream.ioError != 0 ==> q.stream.ioError != 0)
    && (p.stream.view.stopRequested ==> q.stream.view.stopRequested) && (CancelsWhenAsked(p) ==> CancelsWhenAsked(q))
    && (HasExited(p) && p.stream.eof ==>
          && q.stream.view.terminal == p.stream.view.terminal
          && q.stream.view.terminalIterations == p.stream.view.terminalIterations
          && q.stream.view.terminalValue == p.stream.view.terminalValue)
  }

  lemma CloseChannelsKeeps(p: ProcessState, controlError: Option<int>, eventError: Option<int>)
    requires ClosesLast(p)
    ensures var (q, closed) := CloseChannels(p, controlError, eventError);
      && ClosesLast(q) && q.launched == p.launched && q.stream.buffer == p.stream.buffer && SameAccount(p, q)
      && (closed ==> q.channels.closed)
  {
  }

  /** A child observed further belongs to the same work. */
  lemma ProcessStepKeeps(s: HostState, q: ProcessState)
    requires HostInv(s) && s.process.Some?
    requires ClosesLast(q) && q.launched == s.process.value.launched && SameAccount(s.process.value, q)
    requires |q.stream.buffer| < FRAME_BYTES
    ensures Leads(s, s.(process := Some(q)))
  {
    hide GateFits, ClosesLast, ExpectedSum;
  }

  lemma CloseAndSettleKeeps(s: HostState, i: HostInput)
    requires HostInv(s) && s.process.Some? && s.authority.Some?
    ensures Leads(s, CloseAndSettle(s, i))
  {
    var (p, closed) := CloseChannels(s.process.value, i.controlClose, i.eventClose);
    CloseChannelsKeeps(s.process.value, i.controlClose, i.eventClose);
    ProcessStepKeeps(s, p);
    var t := s.(process := Some(p));
    HostInvOf(s, t);
    ReadKeeps(t);
    var u := Read(t);
    if closed {
      SettleKeeps(u, u.now);
      LeadsThrice(s, t, u, ReportSettlement(u, u.now));
    }
  }

  lemma FinishKeeps(s: HostState, i: HostInput)
    requires HostInv(s) && s.process.Some? && s.authority.Some? && s.request.Some?
    ensures Leads(s, Finish(s, i))
  {
    hide HostInv, ReportOutcome, CloseAndSettle;
    StandingStill(s);
    if !IsDone(s.process.value) { return; }
    ReportOutcomeKeeps(s, i);
    var t := if s.flags.outcomeReported then s else ReportOutcome(s, i);
    CloseAndSettleKeeps(t, i);
    LeadsOn(s, t, CloseAndSettle(t, i));
  }

  /** As `Stays`, where the shutdown may move on. */
  predicate Continues(s: HostState, t: HostState) {
    && t.authority == s.authority && t.request == s.request && t.now >= s.now
    && (s.flags.evidenceError ==> t.flags.evidenceError) && (s.wrapped ==> t.wrapped)
    && (s.shutdown != ShutdownOpen ==> t.shutdown != ShutdownOpen)
    && (s.shutdown == ShutdownClosed ==> t.shutdown == ShutdownClosed)
    && (t.gate.phase == Preparing ==> s.gate.phase == Preparing)
    && ChildStays(s, t)
  }

  lemma UpdateShutdownKeeps(s: HostState)
    requires HostInv(s) && s.shutdown != ShutdownClosed
    ensures HostInv(UpdateShutdown(s)) && Continues(s, UpdateShutdown(s))
  {
    hide GateFits, ClosesLast, ExpectedSum, Completed, StoppedShort, FellShort;
  }

  lemma CheckSupportKeeps(s: HostState, i: HostInput)
    requires HostInv(s)
    ensures Leads(s, CheckSupport(s, i))
  {
    hide HostInv, Withdraw, SupportsExecution, ChildStays;
    ReadKeeps(s);
    var s1 := Read(s);
    ReadKeeps(s1);
    var s2 := Read(s1);
    LeadsOn(s, s1, s2);
    WithdrawKeepsHost(s2, s2.gate.config.binding, i);
    LeadsOn(s, s2, Withdraw(s2, s2.gate.config.binding, i).0);
  }

  /** What more of a stream leaves: what was wrong stays wrong, and a cancellation is still one that was asked for. */
  predicate ReadsOn(s: Stream, t: Stream) {
    && (s.view.malformed ==> t.view.malformed) && (s.ioError != 0 ==> t.ioError != 0)
    && t.view.stopRequested == s.view.stopRequested
    && ((s.view.terminal == CancelledTerminal ==> s.view.stopRequested) ==>
          t.view.terminal == CancelledTerminal ==> t.view.stopRequested)
  }

  lemma DeliverReadsOn(limit: U64, s: Stream, chunk: seq<Byte>)
    requires |s.buffer| + |chunk| <= FRAME_BYTES
    ensures ReadsOn(s, PS.Deliver(limit, s, chunk))
  {
    hide Decode;
  }

  lemma {:induction false} DrainReadsOn(limit: U64, s: Stream, pipe: seq<Byte>, writerClosed: bool,
                                       choices: nat -> ReadChoice, k: nat, frames: nat)
    requires |s.buffer| < FRAME_BYTES
    ensures var t := Drain(limit, s, pipe, writerClosed, choices, k, frames).0;
      |t.buffer| < FRAME_BYTES && ReadsOn(s, t)
    decreases |pipe|
  {
    hide PS.Deliver;
    if frames < MAXIMUM_FRAMES_PER_POLL && choices(k).Take? && pipe != [] {
      var m := TakeCount(choices(k).atMost, FRAME_BYTES - |s.buffer|, |pipe|);
      var t := PS.Deliver(limit, s, pipe[..m]);
      DeliverReadsOn(limit, s, pipe[..m]);
      DrainReadsOn(limit, t, pipe[m..], writerClosed, choices, k + 1, if t.buffer == [] then frames + 1 else frames);
    }
  }

  lemma DrainEventsEffects(p: ProcessState, pipe: seq<Byte>, i: PollInput)
    requires |p.stream.buffer| < FRAME_BYTES
    ensures var q := DrainEvents(p, pipe, i).0;
      && q == p.(stream := q.stream) && ReadsOn(p.stream, q.stream) && |q.stream.buffer| < FRAME_BYTES
      && (p.stream.eof ==> q == p)
  {
    hide Drain, ReadsOn;
    DrainReadsOn(p.limit, p.stream, pipe, i.writerClosed, i.choices, 0, 0);
    StandsStill(p.stream);
  }

  lemma StandsStill(s: Stream)
    ensures ReadsOn(s, s)
  {
  }

  lemma SuperviseEffects(p: ProcessState, now: U64, i: PollInput)
    requires ClosesLast(p)
    ensures var q := Supervise(p, now, i);
      && ClosesLast(q) && q.launched == p.launched && SameAccount(p, q)
        && q.stream == p.stream.(ioError := q.stream.ioError)
  {
  }

  lemma PollProcessEffects(p: ProcessState, now: U64, pipe: seq<Byte>, i: PollInput)
    requires |p.stream.buffer| < FRAME_BYTES && ClosesLast(p)
    ensures var q := PS.Poll(p, now, pipe, i).0;
      && ClosesLast(q) && q.launched == p.launched && SameAccount(p, q) && |q.stream.buffer| < FRAME_BYTES
  {
    hide DrainEvents, Supervise;
    DrainEventsEffects(p, pipe, i);
    var r := DrainEvents(p, pipe, i).0;
    if !p.channels.closed { SuperviseEffects(r, now, i); }
  }

  lemma PollProcessKeeps(s: HostState, i: HostInput)
    requires HostInv(s)
    ensures Leads(s, PollProcess(s, i))
  {
    ReadKeeps(s);
    var t := Read(s);
    if t.process.Some? {
      PollProcessEffects(t.process.value, t.now, i.pipe, i.poll);
      ProcessStepKeeps(t, PS.Poll(t.process.value, t.now, i.pipe, i.poll).0);
      LeadsOn(s, t, PollProcess(s, i));
    }
  }

  /** Reporting and finishing, once the child has been polled and trouble acted on. */
  lemma ReportsAndFinishKeep(s: HostState, i: HostInput)
    requires HostInv(s) && s.process.Some? && s.authority.Some? && s.request.Some?
    ensures var t := ReportStop(ReportStarted(s));
      && t.process.Some? && t.authority.Some? && t.request.Some? && Leads(s, Finish(t, i))
  {
    hide HostInv, ReportStarted, ReportStop, Finish, ChildStays;
    ReportStartedKeeps(s);
    var t := ReportStarted(s);
    HostInvOf(s, t);
    ReportStopKeeps(t);
    var u := ReportStop(t);
    HostInvOf(t, u);
    FinishKeeps(u, i);
    LeadsThrice(s, t, u, Finish(u, i));
  }

  lemma RespondKeeps(s: HostState, i: HostInput)
    requires HostInv(s) && s.process.Some? && s.authority.Some? && s.request.Some?
    ensures Leads(s, Respond(s, i))
  {
    hide HostInv, ChildStays, CancelFor, ReportStarted, ReportStop, Finish, IsTroubled;
    StandingStill(s);
    CancelKeepsHost(s, s.authority.value, i);
    var t := if IsTroubled(s.process.value) then CancelFor(s, s.authority.value, i).0 else s;
    HostInvOf(s, t);
    if t.process.Some? {
      ReportsAndFinishKeep(t, i);
      LeadsOn(s, t, Respond(s, i));
    }
  }

  lemma AttendKeeps(s: HostState, i: HostInput)
    requires HostInv(s)
    ensures Leads(s, Attend(s, i))
  {
    hide HostInv, ChildStays, CheckSupport, PollProcess, Respond;
    CheckSupportKeeps(s, i);
    PollProcessKeeps(CheckSupport(s, i), i);
    var t := PollProcess(CheckSupport(s, i), i);
    LeadsOn(s, CheckSupport(s, i), t);
    if t.process.Some? && t.authority.Some? && t.request.Some? {
      HostInvOf(s, t);
      RespondKeeps(t, i);
      LeadsOn(s, t, Respond(t, i));
    }
  }

  lemma ExpirePreparedKeeps(s: HostState, i: HostInput)
    requires HostInv(s)
    ensures Leads(s, ExpirePrepared(s, i))
  {
    hide HostInv, ChildStays, Expire, SettleUnsubmitted, CurrentReceipt;
    ReadKeeps(s);
    var s1 := Read(s);
    ExpireKeeps(s1, s1.now, i);
    var s2 := Expire(s1, s1.now, i);
    LeadsOn(s, s1, s2);
    if s2.process.None? && s2.authority.Some? {
      SettleUnsubmittedKeeps(s2, true);
      LeadsOn(s, s2, SettleUnsubmitted(s2, true));
    }
  }

  lemma RefreshedKeeps(s: HostState, i: HostInput)
    requires HostInv(s)
    ensures Leads(s, Refreshed(s, i))
  {
    hide HostInv, ObserveLaunchable, ChildStays;
    StandingStill(s);
    ReadKeeps(s);
    var r := Read(s);
    ObserveLaunchableKeeps(r, r.now, i);
    LeadsOn(s, r, ObserveLaunchable(r, r.now, i).0);
  }

  lemma PollKeepsHost(s: HostState, i: HostInput)
    requires HostInv(s)
    ensures HostInv(PollHost(s, i)) && Continues(s, PollHost(s, i))
  {
    hide HostInv, ChildStays, Refreshed, ExpirePrepared, Attend, UpdateShutdown;
    StandingStill(s);
    HostInvOf(s, s);
    if s.shutdown != ShutdownClosed {
      RefreshedKeeps(s, i);
      ExpirePreparedKeeps(Refreshed(s, i), i);
      var t := ExpirePrepared(Refreshed(s, i), i);
      LeadsOn(s, Refreshed(s, i), t);
      AttendKeeps(t, i);
      LeadsOn(s, t, Attend(t, i));
      var u := if IsLaunched(t) && !t.process.value.channels.closed then Attend(t, i) else t;
      HostInvOf(s, u);
      UpdateShutdownKeeps(u);
      ContinuesOn(s, u, UpdateShutdown(u));
    }
  }

  lemma ContinuesOn(s: HostState, t: HostState, u: HostState)
    requires Stays(s, t) || Continues(s, t)
    requires Stays(t, u) || Continues(t, u)
    ensures Continues(s, u)
  {
  }

  lemma ClosingKeepsHost(s: HostState, i: HostInput)
    requires HostInv(s) && s.shutdown == ShutdownOpen
    ensures HostInv(Closing(s, i)) && Continues(s, Closing(s, i))
  {
    hide HostInv, ChildStays, Asked, CancelFor;
    AskKeeps(s, CallCloseAdmission);
    ClosingKeeps(s, Ask(s, CallCloseAdmission));
    var t := Ask(s, CallCloseAdmission).(shutdown := ShutdownClosing);
    if t.authority.Some? {
      CancelKeepsHost(t, t.authority.value, i);
      HostInvOf(t, Closing(s, i));
      ContinuesOn(s, t, Closing(s, i));
    }
  }

  lemma BeginShutdownKeeps(s: HostState, i: HostInput)
    requires HostInv(s)
    ensures HostInv(BeginShutdown(s, i)) && Continues(s, BeginShutdown(s, i))
  {
    hide HostInv, ChildStays, Closing, PollHost;
    StandingStill(s);
    HostInvOf(s, s);
    if s.shutdown == ShutdownOpen {
      ClosingKeepsHost(s, i);
      PollKeepsHost(Closing(s, i), i);
      ContinuesOn(s, Closing(s, i), BeginShutdown(s, i));
    }
  }

  lemma ClosingKeeps(s: HostState, t: HostState)
    requires Leads(s, t) && s.shutdown == ShutdownOpen
    ensures HostInv(t.(shutdown := ShutdownClosing)) && Continues(s, t.(shutdown := ShutdownClosing))
  {
    hide GateFits, ClosesLast, ExpectedSum, Completed, StoppedShort, FellShort;
  }
}
