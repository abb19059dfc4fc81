/**
 The receipt of the operation in hand is the history of the calls made since it was admitted: each thing it
 records was recorded by a call that was answered so, and every such call is recorded.
 */
module GateHistory {
  import opened Machine
  import opened GateTypes
  import opened GateSpec
  import opened GateInvariant
  import opened GateEffects
  import opened GateRuns
  import opened GateLaws
  import opened GateEvidence

  /** What a receipt may record of its operation. */
  datatype Mark =
    | Dispatched
    | Unsubmitted
    | Event(kind: NativeEventKind)
    | Delivered
    | Undelivered
    | Settled
    | CancelRequested
    | DeadlinePassed
    | StopAsked
    | StopAnswered

  predicate Has(r: OperationReceipt, m: Mark) {
    match m
    case Dispatched => r.dispatch.at.Some?
    case Unsubmitted => r.dispatch.notSubmitted.Some?
    case Event(kind) => EventRecord(r.native, kind).Some?
    case Delivered => r.output.delivered.Some?
    case Undelivered => r.output.notDelivered.Some?
    case Settled => r.settlement.Some?
    case CancelRequested => r.control.cancelledAt.Some?
    case DeadlinePassed => r.control.expiredAt.Some?
    case StopAsked => r.control.stopRequestedAt.Some?
    case StopAnswered => r.control.stop.Some?
  }

  predicate IsApplied(d: Answer) {
    d.Control? && d.control.status == ControlApplied
  }

  /** A call is answered so that this must be recorded. */
  predicate Makes(s: GateState, c: Call, m: Mark)
    requires Callable(s)
  {
    match m
    case Dispatched => c.CallClaimDispatch? && AnswerTo(s, c) == GateSpec.Dispatch(true)
    case Unsubmitted => c.CallObserveNonSubmission? && AnswerTo(s, c) == Evidence(Accepted)
    case Event(kind) => c.CallObserveNative? && c.native.kind == kind && AnswerTo(s, c) == Evidence(Accepted)
    case Delivered => c.CallObserveOutput? && AnswerTo(s, c) == Evidence(Accepted)
    case Undelivered => c.CallObserveNonDelivery? && AnswerTo(s, c) == Evidence(Accepted)
    case Settled => c.CallObserveSettlement? && AnswerTo(s, c) == Evidence(Accepted)
    case CancelRequested => c.CallRequestCancel? && IsApplied(AnswerTo(s, c))
    case DeadlinePassed => c.CallObserveTime? && IsApplied(AnswerTo(s, c))
    case StopAsked => StopOf(s, c).Some?
    case StopAnswered => c.CallObserveStop? && AnswerTo(s, c) == Evidence(Accepted)
  }

  /** One call records what it makes, and nothing else of its operation. */
  predicate Follows(s: GateState, c: Call, m: Mark)
    requires Callable(s)
  {
    && s.receipt.Some? && Next(s, c).receipt.Some?
      && Next(s, c).receipt.value.authority == s.receipt.value.authority ==>
    (Has(Next(s, c).receipt.value, m) <==> Has(s.receipt.value, m) || Makes(s, c, m))
  }

  lemma BindingFollows(s: GateState, c: Call, m: Mark)
    requires Callable(s) && IsBindingCall(c) && !c.CallWithdraw?
    ensures Follows(s, c, m)
  {
    hide Next, AnswerTo, Has, StopOf;
    BindingKeepsReceipt(s, c);
  }

  lemma WithdrawalFollows(s: GateState, c: Call, m: Mark)
    requires Inv(s) && Callable(s) && c.CallWithdraw?
    ensures Follows(s, c, m)
  {
    hide LatestBindingTime, DispositionOf, HasResolvedClosure, BeginRebind, CommitRebind, ObserveReadiness,
         ObserveCapabilities, GateSpec.ObserveStartup, ObserveNative, ObserveStopAcknowledgement, ObserveNonSubmission,
         ObserveOutputAccepted, ObserveOutputNotDelivered, ObserveSettlement, GateSpec.Admit, ClaimDispatch,
           CloseAdmission,
         GateSpec.RequestCancel, GateSpec.ObserveTime, Inv;
  }

  lemma ControlFollows(s: GateState, c: Call, m: Mark)
    requires Inv(s) && Callable(s) && (c.CallRequestCancel? || c.CallObserveTime?)
    ensures Follows(s, c, m)
  {
    hide LatestTime, DispositionOf, HasResolvedClosure, BeginRebind, CommitRebind, ObserveReadiness,
         ObserveCapabilities, GateSpec.ObserveStartup, ObserveNative, ObserveStopAcknowledgement, ObserveNonSubmission,
         ObserveOutputAccepted, ObserveOutputNotDelivered, ObserveSettlement, GateSpec.Admit, ClaimDispatch,
           CloseAdmission,
         GateSpec.WithdrawBinding, Inv;
  }

  lemma NativeKeepsRest(s: GateState, e: NativeEvidence)
    requires Callable(s) && s.receipt.Some?
    ensures var t := GateSpec.ObserveNative(s, e).0;
      && t.receipt.Some? && t.receipt.value.dispatch == s.receipt.value.dispatch
      && t.receipt.value.output == s.receipt.value.output && t.receipt.value.control == s.receipt.value.control
      && t.receipt.value.settlement == s.receipt.value.settlement
  {
    hide DispositionOf, AfterNative, RecordNative, ContradictsNative, IsWellFormed;
  }

  lemma NativeFollows(s: GateState, e: NativeEvidence, m: Mark)
    requires Inv(s) && Callable(s)
    ensures Follows(s, CallObserveNative(e), m)
  {
    hide Inv, BeginRebind, CommitRebind, ObserveReadiness, ObserveCapabilities,
         GateSpec.ObserveStartup, ObserveStopAcknowledgement, ObserveNonSubmission, ObserveOutputAccepted,
         ObserveOutputNotDelivered, ObserveSettlement, GateSpec.Admit, ClaimDispatch, CloseAdmission,
           GateSpec.WithdrawBinding,
         GateSpec.RequestCancel, GateSpec.ObserveTime, GateSpec.ObserveNative, IsNativeFor, IsNews, EventRecord;
    if s.receipt.Some? {
      NativeIsExact(s, e);
      NativeKeepsRest(s, e);
    }
  }

  lemma ReportFollows(s: GateState, c: Call, m: Mark)
    requires Inv(s) && Callable(s)
    requires c.CallClaimDispatch? || c.CallObserveNonSubmission? || c.CallObserveStop? || c.CallObserveSettlement?
    ensures Follows(s, c, m)
  {
    hide DispositionOf, HasResolvedClosure, BeginRebind, CommitRebind, ObserveReadiness, ObserveCapabilities,
         GateSpec.ObserveStartup, ObserveNative, ObserveOutputAccepted, ObserveOutputNotDelivered, GateSpec.Admit,
           CloseAdmission,
         GateSpec.WithdrawBinding, GateSpec.RequestCancel, GateSpec.ObserveTime, CandidateIsValid, HasResolvedEffects,
         FollowsSameSource, LatestEffectTime, SupportsExecution;
  }

  lemma OutputFollows(s: GateState, c: Call, m: Mark)
    requires Inv(s) && Callable(s) && (c.CallObserveOutput? || c.CallObserveNonDelivery?)
    ensures Follows(s, c, m)
  {
    hide DispositionOf, HasResolvedClosure, BeginRebind, CommitRebind, ObserveReadiness, ObserveCapabilities,
         GateSpec.ObserveStartup, ObserveNative, ObserveStopAcknowledgement, ObserveNonSubmission, ObserveSettlement,
           ClaimDispatch,
         GateSpec.Admit, CloseAdmission, GateSpec.WithdrawBinding, GateSpec.RequestCancel, GateSpec.ObserveTime,
         CandidateIsValid, HasResolvedEffects, FollowsSameSource, NonDeliveryPrerequisite, CanDeliverResult;
  }

  lemma AdmissionFollows(s: GateState, q: OperationRequest, m: Mark)
    requires Inv(s) && Callable(s)
    ensures Follows(s, CallAdmit(q), m)
  {
    hide Inv, AdmissionRefusal, BeginRebind, CommitRebind, ObserveReadiness, ObserveCapabilities,
         GateSpec.ObserveStartup,
         ObserveNative, ObserveStopAcknowledgement, ObserveNonSubmission, ObserveSettlement, ClaimDispatch,
           CloseAdmission,
         GateSpec.WithdrawBinding, GateSpec.RequestCancel, GateSpec.ObserveTime, ObserveOutputAccepted,
         ObserveOutputNotDelivered;
    if s.receipt.Some? && GateSpec.Admit(s, q).0.receipt.Some? { AdmissionIsNew(s, q); }
  }

  lemma CallFollows(s: GateState, c: Call, m: Mark)
    requires Inv(s) && Callable(s)
    ensures Follows(s, c, m)
  {
    hide Inv, Follows;
    match c
    case CallAdmit(q) => AdmissionFollows(s, q, m);
    case CallWithdraw(_, _) => WithdrawalFollows(s, c, m);
    case CallRequestCancel(_, _) => ControlFollows(s, c, m);
    case CallObserveTime(_, _) => ControlFollows(s, c, m);
    case CallObserveNative(e) => NativeFollows(s, e, m);
    case CallClaimDispatch(_, _) => ReportFollows(s, c, m);
    case CallObserveNonSubmission(_) => ReportFollows(s, c, m);
    case CallObserveStop(_) => ReportFollows(s, c, m);
    case CallObserveSettlement(_) => ReportFollows(s, c, m);
    case CallObserveOutput(_) => OutputFollows(s, c, m);
    case CallObserveNonDelivery(_) => OutputFollows(s, c, m);
    case _ => BindingFollows(s, c, m);
  }

  // ---------- Runs ----------

  /** Some call between two moments of a run made this mark. */
  ghost predicate WasMade(config: GateConfig, calls: seq<Call>, from: nat, until: nat, m: Mark)
    requires config.Valid() && until <= |calls|
  {
    exists k :: from < k < until && MadeAt(config, calls, k, m)
  }

  ghost predicate MadeAt(config: GateConfig, calls: seq<Call>, k: nat, m: Mark)
    requires config.Valid() && k < |calls|
  {
    Makes(At(config, calls, k), calls[k], m)
  }

  lemma FreshHasNone(config: GateConfig, calls: seq<Call>, b: nat, a: OperationAuthority, m: Mark)
    requires config.Valid() && b < |calls| && AdmittedAs(config, calls, b, a)
    ensures At(config, calls, b + 1).receipt.Some? && At(config, calls, b + 1).receipt.value.authority == a
    ensures !Has(At(config, calls, b + 1).receipt.value, m)
  {
    hide At, AdmissionRefusal;
    NextState(config, calls, b);
  }

  /** An operation still in hand was in hand all along. */
  lemma HeldSince(config: GateConfig, calls: seq<Call>, b: nat, k: nat, i: nat, a: OperationAuthority)
    requires config.Valid() && b < k <= i <= |calls| && AdmittedAs(config, calls, b, a)
    requires At(config, calls, i).receipt.Some? && At(config, calls, i).receipt.value.authority == a
    ensures At(config, calls, k).receipt.Some? && At(config, calls, k).receipt.value.authority == a
  {
    hide At, Inv, AdmissionRefusal;
    FreshHasNone(config, calls, b, a, Dispatched);
    OperationsAreSerial(config, calls, b + 1, k);
    OperationsAreSerial(config, calls, k, i);
  }

  /**
   In every run the receipt in hand records exactly what the calls since its admission were answered: dispatch, every
   native event, output, settlement, cancellation, expiry, and the stop asked for and answered.
   */
  lemma {:induction false} ReceiptIsHistory(config: GateConfig, calls: seq<Call>, b: nat, i: nat,
                                            a: OperationAuthority, m: Mark)
    requires config.Valid() && b < i <= |calls| && AdmittedAs(config, calls, b, a)
    requires At(config, calls, i).receipt.Some? && At(config, calls, i).receipt.value.authority == a
    ensures Has(At(config, calls, i).receipt.value, m) <==> WasMade(config, calls, b, i, m)
    decreases i
  {
    hide At, Inv, Has, MadeAt, AdmittedAs;
    if i == b + 1 {
      FreshHasNone(config, calls, b, a, m);
    } else {
      HeldSince(config, calls, b, i - 1, i, a);
      ReceiptIsHistory(config, calls, b, i - 1, a, m);
      MarkFollows(config, calls, i - 1, m);
      assert WasMade(config, calls, b, i, m) <==>
             WasMade(config, calls, b, i - 1, m) || MadeAt(config, calls, i - 1, m);
    }
  }

  lemma MarkFollows(config: GateConfig, calls: seq<Call>, k: nat, m: Mark)
    requires config.Valid() && k < |calls|
    requires At(config, calls, k).receipt.Some? && At(config, calls, k + 1).receipt.Some?
    requires At(config, calls, k).receipt.value.authority == At(config, calls, k + 1).receipt.value.authority
    ensures Has(At(config, calls, k + 1).receipt.value, m) <==>
              Has(At(config, calls, k).receipt.value, m) || MadeAt(config, calls, k, m)
  {
    hide At, Inv, Has, Makes, Next;
    AtIsValid(config, calls, k);
    NextState(config, calls, k);
    CallFollows(At(config, calls, k), calls[k], m);
  }

  lemma StartsIdle(config: GateConfig, calls: seq<Call>)
    requires config.Valid()
    ensures At(config, calls, 0).receipt.None?
  {
  }

  /** In every run the operation in hand was admitted by some call. */
  lemma {:induction false} HeldWasAdmitted(config: GateConfig, calls: seq<Call>, i: nat) returns (b: nat)
    requires config.Valid() && i <= |calls| && At(config, calls, i).receipt.Some?
    ensures b < i && AdmittedAs(config, calls, b, At(config, calls, i).receipt.value.authority)
    decreases i
  {
    hide Inv, Next, AdmittedAs, At;
    StartsIdle(config, calls);
    if i == 0 {
      assert false;
    } else {
      NextState(config, calls, i - 1);
      AtIsValid(config, calls, i - 1);
      if At(config, calls, i - 1).receipt.Some?
         && At(config, calls, i - 1).receipt.value.authority == At(config, calls, i).receipt.value.authority {
        b := HeldWasAdmitted(config, calls, i - 1);
      } else {
        OnlyAdmissionHolds(At(config, calls, i - 1), calls[i - 1]);
        b := i - 1;
        AdmittedHere(config, calls, b);
      }
    }
  }

  lemma AdmittedHere(config: GateConfig, calls: seq<Call>, b: nat)
    requires config.Valid() && b < |calls| && calls[b].CallAdmit? && At(config, calls, b + 1).receipt.Some?
    requires AnswerTo(At(config, calls, b), calls[b])
          == Admission(AdmissionDecision(Admitted, Some(At(config, calls, b + 1).receipt.value.authority)))
    ensures AdmittedAs(config, calls, b, At(config, calls, b + 1).receipt.value.authority)
  {
    hide At, AnswerTo;
  }

  /** No call but an admission changes which operation is in hand. */
  lemma OthersKeepOperation(s: GateState, c: Call)
    requires Callable(s) && !c.CallAdmit?
    ensures Next(s, c).receipt.Some? <==> s.receipt.Some?
    ensures s.receipt.Some? ==> Next(s, c).receipt.value.authority == s.receipt.value.authority
  {
    hide DispositionOf, IsWellFormed, AfterNative, RecordNative, ContradictsNative, NonDeliveryPrerequisite,
         CanDeliverResult,
         LatestEffectTime, LatestTime, LatestBindingTime, HasResolvedEffects, FollowsSameSource, SupportsExecution,
           Admit, BeginRebind,
         CommitRebind, ObserveReadiness, ObserveCapabilities, GateSpec.ObserveStartup;
    if IsBindingCall(c) && !c.CallWithdraw? { BindingKeepsReceipt(s, c); }
  }

  lemma OnlyAdmissionHolds(s: GateState, c: Call)
    requires Callable(s) && Next(s, c).receipt.Some?
    requires s.receipt.Some? ==> s.receipt.value.authority != Next(s, c).receipt.value.authority
    ensures c.CallAdmit?
    ensures AnswerTo(s, c) == Admission(AdmissionDecision(Admitted, Some(Next(s, c).receipt.value.authority)))
  {
    hide GateSpec.Admit, BeginRebind, CommitRebind, ObserveReadiness, ObserveCapabilities, GateSpec.ObserveStartup,
         GateSpec.ObserveNative, ObserveStopAcknowledgement, ObserveNonSubmission, ObserveOutputAccepted,
         ObserveOutputNotDelivered, ObserveSettlement, ClaimDispatch, CloseAdmission, GateSpec.WithdrawBinding,
         GateSpec.RequestCancel, GateSpec.ObserveTime;
    if c.CallAdmit? { AdmissionHolds(s, c.request); } else { OthersKeepOperation(s, c); }
  }

  lemma AdmissionHolds(s: GateState, q: OperationRequest)
    ensures var (t, d) := GateSpec.Admit(s, q);
      t == s || (t.receipt.Some? && d == AdmissionDecision(Admitted, Some(t.receipt.value.authority)))
  {
    hide AdmissionRefusal;
  }
}
