/** What asking a gate for one particular call comes to: the step for that call and its answer, and no other. */
module GateCalls {
  import opened GateTypes
  import opened Machine
  import opened GateSpec
  import opened GateInvariant

  lemma StartupAsked(g: GateState, e: StartupEvidence)
    requires Inv(g)
    ensures Asked(g, CallObserveStartup(e)) == ObserveStartup(g, e).0
    ensures AnswerOf(g, CallObserveStartup(e)) == Evidence(ObserveStartup(g, e).1)
  {
    hide ObserveStartup;
    InvIsCallable(g);
  }

  lemma CapabilitiesAsked(g: GateState, e: ExecutionCapabilities)
    requires Inv(g)
    ensures Asked(g, CallObserveCapabilities(e)) == ObserveCapabilities(g, e).0
    ensures AnswerOf(g, CallObserveCapabilities(e)) == Evidence(ObserveCapabilities(g, e).1)
  {
    hide ObserveCapabilities;
    InvIsCallable(g);
  }

  lemma WithdrawAsked(g: GateState, b: BindingIdentity, now: U64)
    requires Inv(g)
    ensures Asked(g, CallWithdraw(b, now)) == WithdrawBinding(g, b, now).0
    ensures AnswerOf(g, CallWithdraw(b, now)) == Binding(WithdrawBinding(g, b, now).1)
  {
    hide WithdrawBinding;
    InvIsCallable(g);
  }

  lemma BeginAsked(g: GateState, b: BindingIdentity, provider: string, e: BindingReadinessEvidence, now: U64)
    requires Inv(g)
    ensures Asked(g, CallBeginRebind(b, provider, e, now)) == BeginRebind(g, b, provider, e, now).0
    ensures AnswerOf(g, CallBeginRebind(b, provider, e, now)) == Binding(BeginRebind(g, b, provider, e, now).1)
  {
    hide BeginRebind;
    InvIsCallable(g);
  }

  lemma ReadinessAsked(g: GateState, e: BindingReadinessEvidence)
    requires Inv(g)
    ensures Asked(g, CallObserveReadiness(e)) == ObserveReadiness(g, e).0
    ensures AnswerOf(g, CallObserveReadiness(e)) == Evidence(ObserveReadiness(g, e).1)
  {
    hide ObserveReadiness;
    InvIsCallable(g);
  }

  lemma CommitAsked(g: GateState, b: BindingIdentity, now: U64)
    requires Inv(g)
    ensures Asked(g, CallCommit(b, now)) == CommitRebind(g, b, now).0
    ensures AnswerOf(g, CallCommit(b, now)) == Binding(CommitRebind(g, b, now).1)
  {
    hide CommitRebind;
    InvIsCallable(g);
  }

  lemma AdmitAsked(g: GateState, q: OperationRequest)
    requires Inv(g)
    ensures Asked(g, CallAdmit(q)) == Admit(g, q).0
    ensures AnswerOf(g, CallAdmit(q)) == Admission(Admit(g, q).1)
  {
    hide Admit;
    InvIsCallable(g);
  }

  lemma ClaimAsked(g: GateState, a: OperationAuthority, at: U64)
    requires Inv(g)
    ensures Asked(g, CallClaimDispatch(a, at)) == ClaimDispatch(g, a, at).0
    ensures AnswerOf(g, CallClaimDispatch(a, at)) == GateSpec.Dispatch(ClaimDispatch(g, a, at).1)
  {
    hide ClaimDispatch;
    InvIsCallable(g);
  }

  lemma CancelAsked(g: GateState, a: OperationAuthority, at: U64)
    requires Inv(g)
    ensures Asked(g, CallRequestCancel(a, at)) == RequestCancel(g, a, at).0
    ensures AnswerOf(g, CallRequestCancel(a, at)) == Control(RequestCancel(g, a, at).1)
  {
    hide RequestCancel;
    InvIsCallable(g);
  }

  lemma TimeAsked(g: GateState, a: OperationAuthority, at: U64)
    requires Inv(g)
    ensures Asked(g, CallObserveTime(a, at)) == ObserveTime(g, a, at).0
    ensures AnswerOf(g, CallObserveTime(a, at)) == Control(ObserveTime(g, a, at).1)
  {
    hide ObserveTime;
    InvIsCallable(g);
  }

  lemma StopAsked(g: GateState, e: StopAcknowledgementEvidence)
    requires Inv(g)
    ensures Asked(g, CallObserveStop(e)) == ObserveStopAcknowledgement(g, e).0
    ensures AnswerOf(g, CallObserveStop(e)) == Evidence(ObserveStopAcknowledgement(g, e).1)
  {
    hide ObserveStopAcknowledgement;
    InvIsCallable(g);
  }

  lemma NonSubmissionAsked(g: GateState, e: NonSubmissionEvidence)
    requires Inv(g)
    ensures Asked(g, CallObserveNonSubmission(e)) == ObserveNonSubmission(g, e).0
    ensures AnswerOf(g, CallObserveNonSubmission(e)) == Evidence(ObserveNonSubmission(g, e).1)
  {
    hide ObserveNonSubmission;
    InvIsCallable(g);
  }

  lemma NativeAsked(g: GateState, e: NativeEvidence)
    requires Inv(g)
    ensures Asked(g, CallObserveNative(e)) == ObserveNative(g, e).0
    ensures AnswerOf(g, CallObserveNative(e)) == Evidence(ObserveNative(g, e).1)
  {
    hide ObserveNative;
    InvIsCallable(g);
  }

  lemma OutputAsked(g: GateState, e: OutputEvidence)
    requires Inv(g)
    ensures Asked(g, CallObserveOutput(e)) == ObserveOutputAccepted(g, e).0
    ensures AnswerOf(g, CallObserveOutput(e)) == Evidence(ObserveOutputAccepted(g, e).1)
  {
    hide ObserveOutputAccepted;
    InvIsCallable(g);
  }

  lemma NonDeliveryAsked(g: GateState, e: NonDeliveryEvidence)
    requires Inv(g)
    ensures Asked(g, CallObserveNonDelivery(e)) == ObserveOutputNotDelivered(g, e).0
    ensures AnswerOf(g, CallObserveNonDelivery(e)) == Evidence(ObserveOutputNotDelivered(g, e).1)
  {
    hide ObserveOutputNotDelivered;
    InvIsCallable(g);
  }

  lemma SettlementAsked(g: GateState, e: SettlementEvidence)
    requires Inv(g)
    ensures Asked(g, CallObserveSettlement(e)) == ObserveSettlement(g, e).0
    ensures AnswerOf(g, CallObserveSettlement(e)) == Evidence(ObserveSettlement(g, e).1)
  {
    hide ObserveSettlement;
    InvIsCallable(g);
  }

  lemma ClosingAsked(g: GateState)
    requires Inv(g)
    ensures Asked(g, CallCloseAdmission) == CloseAdmission(g)
  {
    hide CloseAdmission;
    InvIsCallable(g);
  }
}
