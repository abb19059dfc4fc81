/**
 The moment of delivery: the host keeps the result and then asks the gate to accept it. The two agree
 except when the evidence counter has just run through, and that exception is exact.
 */
module HostDelivery {
  import opened Machine
  import opened Sums
  import opened GateTypes
  import opened GateSpec
  import opened GateInvariant
  import opened GateEffects
  import opened ProcessSpec
  import opened HostSpec
  import opened HostInvariant
  import opened HostSteps

  /** Whether this delivery hands the result out. */
  predicate Delivers(s: HostState, i: HostInput)
    requires s.authority.Some?
  {
    var u := Expire(Read(s), Read(s).now, i);
    !u.flags.evidenceError && CanDeliverResult(u.gate, s.authority.value)
  }

  /** Handing a result out leaves the two in agreement just when the number it is offered under is not zero. */
  lemma HandedOut(u: HostState, sum: U64)
    requires HostInv(u) && u.authority.Some? && u.request.Some?
    requires CanDeliverResult(u.gate, u.authority.value) && !HasReachedDeadline(u.gate.receipt.value, u.now)
    ensures Agrees(HostSpec.Deliver(u, sum, u.now)) <==> u.sequence != MAX_U64
  {
    hide Inv, ObserveOutputAccepted, CanDeliverResult, Decimal, GateEndsBy, ExpectedSum;
    InvIsCallable(u.gate);
    var e := OutputEvidence(u.authority.value, ResultReference(u.authority.value.operationId),
                            RecordBy(u, RESULT_SINK, u.now));
    OfferIsAccepted(u.gate, e, u.now);
  }

  /** Not handing it out leaves them as they were. */
  lemma Withheld(u: HostState)
    requires HostInv(u) && u.authority.Some?
    ensures Agrees(Withhold(u, u.now)) == Agrees(u)
  {
    hide Inv, Next, AnswerTo, Decimal, GateEndsBy, ExpectedSum;
    var e := NonDeliveryEvidence(u.authority.value, AuthorityRevoked, ResultReference(u.authority.value.operationId),
                                 RecordBy(u, RESULT_SINK, u.now));
    InvIsCallable(u.gate);
    PlainCallEffects(u.gate, CallObserveNonDelivery(e));
  }

  /**
   The host and its gate agree after a delivery exactly when the delivery does not hand out a result with
   the evidence counter at its last value.
   */
  lemma DeliveryIsExact(s: HostState, sum: U64, i: HostInput)
    requires HostInv(s) && s.authority.Some? && s.request.Some? && Agrees(s)
    ensures Agrees(DeliverOrWithhold(s, sum, i)) <==> !(Delivers(s, i) && s.sequence == MAX_U64)
  {
    ReadKeeps(s);
    var t := Read(s);
    ExpireKeeps(t, t.now, i);
    InvIsCallable(t.gate);
    ExpireEffects(t, t.now, i);
    var u := Expire(t, t.now, i);
    TimeKeepsAcceptance(t.gate, t.authority.value, t.now);
    assert Agrees(u);
    assert GateFits(t.gate, t.now);
    if Delivers(s, i) {
      DeliverableIsInTime(t.gate, t.authority.value, t.now);
      HandedOut(u, sum);
    } else {
      Withheld(u);
    }
  }
}
