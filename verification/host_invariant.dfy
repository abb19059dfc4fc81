/**
 The compute host's two objects agree: its gate releases an operation only once its child is gone,
 and the result it shows is there exactly when the gate has accepted it.
 */
module HostInvariant {
  import opened Machine
  import opened Sums
  import opened Frames
  import opened GateTypes
  import opened GateSpec
  import opened GateInvariant
  import opened GateEffects
  import opened ProcessSpec
  import opened HostSpec

  // ---------- What the host keeps ----------

  /** The channels are closed only over a child that has exited and been read to its end. */
  predicate ClosesLast(p: ProcessState) {
    p.channels.closed ==> HasExited(p) && p.stream.eof
  }

  /** The gate was made by this host, and nothing it remembers lies in the future. */
  ghost predicate GateFits(g: GateState, now: U64) {
    && InTime(g, now)
    && g.config.resultSinkObserver == RESULT_SINK && g.config.capabilityId == COMPUTE_CAPABILITY
  }

  /** Every call made in time keeps the gate fit. */
  lemma CallFits(g: GateState, c: Call, now: U64)
    requires GateFits(g, now) && TimeOf(c) <= now
    ensures GateFits(Asked(g, c), now) && Callable(g)
  {
    hide InTime, Asked, TimeOf, Callable;
    CallStaysInTime(g, c, now);
  }

  /** The gate's operation is the host's. */
  predicate AuthorityAgrees(s: HostState) {
    && (s.gate.receipt.Some? <==> s.authority.Some?)
    && (s.request.Some? ==> IsRequest(s.request.value))
    && (s.authority.Some? ==> s.request.Some? && s.gate.receipt.value.authority == s.authority.value)
    && (s.process.Some? ==> s.authority.Some?)
  }

  /** A child belongs to a dispatched operation, and the operation is settled only once it is gone. */
  predicate ProcessAgrees(s: HostState) {
    && (s.process.Some? ==> ClosesLast(s.process.value) && |s.process.value.stream.buffer| < FRAME_BYTES)
    && (s.process.Some? && s.request.Some? ==>
          s.process.value.limit == s.request.value.iterations && s.process.value.stopGrace == s.stopGrace)
    && (s.process.Some? && s.gate.receipt.Some? ==> s.gate.receipt.value.dispatch.status != DispatchPending)
    && (s.gate.receipt.Some? && s.gate.receipt.value.settlement.Some? ==> OwnsNothing(s))
  }

  predicate IsAccepted(s: HostState) {
    s.gate.receipt.Some? && s.gate.receipt.value.output.disposition == OutputAccepted
  }

  /** A result is shown exactly when the gate has accepted it. */
  predicate Agrees(s: HostState) {
    s.result.Some? <==> IsAccepted(s)
  }

  /** The two agree until the evidence counter has run through; after that, unless evidence was refused. */
  predicate ResultAgrees(s: HostState) {
    && (!s.wrapped || !s.flags.evidenceError ==> Agrees(s))
    && (IsAccepted(s) ==> s.result.Some?)
    && (s.result.Some? ==>
          && s.authority.Some? && s.request.Some?
          && s.result.value == ComputeResult(s.authority.value.operationId, s.request.value.reference,
                                             s.request.value.iterations, ExpectedSum(s.request.value.iterations)))
  }

  /** A shutdown that reports itself closed has settled everything and owns nothing. */
  predicate ShutdownAgrees(s: HostState) {
    s.shutdown == ShutdownClosed ==>
      OwnsNothing(s) && (s.gate.receipt.Some? ==> s.gate.receipt.value.settlement.Some?)
  }

  /** The child ran to its end and reported the sum of what it was asked for. */
  predicate Completed(p: ProcessState, n: U64) {
    && p.reaping.exit == Some(ExitedWith(0)) && p.stream.eof && p.stream.view.terminal == CompletedTerminal
    && p.stream.view.terminalIterations == n && p.stream.view.terminalValue == ExpectedSum(n)
  }

  /** The child was asked to stop, said that it did before the end, and exited so. */
  predicate StoppedShort(p: ProcessState, n: U64) {
    && p.reaping.exit == Some(ExitedWith(20)) && p.stream.eof && p.stream.view.stopRequested
    && p.stream.view.terminal == CancelledTerminal && p.stream.view.terminalIterations < n
  }

  /** The child is gone, and did neither, or not all it sent could be understood. */
  predicate FellShort(p: ProcessState, n: U64) {
    && HasExited(p) && p.stream.eof
    && (p.stream.view.malformed || p.stream.ioError != 0 || (!Completed(p, n) && !StoppedShort(p, n)))
  }

  /** A child says that it was cancelled only when it was asked to stop. */
  predicate CancelsWhenAsked(p: ProcessState) {
    p.stream.view.terminal == CancelledTerminal ==> p.stream.view.stopRequested
  }

  /** An end is on the receipt only if the child's own account of it is at hand. */
  predicate EndsAgree(s: HostState) {
    && (s.process.Some? ==> CancelsWhenAsked(s.process.value))
    && (s.gate.receipt.Some? ==> EndsAreTold(s, s.gate.receipt.value.native))
  }

  predicate EndsAreTold(s: HostState, n: NativeFacts) {
    && (n.succeeded.Some? || n.cancelled.Some? || n.failed.Some? ==> s.process.Some? && s.request.Some?)
    && (n.succeeded.Some? ==> Completed(s.process.value, s.request.value.iterations))
    && (n.cancelled.Some? ==> StoppedShort(s.process.value, s.request.value.iterations))
    && (n.failed.Some? ==> FellShort(s.process.value, s.request.value.iterations))
  }

  ghost predicate HostInv(s: HostState) {
    && GateFits(s.gate, s.now)
    && AuthorityAgrees(s) && ProcessAgrees(s) && ResultAgrees(s) && EndsAgree(s) && ShutdownAgrees(s)
  }

  lemma NewHostIsValid(maximum: U64, stopGrace: U64, worker: string, domain: string, generation: U64, now: U64)
    requires domain != "" && generation > 0
    ensures HostInv(NewHost(maximum, stopGrace, worker, domain, generation, now))
    ensures NewHost(maximum, stopGrace, worker, domain, generation, now).gate.phase == Active
  {
    hide Inv;
    InitialGateIsValid(ConfigOf(domain, generation, now));
  }

  /** The same child, of which nothing known is forgotten. */
  predicate SameChild(p: ProcessState, q: ProcessState) {
    && q.limit == p.limit && q.stopGrace == p.stopGrace && (HasExited(p) ==> q.reaping.exit == p.reaping.exit)
    && (p.stream.eof ==> q.stream.eof) && (p.channels.closed ==> q.channels.closed)
  }

  /** A child goes on being the same child, and what was closed stays closed. */
  predicate ChildStays(s: HostState, t: HostState) {
    && (s.process.Some? ==> t.process.Some?)
    && (IsLaunched(s) ==>
          IsLaunched(t) && SameChild(s.process.value, t.process.value))
  }

  /** How far one state may move from another while the same operation is in hand. */
  predicate Stays(s: HostState, t: HostState) {
    && t.authority == s.authority && t.request == s.request && t.now >= s.now && t.shutdown == s.shutdown
      && (s.wrapped ==> t.wrapped)
    && (s.flags.evidenceError ==> t.flags.evidenceError)
    && (t.gate.phase == Preparing ==> s.gate.phase == Preparing)
    && ChildStays(s, t)
  }

  ghost predicate Leads(s: HostState, t: HostState) {
    HostInv(t) && Stays(s, t)
  }

  // ---------- One step at a time ----------

  lemma ReadKeeps(s: HostState)
    requires HostInv(s)
    ensures Leads(s, Read(s)) && Read(s) == s.(now := Read(s).now, readings := Read(s).readings)
  {
    hide Inv, GateEndsBy, ClosesLast, HasExited, ExpectedSum, Completed, StoppedShort, FellShort;
    EndsByLater(s.gate, s.now, Read(s).now);
  }

  /** The gate a plain call leaves behind. */
  ghost predicate Follows(g: GateState, h: GateState, now: U64) {
    && GateFits(h, now) && (h.phase == Preparing ==> g.phase == Preparing) && (h.receipt.Some? <==> g.receipt.Some?)
    && (g.receipt.Some? ==> SameWork(g.receipt.value, h.receipt.value))
  }

  lemma PlainCallFollows(g: GateState, c: Call, now: U64)
    requires GateFits(g, now) && IsPlain(c) && TimeOf(c) <= now
    ensures Follows(g, Asked(g, c), now)
  {
    hide GateFits, Next, TimeOf, Callable;
    CallFits(g, c, now);
    PlainCallEffects(g, c);
    OnlyBeginPrepares(g, c);
  }

  lemma GateStepKeeps(s: HostState, h: GateState, e: bool)
    requires HostInv(s) && Follows(s.gate, h, s.now) && (s.flags.evidenceError ==> e)
    ensures Leads(s, s.(gate := h, flags := s.flags.(evidenceError := e)))
  {
    hide GateFits, ClosesLast, HasExited, ExpectedSum, Completed, StoppedShort, FellShort;
  }

  lemma AskKeeps(s: HostState, c: Call)
    requires HostInv(s) && IsPlain(c) && TimeOf(c) <= s.now
    ensures Leads(s, Ask(s, c)) && Leads(s, Report(s, c))
  {
    hide Follows, Leads, Asked, AnswerOf;
    PlainCallFollows(s.gate, c, s.now);
    GateStepKeeps(s, Asked(s.gate, c), s.flags.evidenceError);
    GateStepKeeps(s, Asked(s.gate, c), Report(s, c).flags.evidenceError);
    assert Ask(s, c) == s.(gate := Asked(s.gate, c), flags := s.flags.(evidenceError := s.flags.evidenceError));
  }
}
