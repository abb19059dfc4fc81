/**
 When a child is asked to stop, and when it is killed: the process that owns it requests its termination once,
 for a fault, for a stop that did not get through, or for a stop it was given time enough to follow.
 */
module Termination {
  import opened Machine
  import opened Frames
  import opened Sums
  import opened Workers
  import opened ProcessSpec
  import opened Supervision

  // ---------- One poll ----------

  /** What was sent makes no sense, or something could not be read or waited for. */
  predicate HasFault(p: ProcessState) {
    p.stream.view.malformed || p.stream.ioError != 0
  }

  /** A stop was asked for that did not get through, or long enough ago. */
  predicate IsOverdue(p: ProcessState, now: U64) {
    && p.stream.view.stopRequested
    && (!p.stopping.delivered
        || (p.stopping.requestedAt.Some? && p.stopping.requestedAt.value + p.stopGrace <= now))
  }

  /** The poll is of a child that is still there after it, as far as this process can tell. */
  predicate IsStillThere(p: ProcessState, i: PollInput) {
    && p.launched && !p.channels.closed && !p.reaping.ownershipLost && p.reaping.owned && p.reaping.exit.None?
    && (i.wait.NotYet? || i.wait.WaitFailed?)
  }

  lemma DrainingKeepsControl(p: ProcessState, pipe: seq<Byte>, i: PollInput)
    requires |p.stream.buffer| < FRAME_BYTES
    ensures var q := DrainEvents(p, pipe, i).0;
      && q == p.(stream := q.stream) && q.stream.view.stopRequested == p.stream.view.stopRequested
      && (p.stream.ioError != 0 ==> q.stream.ioError == p.stream.ioError)
      && (p.stream.view.malformed ==> q.stream.view.malformed)
  {
    hide Drain;
    DrainingKeepsStop(p.limit, p.stream, pipe, i.writerClosed, i.choices, 0, 0);
  }

  lemma DeliveringKeepsStop(limit: U64, s: Stream, chunk: seq<Byte>)
    requires |s.buffer| + |chunk| <= FRAME_BYTES
    ensures var t := Deliver(limit, s, chunk);
      && t.view.stopRequested == s.view.stopRequested && t.ioError == s.ioError
      && (s.view.malformed ==> t.view.malformed)
  {
    hide Decode;
  }

  lemma {:induction false} DrainingKeepsStop(limit: U64, s: Stream, pipe: seq<Byte>, writerClosed: bool,
                                             choices: nat -> ReadChoice, k: nat, frames: nat)
    requires |s.buffer| < FRAME_BYTES
    ensures var t := Drain(limit, s, pipe, writerClosed, choices, k, frames).0;
      && t.view.stopRequested == s.view.stopRequested && (s.ioError != 0 ==> t.ioError == s.ioError)
      && (s.view.malformed ==> t.view.malformed)
    decreases |pipe|
  {
    hide Deliver;
    if frames < MAXIMUM_FRAMES_PER_POLL && choices(k).Take? && pipe != [] {
      var m := TakeCount(choices(k).atMost, FRAME_BYTES - |s.buffer|, |pipe|);
      var t := Deliver(limit, s, pipe[..m]);
      DeliveringKeepsStop(limit, s, pipe[..m]);
      DrainingKeepsStop(limit, t, pipe[m..], writerClosed, choices, k + 1, if t.buffer == [] then frames + 1
                        else frames);
    }
  }

  /**
   A poll requests termination if and only if the child is still there and termination was not attempted before, and
   there is a fault, an earlier request is open, or a stop is overdue.
   */
  lemma TerminationIsExact(p: ProcessState, now: U64, pipe: seq<Byte>, i: PollInput)
    requires |p.stream.buffer| < FRAME_BYTES
    ensures var q := Poll(p, now, pipe, i).0;
      if && IsStillThere(p, i) && !p.stopping.terminationAttempted
         && (HasFault(q) || p.stopping.terminationPending || IsOverdue(p, now)) then
        && q.stopping.terminationAttempted && q.stopping.terminationRequested
        && (i.killError.Some? ==> q.stopping.terminationError != 0)
      else
        && q.stopping.terminationAttempted == p.stopping.terminationAttempted
        && q.stopping.terminationRequested == p.stopping.terminationRequested
        && q.stopping.terminationError == p.stopping.terminationError
  {
    hide DrainEvents;
    DrainingKeepsControl(p, pipe, i);
  }

  // ---------- Runs ----------

  /** How a process stands between calls. */
  predicate StandsFor(p: ProcessState, grace: U64) {
    && p.stopGrace == grace && p.launched
    && (p.stream.view.stopRequested <==> p.stopping.requestedAt.Some?)
    && (p.stopping.delivered ==> p.stopping.requestedAt.Some?)
    && (p.stopping.terminationAttempted <==> p.stopping.terminationRequested)
    && (p.reaping.owned <==> p.reaping.exit.None? && !p.reaping.ownershipLost)
    && (p.channels.closed ==> p.reaping.exit.Some?)
    && (p.stopping.terminationPending && !p.stopping.terminationAttempted && p.reaping.owned ==>
          HasFault(p) || (p.stream.view.stopRequested && !p.stopping.delivered))
  }

  lemma SpawnStands(limit: U64, grace: U64, closeError: Option<int>)
    requires 0 < limit <= MAXIMUM_ITERATIONS
    ensures StandsFor(Spawn(limit, grace, closeError).process, grace)
  {
  }

  lemma PollStands(p: ProcessState, now: U64, pipe: seq<Byte>, i: PollInput, grace: U64)
    requires StandsFor(p, grace) && |p.stream.buffer| < FRAME_BYTES
    ensures StandsFor(Poll(p, now, pipe, i).0, grace)
    ensures var q := Poll(p, now, pipe, i).0;
      && q.stopping.requestedAt == p.stopping.requestedAt && q.stopping.delivered == p.stopping.delivered
  {
    hide DrainEvents;
    DrainingKeepsControl(p, pipe, i);
  }

  lemma StopStands(p: ProcessState, now: U64, error: Option<int>, grace: U64)
    requires StandsFor(p, grace)
    ensures StandsFor(RequestStop(p, now, error), grace)
  {
  }

  lemma CloseStands(p: ProcessState, c: Option<int>, e: Option<int>, grace: U64)
    requires StandsFor(p, grace)
    ensures var q := CloseChannels(p, c, e).0; StandsFor(q, grace) && q.stopping == p.stopping
  {
  }

  lemma MoveStands(s: Supervised, m: Supervision.Move, grace: U64)
    requires StandsFor(s.process, grace) && |s.process.stream.buffer| < FRAME_BYTES
             && InRange(s.process.limit, s.trace.child)
    ensures StandsFor(Apply(s, m).process, grace)
    ensures !m.AskStop? && !m.PollProcess? ==> Apply(s, m).process.stopping == s.process.stopping
  {
    hide StandsFor, Step, RequestStop, Poll, CloseChannels;
    match m
    case AskStop(now, error) => StopStands(s.process, now, error, grace);
    case PollProcess(now, i) => PollStands(s.process, now, s.pipe, i, grace);
    case Close(c, e) => CloseStands(s.process, c, e, grace);
    case _ =>
  }

  /** What the first state of a run was launched with. */
  lemma {:induction false} RunStands(limit: U64, states: seq<Supervised>, moves: seq<Supervision.Move>, k: nat)
    requires 0 < limit <= MAXIMUM_ITERATIONS && IsRun(limit, states, moves) && k < |states|
    ensures StandsFor(states[k].process, states[0].process.stopGrace)
  {
    hide SupervisedInv, Apply, Enabled, Spawn, StandsFor;
    if k == 0 {
      var grace: U64, e: Option<int> :| states[0] == Spawn(limit, grace, e);
      SpawnStands(limit, grace, e);
      GraceOf(limit, grace, e);
    } else {
      RunStands(limit, states, moves, k - 1);
      RunsAreSound(limit, states, moves, k - 1);
      assert Follows(states[k - 1], moves[k - 1], states[k]);
      SoundIsInRange(states[k - 1]);
      MoveStands(states[k - 1], moves[k - 1], states[0].process.stopGrace);
    }
  }

  lemma GraceOf(limit: U64, grace: U64, e: Option<int>)
    ensures Spawn(limit, grace, e).process.stopGrace == grace
  {
  }

  lemma SoundIsInRange(s: Supervised)
    requires SupervisedInv(s)
    ensures |s.process.stream.buffer| < FRAME_BYTES && InRange(s.process.limit, s.trace.child)
  {
    hide Watches;
  }

  /**
   In every run, a poll kills the child if and only if it is still there, was not killed before, and there is a
   fault, or
   it was asked to stop and either could not be told or had its grace: the first such poll does, and none before.
   */
  lemma KilledExactly(limit: U64, states: seq<Supervised>, moves: seq<Supervision.Move>, k: nat)
    requires 0 < limit <= MAXIMUM_ITERATIONS && IsRun(limit, states, moves) && k < |moves|
    ensures var p, q := states[k].process, states[k + 1].process;
      if && moves[k].PollProcess? && p.reaping.exit.None? && !p.reaping.ownershipLost
         && (moves[k].poll.wait.NotYet? || moves[k].poll.wait.WaitFailed?) && !p.stopping.terminationRequested
         && (|| q.stream.view.malformed || q.stream.ioError != 0
             || (p.stopping.requestedAt.Some?
                 && (!p.stopping.delivered
                     || p.stopping.requestedAt.value + states[0].process.stopGrace <= moves[k].pollAt))) then
        q.stopping.terminationRequested
      else q.stopping.terminationRequested == p.stopping.terminationRequested
  {
    hide IsRun, SupervisedInv, Apply, Poll, StandsFor;
    LengthOfRun(limit, states, moves);
    RunStands(limit, states, moves, k);
    RunsAreSound(limit, states, moves, k);
    SoundIsInRange(states[k]);
    RunFollows(limit, states, moves, k);
    KillsExactly(states[k], moves[k], states[0].process.stopGrace);
  }

  lemma RunFollows(limit: U64, states: seq<Supervised>, moves: seq<Supervision.Move>, k: nat)
    requires 0 < limit <= MAXIMUM_ITERATIONS && IsRun(limit, states, moves) && k < |moves|
    requires |states[k].process.stream.buffer| < FRAME_BYTES && InRange(states[k].process.limit, states[k].trace.child)
    ensures |states| == |moves| + 1 && Enabled(states[k], moves[k]) && states[k + 1] == Apply(states[k], moves[k])
  {
    hide SupervisedInv, Apply, Enabled;
    assert Follows(states[k], moves[k], states[k + 1]);
  }

  lemma KillsExactly(s: Supervised, m: Supervision.Move, grace: U64)
    requires StandsFor(s.process, grace) && |s.process.stream.buffer| < FRAME_BYTES
             && InRange(s.process.limit, s.trace.child)
    ensures var p, q := s.process, Apply(s, m).process;
      if && m.PollProcess? && p.reaping.exit.None? && !p.reaping.ownershipLost
         && (m.poll.wait.NotYet? || m.poll.wait.WaitFailed?) && !p.stopping.terminationRequested
         && (|| q.stream.view.malformed || q.stream.ioError != 0
             || (p.stopping.requestedAt.Some?
                 && (!p.stopping.delivered || p.stopping.requestedAt.value + grace <= m.pollAt))) then
        q.stopping.terminationRequested
      else q.stopping.terminationRequested == p.stopping.terminationRequested
  {
    hide Step, Poll, CloseChannels;
    if m.PollProcess? {
      TerminationIsExact(s.process, m.pollAt, s.pipe, m.poll);
      FaultsStay(s.process, m.pollAt, s.pipe, m.poll);
    } else {
      MoveStands(s, m, grace);
    }
  }

  lemma FaultsStay(p: ProcessState, now: U64, pipe: seq<Byte>, i: PollInput)
    requires |p.stream.buffer| < FRAME_BYTES
    ensures HasFault(p) ==> HasFault(Poll(p, now, pipe, i).0)
  {
    hide DrainEvents;
    DrainingKeepsControl(p, pipe, i);
  }

  /** What the first request to stop came to. */
  predicate WasTold(p: ProcessState, error: Option<int>) {
    p.reaping.exit.None? && !p.reaping.ownershipLost && p.channels.controlOpen && error.None?
  }

  ghost predicate IsFirstStop(states: seq<Supervised>, moves: seq<Supervision.Move>, j: nat, k: nat)
    requires |states| == |moves| + 1 && k <= |moves|
  {
    && j < k && moves[j].AskStop? && (forall a :: 0 <= a < j ==> !moves[a].AskStop?)
    && states[k].process.stopping.requestedAt == Some(moves[j].stopAt)
    && (states[k].process.stopping.delivered <==> WasTold(states[j].process, moves[j].sendError))
  }

  lemma AskingIsExact(p: ProcessState, now: U64, error: Option<int>, grace: U64)
    requires StandsFor(p, grace)
    ensures var q := RequestStop(p, now, error);
      if p.stopping.requestedAt.Some? then q == p
      else q.stopping.requestedAt == Some(now) && (q.stopping.delivered <==> WasTold(p, error))
  {
  }

  /**
   In every run, the time a stop counts from is that of the first request, and it was delivered if and only if at that
   moment the child was still there, its control channel open and the byte sent.
   */
  lemma {:induction false} StopCountsFromFirst(limit: U64, states: seq<Supervised>, moves: seq<Supervision.Move>,
                                               k: nat)
    returns (j: nat)
    requires 0 < limit <= MAXIMUM_ITERATIONS && IsRun(limit, states, moves) && k < |states|
    ensures |states| == |moves| + 1
    ensures if states[k].process.stopping.requestedAt.Some? then IsFirstStop(states, moves, j, k)
            else forall a :: 0 <= a < k ==> !moves[a].AskStop?
  {
    hide IsRun, SupervisedInv, Apply, StandsFor, WasTold;
    LengthOfRun(limit, states, moves);
    j := 0;
    if k == 0 {
      StartsUnasked(limit, states, moves);
    } else {
      j := StopCountsFromFirst(limit, states, moves, k - 1);
      RunStands(limit, states, moves, k - 1);
      RunsAreSound(limit, states, moves, k - 1);
      SoundIsInRange(states[k - 1]);
      RunFollows(limit, states, moves, k - 1);
      StoppingFollows(states[k - 1], moves[k - 1], states[0].process.stopGrace);
      if states[k - 1].process.stopping.requestedAt.None? && moves[k - 1].AskStop? { j := k - 1; }
    }
  }

  lemma LengthOfRun(limit: U64, states: seq<Supervised>, moves: seq<Supervision.Move>)
    requires 0 < limit <= MAXIMUM_ITERATIONS && IsRun(limit, states, moves)
    ensures |states| == |moves| + 1
  {
  }

  lemma StartsUnasked(limit: U64, states: seq<Supervised>, moves: seq<Supervision.Move>)
    requires 0 < limit <= MAXIMUM_ITERATIONS && IsRun(limit, states, moves)
    ensures states[0].process.stopping.requestedAt.None?
  {
    hide Apply, Enabled;
  }

  lemma StoppingFollows(s: Supervised, m: Supervision.Move, grace: U64)
    requires StandsFor(s.process, grace) && |s.process.stream.buffer| < FRAME_BYTES
             && InRange(s.process.limit, s.trace.child)
    ensures var p, q := s.process.stopping, Apply(s, m).process.stopping;
      if m.AskStop? && p.requestedAt.None? then
        q.requestedAt == Some(m.stopAt) && (q.delivered <==> WasTold(s.process, m.sendError))
      else q.requestedAt == p.requestedAt && q.delivered == p.delivered
  {
    hide StandsFor, Step, RequestStop, Poll, CloseChannels, WasTold;
    MoveStands(s, m, grace);
    match m
    case AskStop(now, error) => AskingIsExact(s.process, now, error, grace);
    case PollProcess(now, i) => PollStands(s.process, now, s.pipe, i, grace);
    case _ =>
  }
}
