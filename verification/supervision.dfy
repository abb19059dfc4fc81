/**
 A compute child, its event pipe and the process that owns it, as one machine: every turn of the
 child, stop, poll and close in every order, with reads of every size. What the owner has seen
 is never anything but what the child has done.
 */
module Supervision {
  import opened Machine
  import opened Frames
  import opened Sums
  import opened Workers
  import opened ProcessSpec

  // ---------- Consuming and buffering ----------

  lemma {:induction false} ConsumeAllAppends(limit: U64, v: View, frames: seq<Frame>, f: Frame)
    ensures ConsumeAll(limit, v, frames + [f]) == Consume(limit, ConsumeAll(limit, v, frames), f)
    decreases |frames|
  {
    hide Consume;
    if frames == [] {
      assert ConsumeAll(limit, v, [f]) == ConsumeAll(limit, Consume(limit, v, f), []);
    } else {
      ConsumeAllAppends(limit, Consume(limit, v, frames[0]), frames[1..], f);
      assert (frames + [f])[1..] == frames[1..] + [f];
    }
  }

  lemma {:induction false} MalformedStays(limit: U64, v: View, frames: seq<Frame>)
    requires v.malformed
    ensures ConsumeAll(limit, v, frames) == v
    decreases |frames|
  {
    if frames == [] {
    } else {
      MalformedStays(limit, v, frames[1..]);
    }
  }

  lemma StopCommutesOnce(limit: U64, v: View, f: Frame)
    requires !Consume(limit, v, f).malformed
    ensures Consume(limit, v.(stopRequested := true), f) == Consume(limit, v, f).(stopRequested := true)
  {
  }

  /** Asking a child to stop changes nothing about the frames already on their way. */
  lemma {:induction false} StopCommutes(limit: U64, v: View, frames: seq<Frame>)
    requires !ConsumeAll(limit, v, frames).malformed
    ensures ConsumeAll(limit, v.(stopRequested := true), frames)
         == ConsumeAll(limit, v, frames).(stopRequested := true)
    decreases |frames|
  {
    hide Consume;
    if frames == [] {
    } else {
      var w := Consume(limit, v, frames[0]);
      if w.malformed { MalformedStays(limit, w, frames[1..]); }
      StopCommutesOnce(limit, v, frames[0]);
      StopCommutes(limit, w, frames[1..]);
    }
  }

  /** The bytes read so far and the bytes still in the pipe are whole frames, and perhaps part of one. */
  predicate IsFramed(s: Stream, pipe: seq<Byte>, inFlight: seq<Frame>, tail: seq<Byte>) {
    |s.buffer| < FRAME_BYTES && |tail| < FRAME_BYTES && s.buffer + pipe == EncodeAll(inFlight) + tail
  }

  /** One read, of any size, moves bytes but not what they will have said. */
  lemma DeliverKeeps(limit: U64, s: Stream, pipe: seq<Byte>, m: nat, inFlight: seq<Frame>, tail: seq<Byte>)
    returns (left: seq<Frame>)
    requires IsFramed(s, pipe, inFlight, tail) && 0 < m <= |pipe| && |s.buffer| + m <= FRAME_BYTES
    ensures var t := Deliver(limit, s, pipe[..m]);
      && IsFramed(t, pipe[m..], left, tail)
      && ConsumeAll(limit, t.view, left) == ConsumeAll(limit, s.view, inFlight)
  {
    hide Encode, Decode, Consume;
    var bytes := s.buffer + pipe[..m];
    assert bytes + pipe[m..] == s.buffer + pipe;
    if |bytes| == FRAME_BYTES {
      assert inFlight != [] by { assert EncodeAll([]) + tail == tail; }
      left := inFlight[1..];
      var head := Encode(inFlight[0]);
      assert bytes + pipe[m..] == head + (EncodeAll(left) + tail);
      assert bytes == (bytes + pipe[m..])[..FRAME_BYTES];
      assert head == (head + (EncodeAll(left) + tail))[..FRAME_BYTES];
      assert pipe[m..] == (bytes + pipe[m..])[FRAME_BYTES..];
      assert EncodeAll(left) + tail == (head + (EncodeAll(left) + tail))[FRAME_BYTES..];
      DecodeEncode(inFlight[0]);
      assert [] + pipe[m..] == pipe[m..];
    } else {
      left := inFlight;
    }
  }

  /**
   Draining, with reads of any size and any interruption, leaves what the remaining frames will
   say unchanged; and at the end of the stream nothing remains.
   */
  lemma {:induction false} DrainKeeps(limit: U64, s: Stream, pipe: seq<Byte>, writerClosed: bool,
                                      choices: nat -> ReadChoice, k: nat, frames: nat,
                                      inFlight: seq<Frame>, tail: seq<Byte>)
    returns (left: seq<Frame>)
    requires IsFramed(s, pipe, inFlight, tail) && !s.eof
    ensures var (t, rest) := Drain(limit, s, pipe, writerClosed, choices, k, frames);
      && IsFramed(t, rest, left, tail)
      && (t.eof ==>
            && writerClosed && left == [] && t.buffer == tail && rest == []
            && var v := ConsumeAll(limit, s.view, inFlight);
               t.view == if tail != [] || v.terminal == NoTerminal then v.(malformed := true) else v)
      && (!t.eof ==> ConsumeAll(limit, t.view, left) == ConsumeAll(limit, s.view, inFlight))
    decreases |pipe|
  {
    hide Encode, Decode, Consume, Deliver;
    left := inFlight;
    if frames < MAXIMUM_FRAMES_PER_POLL && choices(k).Take? {
      if pipe == [] {
        assert s.buffer + pipe == s.buffer;
        assert |EncodeAll(inFlight)| < FRAME_BYTES;
        assert EncodeAll([]) + tail == tail;
      } else {
        var m := TakeCount(choices(k).atMost, FRAME_BYTES - |s.buffer|, |pipe|);
        left := DeliverKeeps(limit, s, pipe, m, inFlight, tail);
        var t := Deliver(limit, s, pipe[..m]);
        left := DrainKeeps(limit, t, pipe[m..], writerClosed, choices, k + 1,
                           if t.buffer == [] then frames + 1 else frames, left, tail);
      }
    }
  }

  /** However the reads cut the stream up, two complete readings of it have seen the same. */
  lemma ChunkingIsInvisible(limit: U64, s: Stream, pipe: seq<Byte>, one: nat -> ReadChoice, other: nat -> ReadChoice,
                            inFlight: seq<Frame>, tail: seq<Byte>)
    requires IsFramed(s, pipe, inFlight, tail) && !s.eof
    requires Drain(limit, s, pipe, true, one, 0, 0).0.eof && Drain(limit, s, pipe, true, other, 0, 0).0.eof
    ensures Drain(limit, s, pipe, true, one, 0, 0).0.view == Drain(limit, s, pipe, true, other, 0, 0).0.view
  {
    hide Drain, IsFramed, ConsumeAll;
    var _ := DrainKeeps(limit, s, pipe, true, one, 0, 0, inFlight, tail);
    var _ := DrainKeeps(limit, s, pipe, true, other, 0, 0, inFlight, tail);
  }

  // ---------- The machine ----------

  /** A child, the stop byte on its way to it, the bytes on their way back, and its owner. */
  datatype Supervised = Supervised(
    trace: Trace,
    killed: bool,
    stopCommand: bool,
    pipe: seq<Byte>,
    process: ProcessState)

  datatype Move =
    | ChildTurn(input: Input)
    | Kill
    | AskStop(stopAt: U64, sendError: Option<int>)
    | PollProcess(pollAt: U64, poll: PollInput)
    | Close(controlError: Option<int>, eventError: Option<int>)

  predicate IsAlive(s: Supervised) {
    !s.killed && !s.trace.child.Exited?
  }

  function StatusOf(s: Supervised): ExitStatus {
    if s.trace.child.Exited? then ExitedWith(s.trace.child.code) else Signaled
  }

  predicate ReadsControl(limit: nat, c: Child) {
    c.Running? && c.completed < limit
  }

  /** What the environment can do: no invented command, no early end of file, no exit status but the real one. */
  ghost predicate Enabled(s: Supervised, m: Move) {
    match m
    case ChildTurn(i) =>
      && IsAlive(s)
      && (i.control.Command? ==> s.stopCommand && i.control.byte == STOP_COMMAND)
      && (i.control.EndOfFile? ==> !s.process.channels.controlOpen)
    case Kill => IsAlive(s)
    case AskStop(_, _) => true
    case PollProcess(_, i) =>
      && i.writerClosed == !IsAlive(s)
      && (i.wait.Reaped? ==> !IsAlive(s) && i.wait.status == StatusOf(s))
    case Close(_, _) => true
  }

  /** What a turn of the child put into the pipe. */
  function Written(before: Trace, after: Trace): seq<Byte> {
    if |before.frames| < |after.frames| then Encode(after.frames[|after.frames| - 1]) else []
  }

  ghost function Apply(s: Supervised, m: Move): Supervised
    requires |s.process.stream.buffer| < FRAME_BYTES
    requires InRange(s.process.limit, s.trace.child)
  {
    match m
    case ChildTurn(i) =>
      var t := Step(s.process.limit, s.trace, i);
      s.(trace := t, pipe := s.pipe + Written(s.trace, t),
         stopCommand := s.stopCommand && !(ReadsControl(s.process.limit, s.trace.child) && i.control.Command?))
    case Kill => s.(killed := true)
    case AskStop(now, error) =>
      var p := RequestStop(s.process, now, error);
      s.(process := p, stopCommand := s.stopCommand || (p.stopping.delivered && !s.process.stopping.delivered))
    case PollProcess(now, i) =>
      var (p, rest) := Poll(s.process, now, s.pipe, i);
      s.(process := p, pipe := rest)
    case Close(c, e) => s.(process := CloseChannels(s.process, c, e).0)
  }

  /** A child just launched. */
  function Spawn(limit: U64, stopGrace: U64, closeError: Option<int>): Supervised {
    Supervised(Trace(Starting, []), false, false, [], Launch(NewProcess(limit, stopGrace), Spawned(closeError)).0)
  }

  // ---------- What the owner will have seen ----------

  predicate HasNotEnded(v: View) {
    v.terminal == NoTerminal
  }

  /** What a view says once it has caught up with the child. */
  predicate Agrees(limit: U64, c: Child, v: View) {
    && !v.malformed && !v.stopIgnored
    && match c
       case Starting =>
         !v.started && v.last == 0 && v.dropped == 0 && v.progress == 0 && !v.stopAcknowledged && HasNotEnded(v)
       case Running(completed, dropped) =>
         && v.started && !v.stopAcknowledged && v.progress <= v.last <= completed && v.dropped <= dropped
         && HasNotEnded(v)
       case Stopping(completed, dropped) =>
         && v.started && v.stopAcknowledged && v.stopRequested && v.progress <= v.last == completed
         && v.dropped == dropped && HasNotEnded(v)
       case Exited(code) => Ended(limit, code, v) && (code == FAILURE_EXIT_CODE ==> HasNotEnded(v))
  }

  /** Completed exactly at the limit, or cancelled strictly below it after a stop was asked for. */
  predicate Ended(limit: U64, code: int, v: View) {
    && (code == 0 || code == CANCELLED_EXIT_CODE || code == FAILURE_EXIT_CODE)
    && (code == 0 ==>
          v.terminal == CompletedTerminal && v.terminalIterations == limit && v.terminalValue == SumTo(limit))
    && (code == CANCELLED_EXIT_CODE ==>
          && v.terminal == CancelledTerminal && v.terminalIterations < limit
          && v.terminalValue == SumTo(v.terminalIterations) && v.stopRequested && v.stopAcknowledged)
  }

  /** What is known once the stream has ended. */
  predicate EndAgrees(limit: U64, c: Child, v: View) {
    if c == Exited(0) || c == Exited(CANCELLED_EXIT_CODE) then !v.malformed && Ended(limit, c.code, v)
    else v.malformed && HasNotEnded(v)
  }

  predicate Watches(s: Supervised, inFlight: seq<Frame>) {
    var p := s.process;
    if p.stream.eof then !IsAlive(s) && inFlight == [] && EndAgrees(p.limit, s.trace.child, p.stream.view)
    else
      && IsFramed(p.stream, s.pipe, inFlight, [])
      && Agrees(p.limit, s.trace.child, ConsumeAll(p.limit, p.stream.view, inFlight))
  }

  predicate HasKnownCode(c: Child) {
    c.Exited? ==> c.code == 0 || c.code == CANCELLED_EXIT_CODE || c.code == FAILURE_EXIT_CODE
  }

  predicate IsSound(s: Supervised) {
    var p := s.process;
    && 0 < p.limit <= MAXIMUM_ITERATIONS && p.launched && InRange(p.limit, s.trace.child)
    && |p.stream.buffer| < FRAME_BYTES
    && (s.killed ==> !s.trace.child.Exited?) && HasKnownCode(s.trace.child)
    && (s.stopCommand ==> p.stream.view.stopRequested)
    && (HasExited(p) ==> !IsAlive(s) && p.reaping.exit.value == StatusOf(s))
    && (p.channels.closed ==> HasExited(p) && p.stream.eof)
  }

  /** Kept by every move: what is seen, together with what is still in flight, is what the child did. */
  ghost predicate SupervisedInv(s: Supervised) {
    IsSound(s) && exists inFlight :: Watches(s, inFlight)
  }

  lemma ConsumeAllKeepsStop(limit: U64, v: View, frames: seq<Frame>)
    ensures ConsumeAll(limit, v, frames).stopRequested == v.stopRequested
    decreases |frames|
  {
    if frames == [] {
    } else {
      ConsumeAllKeepsStop(limit, Consume(limit, v, frames[0]), frames[1..]);
    }
  }

  /** The next frame of the child is one its owner accepts, and leaves it in agreement again. */
  lemma TurnAgrees(limit: U64, t: Trace, v: View, i: Input)
    requires limit <= MAXIMUM_ITERATIONS && InRange(limit, t.child) && !t.child.Exited?
    requires Agrees(limit, t.child, v) && (i.control.Command? ==> v.stopRequested)
    ensures HasKnownCode(Step(limit, t, i).child)
    ensures var u := Step(limit, t, i);
      if |t.frames| < |u.frames| then
        && u.frames == t.frames + [u.frames[|t.frames|]]
        && Agrees(limit, u.child, Consume(limit, v, u.frames[|t.frames|]))
      else u.frames == t.frames && Agrees(limit, u.child, v)
  {
    hide SumTo;
    var u := Step(limit, t, i);
  }

  lemma ChildTurnKeeps(s: Supervised, i: Input)
    requires SupervisedInv(s) && Enabled(s, ChildTurn(i))
    ensures SupervisedInv(Apply(s, ChildTurn(i)))
  {
    hide Step, Consume, Agrees, Encode, EndAgrees, SumTo;
    var limit := s.process.limit;
    var stream := s.process.stream;
    var inFlight :| Watches(s, inFlight);
    var v := ConsumeAll(limit, stream.view, inFlight);
    var u := Step(limit, s.trace, i);
    ConsumeAllKeepsStop(limit, stream.view, inFlight);
    TurnAgrees(limit, s.trace, v, i);
    var t := Apply(s, ChildTurn(i));
    if |s.trace.frames| < |u.frames| {
      var f := u.frames[|s.trace.frames|];
      ConsumeAllAppends(limit, stream.view, inFlight, f);
      EncodeAllAppends(inFlight, f);
      assert stream.buffer + t.pipe == (stream.buffer + s.pipe) + Encode(f);
      assert EncodeAll(inFlight) + [] == EncodeAll(inFlight);
      assert EncodeAll(inFlight + [f]) + [] == EncodeAll(inFlight + [f]);
      assert Watches(t, inFlight + [f]);
    } else {
      assert t.pipe == s.pipe;
      assert Watches(t, inFlight);
    }
  }

  lemma AskStopKeeps(s: Supervised, now: U64, error: Option<int>)
    requires SupervisedInv(s)
    ensures SupervisedInv(Apply(s, AskStop(now, error)))
  {
    hide Consume, Encode, SumTo, ConsumeAll, EncodeAll;
    var stream := s.process.stream;
    var inFlight :| Watches(s, inFlight);
    var t := Apply(s, AskStop(now, error));
    if !stream.eof {
      ConsumeAllKeepsStop(s.process.limit, stream.view, inFlight);
      StopCommutes(s.process.limit, stream.view, inFlight);
    }
    assert Watches(t, inFlight);
  }

  lemma SuperviseKeeps(p: ProcessState, now: U64, i: PollInput)
    ensures var q := Supervise(p, now, i);
      && q.stream == p.stream.(ioError := q.stream.ioError) && q.limit == p.limit
      && q.channels == p.channels && q.launched == p.launched
      && (q.reaping.exit == p.reaping.exit || (HasExited(q) && i.wait == Reaped(q.reaping.exit.value)))
  {
  }

  lemma DrainEventsKeeps(s: Supervised, i: PollInput, inFlight: seq<Frame>) returns (left: seq<Frame>)
    requires Watches(s, inFlight) && IsSound(s) && i.writerClosed == !IsAlive(s)
    ensures var (p, rest) := DrainEvents(s.process, s.pipe, i);
      Watches(s.(process := p, pipe := rest), left) && |p.stream.buffer| < FRAME_BYTES
      && p == s.process.(stream := p.stream)
      && (s.process.stream.eof ==> p.stream.eof)
      && p.stream.view.stopRequested == s.process.stream.view.stopRequested
  {
    hide Encode, SumTo, Drain, EncodeAll, Consume, ConsumeAll;
    var stream := s.process.stream;
    left := inFlight;
    if s.process.channels.eventOpen && !stream.eof {
      left := DrainKeeps(s.process.limit, stream, s.pipe, i.writerClosed, i.choices, 0, 0, inFlight, []);
      var (t, _) := Drain(s.process.limit, stream, s.pipe, i.writerClosed, i.choices, 0, 0);
      ConsumeAllKeepsStop(s.process.limit, stream.view, inFlight);
      ConsumeAllKeepsStop(s.process.limit, t.view, left);
    }
  }

  lemma PollKeeps(s: Supervised, now: U64, i: PollInput)
    requires SupervisedInv(s) && Enabled(s, PollProcess(now, i))
    ensures SupervisedInv(Apply(s, PollProcess(now, i)))
  {
    hide DrainEvents, Supervise, EndAgrees, Agrees, ConsumeAll, EncodeAll;
    var inFlight :| Watches(s, inFlight);
    var p := s.process;
    var t := Apply(s, PollProcess(now, i));
    if !p.launched || p.reaping.ownershipLost || p.channels.closed {
      assert Watches(t, inFlight);
    } else {
      var left := DrainEventsKeeps(s, i, inFlight);
      SuperviseKeeps(DrainEvents(p, s.pipe, i).0, now, i);
      assert Watches(t, left);
    }
  }

  lemma CloseKeeps(s: Supervised, c: Option<int>, e: Option<int>)
    requires SupervisedInv(s)
    ensures SupervisedInv(Apply(s, Close(c, e)))
  {
    hide EndAgrees, Agrees, ConsumeAll, EncodeAll;
    var inFlight :| Watches(s, inFlight);
    var t := Apply(s, Close(c, e));
    assert t.process.stream == s.process.stream.(ioError := t.process.stream.ioError);
    assert Watches(t, inFlight);
  }

  lemma MoveKeeps(s: Supervised, m: Move)
    requires SupervisedInv(s) && Enabled(s, m)
    ensures SupervisedInv(Apply(s, m))
  {
    match m
    case ChildTurn(i) => ChildTurnKeeps(s, i);
    case Kill =>
      var inFlight :| Watches(s, inFlight);
      assert Watches(Apply(s, m), inFlight);
    case AskStop(now, error) => AskStopKeeps(s, now, error);
    case PollProcess(now, i) => PollKeeps(s, now, i);
    case Close(c, e) => CloseKeeps(s, c, e);
  }

  lemma TerminalIsLast(limit: U64, v: View, frames: seq<Frame>)
    requires !ConsumeAll(limit, v, frames).malformed && v.terminal != NoTerminal
    ensures frames == []
  {
    if frames != [] { MalformedStays(limit, Consume(limit, v, frames[0]), frames[1..]); }
  }

  /** What a terminal frame says is what the child did. */
  predicate IsTrue(limit: U64, v: View) {
    && (v.terminal == CompletedTerminal ==> v.terminalIterations == limit && v.terminalValue == SumTo(limit))
    && (v.terminal == CancelledTerminal ==>
          v.terminalIterations < limit && v.terminalValue == SumTo(v.terminalIterations) && v.stopRequested)
  }

  lemma SoundIsTrue(s: Supervised)
    requires SupervisedInv(s)
    ensures IsTrue(s.process.limit, s.process.stream.view)
  {
    hide Consume, EncodeAll, SumTo, IsFramed;
    var v := s.process.stream.view;
    var inFlight :| Watches(s, inFlight);
    if !s.process.stream.eof && v.terminal != NoTerminal { TerminalIsLast(s.process.limit, v, inFlight); }
  }

  // ---------- Runs ----------

  /** Every way a launched child and its owner can go on, move by move. */
  ghost predicate IsRun(limit: U64, states: seq<Supervised>, moves: seq<Move>)
    requires 0 < limit <= MAXIMUM_ITERATIONS
  {
    && |states| == |moves| + 1
    && (exists grace: U64, e: Option<int> :: states[0] == Spawn(limit, grace, e))
    && forall i :: 0 <= i < |moves| ==> Follows(states[i], moves[i], states[i + 1])
  }

  ghost predicate Follows(s: Supervised, m: Move, t: Supervised) {
    && |s.process.stream.buffer| < FRAME_BYTES && InRange(s.process.limit, s.trace.child)
    && Enabled(s, m) && t == Apply(s, m)
  }

  lemma SpawnIsSound(limit: U64, grace: U64, e: Option<int>)
    requires 0 < limit <= MAXIMUM_ITERATIONS
    ensures SupervisedInv(Spawn(limit, grace, e)) && Spawn(limit, grace, e).process.limit == limit
  {
    assert Watches(Spawn(limit, grace, e), []);
  }

  lemma ApplyKeepsLimit(s: Supervised, m: Move)
    requires |s.process.stream.buffer| < FRAME_BYTES && InRange(s.process.limit, s.trace.child)
    ensures Apply(s, m).process.limit == s.process.limit
  {
    hide Drain, Step;
  }

  lemma {:induction false} RunsAreSound(limit: U64, states: seq<Supervised>, moves: seq<Move>, k: nat)
    requires 0 < limit <= MAXIMUM_ITERATIONS && IsRun(limit, states, moves) && k < |states|
    ensures SupervisedInv(states[k]) && states[k].process.limit == limit
  {
    hide SupervisedInv, Apply, Enabled, Spawn;
    if k == 0 {
      var grace: U64, e: Option<int> :| states[0] == Spawn(limit, grace, e);
      SpawnIsSound(limit, grace, e);
    } else {
      RunsAreSound(limit, states, moves, k - 1);
      assert Follows(states[k - 1], moves[k - 1], states[k]);
      MoveKeeps(states[k - 1], moves[k - 1]);
      ApplyKeepsLimit(states[k - 1], moves[k - 1]);
    }
  }

  lemma {:induction false} FaultStays(limit: U64, v: View, frames: seq<Frame>)
    requires !ConsumeAll(limit, v, frames).malformed
    ensures !v.malformed
  {
    if v.malformed { MalformedStays(limit, v, frames); }
  }

  /**
   The stream of a child that is not killed and whose required frames arrive is never malformed:
   a fault is seen only at the end of the stream of a child that failed or was killed.
   */
  lemma OnlyFailureIsMalformed(limit: U64, states: seq<Supervised>, moves: seq<Move>, k: nat)
    requires 0 < limit <= MAXIMUM_ITERATIONS && IsRun(limit, states, moves) && k < |states|
    ensures states[k].process.stream.view.malformed <==>
            && states[k].process.stream.eof
            && (states[k].killed || states[k].trace.child == Exited(FAILURE_EXIT_CODE))
  {
    hide IsRun, ConsumeAll, Consume, EncodeAll;
    RunsAreSound(limit, states, moves, k);
    var s := states[k];
    var inFlight :| Watches(s, inFlight);
    if !s.process.stream.eof { FaultStays(limit, s.process.stream.view, inFlight); }
  }

  /**
   A terminal frame tells the truth as soon as it is seen: completed means exactly the limit and
   the exact sum; cancelled means strictly below it, the exact partial sum, and a stop asked for.
   */
  lemma TerminalFrameIsTrue(limit: U64, states: seq<Supervised>, moves: seq<Move>, k: nat)
    requires 0 < limit <= MAXIMUM_ITERATIONS && IsRun(limit, states, moves) && k < |states|
    ensures IsTrue(limit, states[k].process.stream.view)
  {
    hide IsRun, SupervisedInv, IsTrue;
    RunsAreSound(limit, states, moves, k);
    SoundIsTrue(states[k]);
  }

  /** At the end of the stream, the exit status of the child and the terminal frame say the same. */
  lemma ExitMatchesTerminal(limit: U64, states: seq<Supervised>, moves: seq<Move>, k: nat)
    requires 0 < limit <= MAXIMUM_ITERATIONS && IsRun(limit, states, moves) && k < |states|
    requires states[k].process.stream.eof && HasExited(states[k].process)
    ensures var status := states[k].process.reaping.exit.value;
      var v := states[k].process.stream.view;
      && (v.terminal == CompletedTerminal <==> status == ExitedWith(0))
      && (v.terminal == CancelledTerminal <==> status == ExitedWith(CANCELLED_EXIT_CODE))
      && (v.malformed <==> status == Signaled || status == ExitedWith(FAILURE_EXIT_CODE))
  {
    hide IsRun, SumTo;
    RunsAreSound(limit, states, moves, k);
    var inFlight :| Watches(states[k], inFlight);
  }
}
