/**
 The compute child. `Step` is one turn of its program: one frame written, or one control read, a
 batch of iterations and a progress frame. `Run` is the loop itself and refines the steps.
 */
module Workers {
  import opened Machine
  import opened Frames
  import opened Sums

  /** What the non-blocking control read gives; an interrupted read counts as `NothingYet`. */
  datatype ControlRead = Command(byte: Byte) | EndOfFile | NothingYet | ControlError

  datatype SendResult = Sent | Dropped | SendFailed

  /** What the environment answers in one turn. */
  datatype Input = Input(control: ControlRead, send: SendResult)

  datatype Child =
    | Starting
    | Running(completed: nat, dropped: nat)
    | Stopping(completed: nat, dropped: nat)
    | Exited(code: int)

  /** A child and the frames it has written so far. */
  datatype Trace = Trace(child: Child, frames: seq<Frame>)

  /** A frame that must be written: the child goes on only if it is. */
  function Required(t: Trace, f: Frame, send: SendResult, next: Child): Trace {
    if send == Sent then Trace(next, t.frames + [f]) else Trace(Exited(FAILURE_EXIT_CODE), t.frames)
  }

  function BatchEnd(completed: nat, limit: nat): nat {
    if completed + BATCH_ITERATIONS < limit then completed + BATCH_ITERATIONS else limit
  }

  /** One batch, and its progress frame, which may be dropped. */
  function Batch(limit: nat, t: Trace, send: SendResult): Trace
    requires t.child.Running? && t.child.dropped <= t.child.completed < limit <= MAXIMUM_ITERATIONS
  {
    var end := BatchEnd(t.child.completed, limit);
    SupportedSumsDoNotWrap(end);
    match send
    case Sent => Trace(Running(end, t.child.dropped),
                       t.frames + [Emit(PROGRESS, end, SumTo(end), t.child.dropped)])
    case Dropped => Trace(Running(end, t.child.dropped + 1), t.frames)
    case SendFailed => Trace(Exited(FAILURE_EXIT_CODE), t.frames)
  }

  predicate InRange(limit: nat, c: Child) {
    && limit <= MAXIMUM_ITERATIONS
    && (c.Running? ==> c.dropped <= c.completed <= limit)
    && (c.Stopping? ==> c.dropped <= c.completed < limit)
  }

  function Step(limit: nat, t: Trace, i: Input): (u: Trace)
    requires InRange(limit, t.child)
    ensures InRange(limit, u.child)
  {
    match t.child
    case Starting => Required(t, Emit(READY, 0, 0, 0), i.send, Running(0, 0))
    case Running(c, d) =>
      SupportedSumsDoNotWrap(c);
      if c == limit then Required(t, Emit(COMPLETED, c, SumTo(c), d), i.send, Exited(0))
      else (
        match i.control
        case Command(byte) =>
          if byte == STOP_COMMAND then
            Required(t, Emit(STOP_ACKNOWLEDGED, c, SumTo(c), d), i.send, Stopping(c, d))
          else Trace(Exited(FAILURE_EXIT_CODE), t.frames)
        case NothingYet => Batch(limit, t, i.send)
        case EndOfFile => Trace(Exited(FAILURE_EXIT_CODE), t.frames)
        case ControlError => Trace(Exited(FAILURE_EXIT_CODE), t.frames)
      )
    case Stopping(c, d) =>
      SupportedSumsDoNotWrap(c);
      Required(t, Emit(CANCELLED, c, SumTo(c), d), i.send, Exited(CANCELLED_EXIT_CODE))
    case Exited(_) => t
  }

  /** The child after its first `turns` turns. */
  function After(limit: nat, inputs: nat -> Input, turns: nat): (t: Trace)
    requires limit <= MAXIMUM_ITERATIONS
    ensures InRange(limit, t.child)
  {
    if turns == 0 then Trace(Starting, []) else Step(limit, After(limit, inputs, turns - 1), inputs(turns - 1))
  }

  // ---------- What a child writes ----------

  /** How many batches reach `completed`. */
  function Batches(completed: nat): nat {
    (completed + 4095) / 4096
  }

  /** A progress frame at position `j`: every batch before it was either reported or counted as dropped. */
  predicate IsProgress(limit: nat, f: Frame, j: nat) {
    && 0 < f.iterations <= limit
    && (f.iterations == limit || f.iterations % 4096 == 0)
    && f == Emit(PROGRESS, f.iterations, f.value, f.droppedProgress)
    && f.value == SumTo(f.iterations)
    && Batches(f.iterations) == j + f.droppedProgress
  }

  /** Ready, then progress, strictly increasing up to `completed`. */
  predicate IsBody(limit: nat, frames: seq<Frame>, completed: nat, dropped: nat) {
    && |frames| > 0 && frames[0] == Emit(READY, 0, 0, 0)
    && (forall j :: 0 < j < |frames| ==> IsProgress(limit, frames[j], j) && frames[j].iterations <= completed)
    && (forall j :: 0 < j < |frames| ==> frames[j - 1].iterations < frames[j].iterations)
    && completed <= limit && (completed == limit || completed % 4096 == 0)
    && Batches(completed) == |frames| - 1 + dropped
  }

  /** A body, and then one frame of the given kind with the exact sum at its end. */
  predicate EndsWith(limit: nat, frames: seq<Frame>, kind: U16) {
    && |frames| > 0
    && var last := frames[|frames| - 1];
    && last == Emit(kind, last.iterations, last.value, last.droppedProgress)
    && last.value == SumTo(last.iterations)
    && IsBody(limit, frames[..|frames| - 1], last.iterations, last.droppedProgress)
  }

  /** Cancelled repeats the acknowledgement's numbers, strictly below the limit. */
  predicate IsCancellation(limit: nat, frames: seq<Frame>) {
    && |frames| > 1
    && var last := frames[|frames| - 1];
    && last == Emit(CANCELLED, last.iterations, last.value, last.droppedProgress)
    && last.iterations < limit
    && frames[|frames| - 2] == Emit(STOP_ACKNOWLEDGED, last.iterations, last.value, last.droppedProgress)
    && EndsWith(limit, frames[..|frames| - 1], STOP_ACKNOWLEDGED)
  }

  /** What has been written in each state of the child. */
  predicate Conforms(limit: nat, t: Trace) {
    match t.child
    case Starting => t.frames == []
    case Running(c, d) => IsBody(limit, t.frames, c, d)
    case Stopping(c, d) =>
      && EndsWith(limit, t.frames, STOP_ACKNOWLEDGED)
      && t.frames[|t.frames| - 1].iterations == c && t.frames[|t.frames| - 1].droppedProgress == d
    case Exited(code) =>
      if code == 0 then EndsWith(limit, t.frames, COMPLETED) && t.frames[|t.frames| - 1].iterations == limit
      else if code == CANCELLED_EXIT_CODE then IsCancellation(limit, t.frames)
      else code == FAILURE_EXIT_CODE
  }

  lemma BatchConforms(limit: nat, t: Trace, send: SendResult)
    requires t.child.Running? && t.child.dropped <= t.child.completed < limit <= MAXIMUM_ITERATIONS
    requires Conforms(limit, t)
    ensures Conforms(limit, Batch(limit, t, send))
  {
    hide SumTo;
    var c := t.child.completed;
    var end := BatchEnd(c, limit);
    assert Batches(end) == Batches(c) + 1;
    assert end == limit || end % 4096 == 0;
    SupportedSumsDoNotWrap(end);
    if send == Sent {
      var f := Emit(PROGRESS, end, SumTo(end), t.child.dropped);
      assert IsProgress(limit, f, |t.frames|);
      assert t.frames[|t.frames| - 1].iterations <= c;
    }
  }

  lemma EndConforms(limit: nat, frames: seq<Frame>, f: Frame)
    requires f == Emit(f.kind, f.iterations, f.value, f.droppedProgress) && f.value == SumTo(f.iterations)
    requires IsBody(limit, frames, f.iterations, f.droppedProgress)
    ensures EndsWith(limit, frames + [f], f.kind)
  {
    hide IsBody, SumTo;
    assert (frames + [f])[..|frames|] == frames;
  }

  lemma CancellationConforms(limit: nat, frames: seq<Frame>, f: Frame)
    requires EndsWith(limit, frames, STOP_ACKNOWLEDGED)
    requires var last := frames[|frames| - 1];
      f == Emit(CANCELLED, last.iterations, last.value, last.droppedProgress) && last.iterations < limit
    ensures IsCancellation(limit, frames + [f])
  {
    hide IsBody, SumTo;
    assert (frames + [f])[..|frames|] == frames;
  }

  lemma StartConforms(limit: nat)
    ensures IsBody(limit, [Emit(READY, 0, 0, 0)], 0, 0)
  {
  }

  lemma StepConforms(limit: nat, t: Trace, i: Input)
    requires InRange(limit, t.child) && Conforms(limit, t)
    ensures Conforms(limit, Step(limit, t, i))
  {
    hide SumTo, Batch, IsBody, IsCancellation;
    StartConforms(limit);
    match t.child
    case Starting => assert t.frames + [Emit(READY, 0, 0, 0)] == [Emit(READY, 0, 0, 0)];
    case Running(c, d) =>
      SupportedSumsDoNotWrap(c);
      if c == limit { EndConforms(limit, t.frames, Emit(COMPLETED, c, SumTo(c), d)); }
      else if i.control == NothingYet { BatchConforms(limit, t, i.send); }
      else { EndConforms(limit, t.frames, Emit(STOP_ACKNOWLEDGED, c, SumTo(c), d)); }
    case Stopping(c, d) =>
      SupportedSumsDoNotWrap(c);
      CancellationConforms(limit, t.frames, Emit(CANCELLED, c, SumTo(c), d));
    case Exited(_) =>
  }

  /** Whatever stops, drops and failures the environment chooses, a child writes what `Conforms` says. */
  lemma {:induction false} TraceConforms(limit: nat, inputs: nat -> Input, turns: nat)
    requires limit <= MAXIMUM_ITERATIONS
    ensures Conforms(limit, After(limit, inputs, turns))
  {
    assert Conforms(limit, Trace(Starting, []));
    if turns == 0 {
    } else {
      TraceConforms(limit, inputs, turns - 1);
      StepConforms(limit, After(limit, inputs, turns - 1), inputs(turns - 1));
    }
  }

  // ---------- The loop ----------

  lemma TakeTurn(limit: nat, inputs: nat -> Input, turns: nat)
    requires limit <= MAXIMUM_ITERATIONS
    ensures After(limit, inputs, turns + 1) == Step(limit, After(limit, inputs, turns), inputs(turns))
    ensures Conforms(limit, After(limit, inputs, turns + 1))
  {
    hide Step, Conforms;
    TraceConforms(limit, inputs, turns + 1);
  }

  lemma BatchOutcome(limit: nat, t: Trace, send: SendResult)
    requires t.child.Running? && t.child.dropped <= t.child.completed < limit <= MAXIMUM_ITERATIONS
    ensures var (u, end) := (Batch(limit, t, send), BatchEnd(t.child.completed, limit));
      && SumTo(end) <= MAX_U64
      && (send == SendFailed ==> u == Trace(Exited(FAILURE_EXIT_CODE), t.frames))
      && (send == Dropped ==> u == Trace(Running(end, t.child.dropped + 1), t.frames))
      && (send == Sent ==>
            u == Trace(Running(end, t.child.dropped), t.frames + [Emit(PROGRESS, end, SumTo(end), t.child.dropped)]))
  {
    hide SumTo;
    SupportedSumsDoNotWrap(BatchEnd(t.child.completed, limit));
  }

  /** Whole batches summed one iteration at a time; the frames written are those of the steps. */
  method Run(limit: U64, inputs: nat -> Input) returns (exitCode: int, frames: seq<Frame>, ghost turns: nat)
    requires 0 < limit <= MAXIMUM_ITERATIONS
    ensures After(limit, inputs, turns) == Trace(Exited(exitCode), frames)
    ensures Conforms(limit, Trace(Exited(exitCode), frames))
  {
    assert After(limit, inputs, 0) == Trace(Starting, []) && SumTo(0) == 0;
    turns := 1;
    TakeTurn(limit, inputs, 0);
    exitCode, frames := SendRequired([], Emit(READY, 0, 0, 0), inputs(0).send, 0);
    if exitCode != 0 { return; }
    var completed: U64, sum: U64, dropped: U64 := 0, 0, 0;
    var turn := 1;
    while completed < limit
      invariant turn == turns
      invariant completed <= limit && sum == SumTo(completed) && dropped <= completed
      invariant After(limit, inputs, turns) == Trace(Running(completed, dropped), frames)
    {
      var input := inputs(turn);
      TakeTurn(limit, inputs, turns);
      turn, turns := turn + 1, turns + 1;
      if input.control.Command? {
        if input.control.byte != STOP_COMMAND { return FAILURE_EXIT_CODE, frames, turns; }
        exitCode, frames, turns := Stop(limit, inputs, turn, completed, sum, dropped, frames);
        return;
      }
      if input.control != NothingYet { return FAILURE_EXIT_CODE, frames, turns; }
      var start, end := completed, BatchEnd(completed, limit);
      sum := SumBatch(start, sum, end);
      completed := end;
      BatchOutcome(limit, Trace(Running(start, dropped), frames), input.send);
      if input.send == SendFailed { return FAILURE_EXIT_CODE, frames, turns; }
      if input.send == Dropped { dropped := dropped + 1; }
      else { frames := frames + [Emit(PROGRESS, completed, sum, dropped)]; }
    }
    TakeTurn(limit, inputs, turns);
    turns := turns + 1;
    exitCode, frames := SendRequired(frames, Emit(COMPLETED, completed, sum, dropped), inputs(turn).send, 0);
  }

  /** The answer to a stop command: acknowledged and cancelled, with the same numbers. */
  method Stop(limit: U64, inputs: nat -> Input, turn: nat, completed: U64, sum: U64, dropped: U64, written: seq<Frame>)
    returns (exitCode: int, frames: seq<Frame>, ghost turns: nat)
    requires dropped <= completed < limit <= MAXIMUM_ITERATIONS && sum == SumTo(completed) && turn > 0
    requires inputs(turn - 1).control == Command(STOP_COMMAND)
    requires After(limit, inputs, turn - 1) == Trace(Running(completed, dropped), written)
    ensures After(limit, inputs, turns) == Trace(Exited(exitCode), frames)
    ensures Conforms(limit, Trace(Exited(exitCode), frames))
  {
    hide Batch, Conforms, After, SumTo;
    TakeTurn(limit, inputs, turn - 1);
    turns := turn;
    exitCode, frames :=
      SendRequired(written, Emit(STOP_ACKNOWLEDGED, completed, sum, dropped), inputs(turn - 1).send, 0);
    if exitCode != 0 { return; }
    TakeTurn(limit, inputs, turn);
    turns := turn + 1;
    exitCode, frames :=
      SendRequired(frames, Emit(CANCELLED, completed, sum, dropped), inputs(turn).send, CANCELLED_EXIT_CODE);
  }

  /** The inner loop: one term after another, in 64-bit arithmetic that never wraps. */
  method SumBatch(start: U64, sumBefore: U64, end: U64) returns (sum: U64)
    requires start <= end <= MAXIMUM_ITERATIONS && sumBefore == SumTo(start)
    ensures sum == SumTo(end)
  {
    hide SumTo, Wrap;
    var completed := start;
    sum := sumBefore;
    while completed < end
      invariant start <= completed <= end && sum == SumTo(completed)
    {
      NextSum(completed);
      var value := completed % 1000;
      sum := Wrap(sum + value * value);
      completed := completed + 1;
    }
  }

  /** One more iteration, in 64-bit arithmetic. */
  lemma NextSum(n: nat)
    requires n < MAXIMUM_ITERATIONS
    ensures SumTo(n) <= MAX_U64 && Wrap(SumTo(n) + n % 1000 * (n % 1000)) == SumTo(n + 1)
  {
    hide ExpectedSum, Cubic;
    SupportedSumsDoNotWrap(n);
    SupportedSumsDoNotWrap(n + 1);
    assert Term(n) == n % 1000 * (n % 1000);
  }

  /** Writes a frame that must arrive; a frame that does not ends the child. */
  method SendRequired(written: seq<Frame>, f: Frame, send: SendResult, code: int)
    returns (exitCode: int, frames: seq<Frame>)
    ensures send == Sent ==> exitCode == code && frames == written + [f]
    ensures send != Sent ==> exitCode == FAILURE_EXIT_CODE && frames == written
  {
    if send == Sent { return code, written + [f]; }
    return FAILURE_EXIT_CODE, written;
  }
}
