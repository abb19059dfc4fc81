/**
 The parent's side of one compute child as functions on values: folding frames into what is
 known of the child, draining the event pipe in arbitrary chunks, stopping, reaping and closing.
 `ComputeProcess` (compute_process.dfy) is the class whose methods refine these functions.
 */
module ProcessSpec {
  import opened Machine
  import opened Frames
  import opened Sums

  const MAXIMUM_FRAMES_PER_POLL: nat := 128
  const EIO: int := 5

  datatype Terminal = NoTerminal | CompletedTerminal | CancelledTerminal

  /** What the frames have said. */
  datatype View = View(
    started: bool,
    malformed: bool,
    stopRequested: bool,
    stopAcknowledged: bool,
    stopIgnored: bool,
    progress: U64,
    last: U64,
    dropped: U64,
    terminal: Terminal,
    terminalIterations: U64,
    terminalValue: U64)

  const NOTHING_SEEN := View(false, false, false, false, false, 0, 0, 0, NoTerminal, 0, 0)

  /** The byte stream: what it has said, the bytes of an unfinished frame, and how it ended. */
  datatype Stream = Stream(view: View, buffer: seq<Byte>, eof: bool, ioError: int)

  datatype ExitStatus = ExitedWith(code: int) | Signaled

  datatype Reaping = Reaping(owned: bool, exit: Option<ExitStatus>, ownershipLost: bool)

  datatype Stopping = Stopping(
    requestedAt: Option<U64>,
    delivered: bool,
    error: int,
    terminationPending: bool,
    terminationAttempted: bool,
    terminationRequested: bool,
    terminationError: int)

  datatype Channels = Channels(controlOpen: bool, eventOpen: bool, closed: bool, cleanupUnknown: bool)

  datatype ProcessState = ProcessState(
    limit: U64,
    stopGrace: U64,
    launched: bool,
    launchError: int,
    stream: Stream,
    reaping: Reaping,
    stopping: Stopping,
    channels: Channels)

  function NewProcess(limit: U64, stopGrace: U64): ProcessState {
    ProcessState(limit, stopGrace, false, 0, Stream(NOTHING_SEEN, [], false, 0), Reaping(false, None, false),
                 Stopping(None, false, 0, false, false, false, 0), Channels(false, false, false, false))
  }

  // ---------- Frames ----------

  predicate IsKnownKind(kind: U16) {
    READY <= kind <= CANCELLED
  }

  /** What no frame may be, whatever its kind. */
  predicate IsOutOfPlace(limit: U64, v: View, f: Frame) {
    || f.magic != FRAME_MAGIC || f.version != FRAME_VERSION || !IsKnownKind(f.kind)
    || f.iterations > limit || f.iterations < v.last
    || f.droppedProgress > limit || f.droppedProgress < v.dropped
    || v.terminal != NoTerminal
  }

  /** What the kind of a frame demands of what was seen before it. */
  predicate IsUnexpected(limit: U64, v: View, f: Frame) {
    if f.kind == READY then v.started || f.iterations != 0 || f.value != 0 || f.droppedProgress != 0
    else if f.kind == PROGRESS then !v.started || v.stopAcknowledged || f.iterations <= v.last
    else if f.kind == STOP_ACKNOWLEDGED || f.kind == STOP_IGNORED then
      !v.started || !v.stopRequested || v.stopAcknowledged || v.stopIgnored || f.iterations < v.progress
    else if f.kind == COMPLETED then
      !v.started || v.stopAcknowledged || f.iterations != limit || f.iterations < v.progress
    else !v.started || !v.stopRequested || !v.stopAcknowledged || f.iterations < v.progress
  }

  function Recorded(v: View, f: Frame): View {
    if f.kind == READY then v.(started := true)
    else if f.kind == PROGRESS then v.(progress := f.iterations)
    else if f.kind == STOP_ACKNOWLEDGED then v.(stopAcknowledged := true)
    else if f.kind == STOP_IGNORED then v.(stopIgnored := true)
    else v.(terminal := if f.kind == COMPLETED then CompletedTerminal else CancelledTerminal,
            terminalIterations := f.iterations, terminalValue := f.value)
  }

  function Consume(limit: U64, v: View, f: Frame): View {
    if v.malformed then v
    else if IsOutOfPlace(limit, v, f) || IsUnexpected(limit, v, f) then v.(malformed := true)
    else Recorded(v, f).(last := f.iterations, dropped := f.droppedProgress)
  }

  /** Frames consumed one after another. */
  function ConsumeAll(limit: U64, v: View, frames: seq<Frame>): View
    decreases |frames|
  {
    if frames == [] then v else ConsumeAll(limit, Consume(limit, v, frames[0]), frames[1..])
  }

  // ---------- Bytes ----------

  /** What one read of the event pipe may do: take some of the bytes there, or fail. */
  datatype ReadChoice = Take(atMost: nat) | Interrupted | ReadFailed(errno: int)

  function RememberError(s: Stream, errno: int): Stream {
    if s.ioError != 0 then s else s.(ioError := if errno == 0 then EIO else errno)
  }

  function Deliver(limit: U64, s: Stream, chunk: seq<Byte>): (t: Stream)
    requires |s.buffer| + |chunk| <= FRAME_BYTES
    ensures |t.buffer| < FRAME_BYTES && t.eof == s.eof
  {
    var bytes := s.buffer + chunk;
    if |bytes| == FRAME_BYTES then s.(view := Consume(limit, s.view, Decode(bytes)), buffer := [])
    else s.(buffer := bytes)
  }

  /** The end of the stream: an unfinished frame or a missing terminal frame is a fault. */
  function AtEnd(s: Stream): Stream {
    s.(eof := true,
       view := if s.buffer != [] || s.view.terminal == NoTerminal then s.view.(malformed := true) else s.view)
  }

  /** A non-blocking read takes at least one byte where there is one, and no more than there is room for. */
  function TakeCount(atMost: nat, room: nat, available: nat): (n: nat)
    requires room > 0 && available > 0
    ensures 0 < n <= room && n <= available
  {
    var n := if atMost == 0 then 1 else atMost;
    var m := if n < room then n else room;
    if m < available then m else available
  }

  /** Reads until the pipe has nothing more, an error, or a full turn of frames; what is left in the pipe. */
  function Drain(limit: U64, s: Stream, pipe: seq<Byte>, writerClosed: bool, choices: nat -> ReadChoice,
                 k: nat, frames: nat): (Stream, seq<Byte>)
    requires |s.buffer| < FRAME_BYTES
    decreases |pipe|
  {
    if frames >= MAXIMUM_FRAMES_PER_POLL then (s, pipe)
    else
      match choices(k)
      case Interrupted => (s, pipe)
      case ReadFailed(e) => (RememberError(s, e), pipe)
      case Take(n) =>
        if pipe == [] then (if writerClosed then AtEnd(s) else s, pipe)
        else
          var m := TakeCount(n, FRAME_BYTES - |s.buffer|, |pipe|);
          var t := Deliver(limit, s, pipe[..m]);
          Drain(limit, t, pipe[m..], writerClosed, choices, k + 1, if t.buffer == [] then frames + 1 else frames)
  }

  // ---------- The process ----------

  datatype LaunchOutcome = NotSpawned(error: int, closeError: Option<int>) | Spawned(closeError: Option<int>)

  datatype WaitOutcome = Reaped(status: ExitStatus) | NotYet | NoSuchChild | WaitFailed(errno: int)

  function NoteCloseError(p: ProcessState, closeError: Option<int>): ProcessState {
    if closeError.None? then p
    else p.(stream := RememberError(p.stream, closeError.value),
            channels := p.channels.(cleanupUnknown := true))
  }

  /** EINVAL where a launch is refused without trying. */
  const EINVAL: int := 22

  function Launch(p: ProcessState, outcome: LaunchOutcome): (ProcessState, bool) {
    if p.launched then (p, true)
    else if p.stream.view.stopRequested || p.limit == 0 || p.limit > MAXIMUM_ITERATIONS then
      (p.(launchError := EINVAL), false)
    else
      var q := NoteCloseError(p, outcome.closeError);
      match outcome
      case NotSpawned(error, _) => (q.(launchError := error), false)
      case Spawned(_) =>
        (q.(launched := true, launchError := 0, reaping := q.reaping.(owned := true),
            channels := q.channels.(controlOpen := true, eventOpen := true)), true)
  }

  predicate HasExited(p: ProcessState) {
    p.reaping.exit.Some?
  }

  function RequestStop(p: ProcessState, now: U64, sendError: Option<int>): ProcessState {
    if p.stream.view.stopRequested then p
    else
      var s := p.stopping.(requestedAt := Some(now));
      var q := p.(stream := p.stream.(view := p.stream.view.(stopRequested := true)));
      if !p.reaping.owned || HasExited(p) || !p.channels.controlOpen then
        q.(stopping := s.(terminationPending := p.reaping.owned && !HasExited(p)))
      else if sendError.None? then q.(stopping := s.(delivered := true))
      else q.(stopping := s.(error := if sendError.value == 0 then EIO else sendError.value,
                             terminationPending := true))
  }

  function CollectExit(p: ProcessState, wait: WaitOutcome): ProcessState {
    if !p.reaping.owned || HasExited(p) then p
    else
      match wait
      case Reaped(status) => p.(reaping := Reaping(false, Some(status), p.reaping.ownershipLost))
      case NotYet => p
      case NoSuchChild => p.(reaping := Reaping(false, None, true))
      case WaitFailed(e) =>
        p.(stream := RememberError(p.stream, e), stopping := p.stopping.(terminationPending := true))
  }

  predicate GraceIsOver(p: ProcessState, now: U64) {
    || !p.stopping.delivered
    || (p.stopping.requestedAt.Some? && now >= p.stopping.requestedAt.value
        && now - p.stopping.requestedAt.value >= p.stopGrace)
  }

  predicate MustTerminate(p: ProcessState, now: U64) {
    || p.stream.view.malformed || p.stream.ioError != 0
    || (p.stream.view.stopRequested && !HasExited(p) && GraceIsOver(p, now))
  }

  function RequestTermination(p: ProcessState, killError: Option<int>): ProcessState {
    var s := p.stopping;
    if !s.terminationPending || s.terminationAttempted || !p.reaping.owned || HasExited(p)
       || p.reaping.ownershipLost then p
    else
      p.(stopping := s.(terminationAttempted := true, terminationRequested := true,
                        terminationError := if killError.None? then s.terminationError
                                            else if killError.value == 0 then EIO else killError.value))
  }

  /** What the environment answers during one poll. */
  datatype PollInput = PollInput(writerClosed: bool, choices: nat -> ReadChoice, wait: WaitOutcome,
                                 killError: Option<int>)

  function DrainEvents(p: ProcessState, pipe: seq<Byte>, i: PollInput): (ProcessState, seq<Byte>)
    requires |p.stream.buffer| < FRAME_BYTES
  {
    if !p.channels.eventOpen || p.stream.eof then (p, pipe)
    else
      var (s, rest) := Drain(p.limit, p.stream, pipe, i.writerClosed, i.choices, 0, 0);
      (p.(stream := s), rest)
  }

  /** After draining: reap, decide whether to terminate, and do so at most once. */
  function Supervise(p: ProcessState, now: U64, i: PollInput): ProcessState {
    var q := CollectExit(p, i.wait);
    var pending := q.stopping.terminationPending || MustTerminate(q, now);
    RequestTermination(q.(stopping := q.stopping.(terminationPending := pending)), i.killError)
  }

  /**
   Supervising attempts termination once, of a child still there: for a fault, an open request, or an overdue
   stop.
   */
  lemma SupervisionIsExact(p: ProcessState, now: U64, i: PollInput)
    ensures var q, s := Supervise(p, now, i), p.stopping;
      q.stopping.terminationAttempted <==>
      || s.terminationAttempted
      || (&& p.reaping.owned && p.reaping.exit.None? && !p.reaping.ownershipLost
          && (i.wait.NotYet? || i.wait.WaitFailed?)
          && (|| q.stream.view.malformed || q.stream.ioError != 0 || s.terminationPending
              || (q.stream.view.stopRequested
                  && (!s.delivered || (s.requestedAt.Some? && s.requestedAt.value + p.stopGrace <= now)))))
  {
  }

  /** The process after a poll, and the bytes left in the pipe. */
  function Poll(p: ProcessState, now: U64, pipe: seq<Byte>, i: PollInput): (ProcessState, seq<Byte>)
    requires |p.stream.buffer| < FRAME_BYTES
  {
    if !p.launched || p.reaping.ownershipLost || p.channels.closed then (p, pipe)
    else
      var (q, rest) := DrainEvents(p, pipe, i);
      (Supervise(q, now, i), rest)
  }

  function CloseOne(p: ProcessState, open: bool, error: Option<int>): ProcessState {
    if !open then p else NoteCloseError(p, error)
  }

  predicate Closes(open: bool, error: Option<int>) {
    !open || error.None?
  }

  function CloseChannels(p: ProcessState, controlError: Option<int>, eventError: Option<int>): (ProcessState, bool) {
    if p.channels.closed then (p, true)
    else if !HasExited(p) || !p.stream.eof || p.reaping.ownershipLost || p.channels.cleanupUnknown then (p, false)
    else
      var c := p.channels;
      var q := CloseOne(CloseOne(p, c.controlOpen, controlError), c.eventOpen, eventError);
      var closed := Closes(c.controlOpen, controlError) && Closes(c.eventOpen, eventError);
      (q.(channels := q.channels.(controlOpen := false, eventOpen := false, closed := closed)), closed)
  }
}
