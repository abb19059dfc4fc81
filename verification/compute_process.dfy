/** The owner of one compute child: fields updated in place, refining ProcessSpec call by call. */
module ComputeProcesses {
  import opened Machine
  import opened Frames
  import opened Sums
  import opened ProcessSpec

  class ComputeProcess {
    const limit: U64
    const stopGrace: U64
    var view: View
    const frameBuffer: array<Byte>
    var buffered: nat
    var eof: bool
    var ioError: int
    var launched: bool
    var launchError: int
    var owned: bool
    var exit: Option<ExitStatus>
    var ownershipLost: bool
    var stopping: Stopping
    var controlOpen: bool
    var eventOpen: bool
    var channelsClosed: bool
    var cleanupUnknown: bool

    /** The buffer holds one frame at most, and a whole frame is consumed at once. */
    ghost predicate Valid()
      reads this
    {
      frameBuffer.Length == FRAME_BYTES && buffered < FRAME_BYTES
    }

    ghost function StreamState(): Stream
      reads this, frameBuffer
      requires Valid()
    {
      Stream(view, frameBuffer[..buffered], eof, ioError)
    }

    ghost function State(): ProcessState
      reads this, frameBuffer
      requires Valid()
    {
      ProcessState(limit, stopGrace, launched, launchError, StreamState(), Reaping(owned, exit, ownershipLost),
                   stopping, Channels(controlOpen, eventOpen, channelsClosed, cleanupUnknown))
    }

    constructor (limit: U64, stopGrace: U64)
      ensures Valid() && fresh(frameBuffer)
      ensures State() == NewProcess(limit, stopGrace)
    {
      this.limit, this.stopGrace := limit, stopGrace;
      view, frameBuffer, buffered, eof, ioError := NOTHING_SEEN, new Byte[FRAME_BYTES](_ => 0), 0, false, 0;
      launched, launchError := false, 0;
      owned, exit, ownershipLost := false, None, false;
      stopping := Stopping(None, false, 0, false, false, false, 0);
      controlOpen, eventOpen, channelsClosed, cleanupUnknown := false, false, false, false;
    }

    method RememberIoError(errno: int)
      requires Valid()
      modifies `ioError
      ensures StreamState() == RememberError(old(StreamState()), errno)
    {
      if ioError == 0 {
        ioError := if errno == 0 then EIO else errno;
      }
    }

    method NoteClose(closeError: Option<int>)
      requires Valid()
      modifies `ioError, `cleanupUnknown
      ensures State() == NoteCloseError(old(State()), closeError)
    {
      if closeError.Some? {
        RememberIoError(closeError.value);
        cleanupUnknown := true;
      }
    }

    method Launch(outcome: LaunchOutcome) returns (ok: bool)
      requires Valid()
      modifies this
      ensures Valid() && (State(), ok) == ProcessSpec.Launch(old(State()), outcome)
      ensures ok == launched
      ensures ok <==>
              old(launched) || (!old(view).stopRequested && 0 < limit <= MAXIMUM_ITERATIONS && outcome.Spawned?)
    {
      if launched { return true; }
      if view.stopRequested || limit == 0 || limit > MAXIMUM_ITERATIONS {
        launchError := EINVAL;
        return false;
      }
      NoteClose(outcome.closeError);
      if outcome.NotSpawned? {
        launchError := outcome.error;
        return false;
      }
      launched, launchError, owned, controlOpen, eventOpen := true, 0, true, true, true;
      return true;
    }

    method RequestStop(now: U64, sendError: Option<int>)
      requires Valid()
      modifies `view, `stopping
      ensures State() == ProcessSpec.RequestStop(old(State()), now, sendError)
      ensures view.stopRequested
    {
      if view.stopRequested { return; }
      view := view.(stopRequested := true);
      stopping := stopping.(requestedAt := Some(now));
      if !owned || exit.Some? || !controlOpen {
        stopping := stopping.(terminationPending := owned && exit.None?);
        return;
      }
      if sendError.None? {
        stopping := stopping.(delivered := true);
        return;
      }
      stopping := stopping.(error := if sendError.value == 0 then EIO else sendError.value, terminationPending := true);
    }

    /** One frame: refused where it cannot follow what was seen, recorded otherwise. */
    method Consume(frame: Frame)
      modifies `view
      ensures view == ProcessSpec.Consume(limit, old(view), frame)
    {
      if view.malformed { return; }
      if frame.magic != FRAME_MAGIC || frame.version != FRAME_VERSION || !IsKnownKind(frame.kind)
         || frame.iterations > limit || frame.iterations < view.last
         || frame.droppedProgress > limit || frame.droppedProgress < view.dropped
         || view.terminal != NoTerminal {
        view := view.(malformed := true);
        return;
      }
      if IsUnexpected(limit, view, frame) {
        view := view.(malformed := true);
        return;
      }
      if frame.kind == READY {
        view := view.(started := true);
      } else if frame.kind == PROGRESS {
        view := view.(progress := frame.iterations);
      } else if frame.kind == STOP_ACKNOWLEDGED {
        view := view.(stopAcknowledged := true);
      } else if frame.kind == STOP_IGNORED {
        view := view.(stopIgnored := true);
      } else {
        view := view.(terminal := if frame.kind == COMPLETED then CompletedTerminal else CancelledTerminal);
        view := view.(terminalIterations := frame.iterations, terminalValue := frame.value);
      }
      view := view.(last := frame.iterations, dropped := frame.droppedProgress);
    }

    /** The bytes of one read, put behind those already there; a full buffer is a frame. */
    method Append(chunk: seq<Byte>)
      requires Valid() && buffered + |chunk| <= FRAME_BYTES
      modifies `buffered, `view, frameBuffer
      ensures Valid() && StreamState() == Deliver(limit, old(StreamState()), chunk)
    {
      hide ProcessSpec.Consume, Decode;
      for i := 0 to |chunk|
        invariant frameBuffer[..buffered + i] == old(frameBuffer[..buffered]) + chunk[..i]
        modifies frameBuffer
      {
        frameBuffer[buffered + i] := chunk[i];
      }
      assert chunk[..|chunk|] == chunk;
      buffered := buffered + |chunk|;
      if buffered == FRAME_BYTES {
        assert frameBuffer[..] == frameBuffer[..buffered];
        var frame := Decode(frameBuffer[..]);
        buffered := 0;
        Consume(frame);
      }
    }

    /** Reads until nothing more is there, an error, or 128 frames. */
    method DrainEvents(pipe: seq<Byte>, i: PollInput) returns (rest: seq<Byte>)
      requires Valid()
      modifies `buffered, `view, `eof, `ioError, frameBuffer
      ensures Valid()
      ensures State() == ProcessSpec.DrainEvents(old(State()), pipe, i).0
      ensures rest == ProcessSpec.DrainEvents(old(State()), pipe, i).1
    {
      hide Deliver, NoteCloseError;
      rest := pipe;
      if !eventOpen || eof { return; }
      var frames, k := 0, 0;
      while frames < MAXIMUM_FRAMES_PER_POLL
        invariant Valid() && !eof && ioError == old(ioError)
        invariant Drain(limit, StreamState(), rest, i.writerClosed, i.choices, k, frames)
               == Drain(limit, old(StreamState()), pipe, i.writerClosed, i.choices, 0, 0)
        decreases |rest|
      {
        var choice := i.choices(k);
        if choice.Interrupted? { return; }
        if choice.ReadFailed? {
          RememberIoError(choice.errno);
          return;
        }
        if rest == [] {
          if i.writerClosed {
            eof := true;
            if buffered != 0 || view.terminal == NoTerminal {
              view := view.(malformed := true);
            }
          }
          return;
        }
        var count := TakeCount(choice.atMost, FRAME_BYTES - buffered, |rest|);
        Append(rest[..count]);
        rest, k := rest[count..], k + 1;
        if buffered == 0 { frames := frames + 1; }
      }
    }

    method CollectExit(wait: WaitOutcome)
      requires Valid()
      modifies `owned, `exit, `ownershipLost, `ioError, `stopping
      ensures State() == ProcessSpec.CollectExit(old(State()), wait)
    {
      if !owned || exit.Some? { return; }
      match wait
      case Reaped(status) => owned, exit := false, Some(status);
      case NotYet =>
      case NoSuchChild => owned, ownershipLost := false, true;
      case WaitFailed(errno) =>
        RememberIoError(errno);
        stopping := stopping.(terminationPending := true);
    }

    method RequestTerminationOnce(killError: Option<int>)
      requires Valid()
      modifies `stopping
      ensures State() == RequestTermination(old(State()), killError)
    {
      if !stopping.terminationPending || stopping.terminationAttempted || !owned || exit.Some? || ownershipLost {
        return;
      }
      stopping := stopping.(terminationAttempted := true, terminationRequested := true);
      if killError.Some? {
        stopping := stopping.(terminationError := if killError.value == 0 then EIO else killError.value);
      }
    }

    /** What follows draining in a poll. */
    method Supervise(now: U64, i: PollInput)
      requires Valid()
      modifies `owned, `exit, `ownershipLost, `ioError, `stopping
      ensures State() == ProcessSpec.Supervise(old(State()), now, i)
    {
      hide ProcessSpec.CollectExit, RequestTermination;
      CollectExit(i.wait);
      if view.malformed || ioError != 0 {
        stopping := stopping.(terminationPending := true);
      }
      if view.stopRequested && exit.None? {
        if !stopping.delivered {
          stopping := stopping.(terminationPending := true);
        } else if stopping.requestedAt.Some? && now >= stopping.requestedAt.value
                  && now - stopping.requestedAt.value >= stopGrace {
          stopping := stopping.(terminationPending := true);
        }
      }
      RequestTerminationOnce(i.killError);
    }

    method Poll(now: U64, pipe: seq<Byte>, i: PollInput) returns (rest: seq<Byte>)
      requires Valid()
      modifies this, frameBuffer
      ensures Valid()
      ensures State() == ProcessSpec.Poll(old(State()), now, pipe, i).0
      ensures rest == ProcessSpec.Poll(old(State()), now, pipe, i).1
      ensures stopping.terminationAttempted <==>
              || old(stopping).terminationAttempted
              || (&& old(launched) && !old(channelsClosed) && !old(ownershipLost) && old(owned) && old(exit).None?
                  && (i.wait.NotYet? || i.wait.WaitFailed?)
                  && (|| view.malformed || ioError != 0 || old(stopping).terminationPending
                      || (view.stopRequested
                          && (!old(stopping).delivered
                              || (old(stopping).requestedAt.Some?
                                  && old(stopping).requestedAt.value + stopGrace <= now)))))
    {
      hide ProcessSpec.DrainEvents, ProcessSpec.Supervise;
      if !launched || ownershipLost || channelsClosed { return pipe; }
      rest := DrainEvents(pipe, i);
      SupervisionIsExact(State(), now, i);
      Supervise(now, i);
    }

    /** One descriptor, closed at most once; a failed close leaves its cleanup unknown. */
    method CloseOnce(open: bool, closeError: Option<int>) returns (closed: bool)
      requires Valid()
      modifies `ioError, `cleanupUnknown
      ensures State() == CloseOne(old(State()), open, closeError)
      ensures closed == Closes(open, closeError)
    {
      if !open { return true; }
      NoteClose(closeError);
      return closeError.None?;
    }

    method CloseChannels(controlError: Option<int>, eventError: Option<int>) returns (ok: bool)
      requires Valid()
      modifies this
      ensures Valid()
      ensures State() == ProcessSpec.CloseChannels(old(State()), controlError, eventError).0
      ensures ok == ProcessSpec.CloseChannels(old(State()), controlError, eventError).1
      ensures ok && !old(channelsClosed) ==> exit.Some? && eof && !ownershipLost
      ensures ok ==> channelsClosed
      ensures ok <==>
              || old(channelsClosed)
              || (&& exit.Some? && eof && !ownershipLost && !old(cleanupUnknown)
                  && (old(controlOpen) ==> controlError.None?) && (old(eventOpen) ==> eventError.None?))
    {
      hide NoteCloseError;
      if channelsClosed { return true; }
      if exit.None? || !eof || ownershipLost || cleanupUnknown { return false; }
      var controlClosed := CloseOnce(controlOpen, controlError);
      var eventClosed := CloseOnce(eventOpen, eventError);
      controlOpen, eventOpen := false, false;
      channelsClosed := controlClosed && eventClosed;
      return channelsClosed;
    }
  }
}
