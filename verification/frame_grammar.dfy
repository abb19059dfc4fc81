/**
 Which frames the owner of a child lets pass, as a grammar over the whole stream: what it has seen of them is
 never kept here, so the running checks of `ProcessSpec` are compared with what the protocol allows.
 */
module FrameGrammar {
  import opened Machine
  import opened Frames
  import opened ProcessSpec
  import opened Supervision

  predicate IsTerminal(f: Frame) {
    f.kind == COMPLETED || f.kind == CANCELLED
  }

  /** A frame of this protocol, within the limit. */
  predicate IsInForm(limit: U64, f: Frame) {
    f.magic == 0x52484350 && f.version == 1 && 1 <= f.kind <= 6 && f.iterations <= limit && f.droppedProgress <= limit
  }

  /** Some frame before this one acknowledges the stop. */
  predicate IsAcknowledged(frames: seq<Frame>, n: nat)
    requires n <= |frames|
  {
    exists a :: 0 <= a < n && frames[a].kind == STOP_ACKNOWLEDGED
  }

  predicate IsIgnored(frames: seq<Frame>, n: nat)
    requires n <= |frames|
  {
    exists a :: 0 <= a < n && frames[a].kind == STOP_IGNORED
  }

  /**
   What may stand at a place in the stream: ready first and only first; then counts that never fall; progress that
   grows, until a stop is acknowledged; one answer to a stop, if one was asked for; and at the end completed, at
   the limit
   and unacknowledged, or cancelled, acknowledged.
   */
  predicate FitsAt(limit: U64, asked: bool, frames: seq<Frame>, k: nat)
    requires k < |frames|
  {
    var f := frames[k];
    && IsInForm(limit, f)
    && (f.kind == READY <==> k == 0)
    && (k == 0 ==> f.iterations == 0 && f.value == 0 && f.droppedProgress == 0)
    && (k > 0 ==>
          && !IsTerminal(frames[k - 1])
          && frames[k - 1].iterations <= f.iterations && frames[k - 1].droppedProgress <= f.droppedProgress)
    && (f.kind == PROGRESS && k > 0 ==> !IsAcknowledged(frames, k) && frames[k - 1].iterations < f.iterations)
    && (f.kind == STOP_ACKNOWLEDGED || f.kind == STOP_IGNORED ==>
          asked && !IsAcknowledged(frames, k) && !IsIgnored(frames, k))
    && (f.kind == COMPLETED ==> !IsAcknowledged(frames, k) && f.iterations == limit)
    && (f.kind == CANCELLED ==> asked && IsAcknowledged(frames, k))
  }

  predicate IsLegal(limit: U64, asked: bool, frames: seq<Frame>) {
    forall k :: 0 <= k < |frames| ==> FitsAt(limit, asked, frames, k)
  }

  /** What has been seen of frames that are legal. */
  ghost predicate Shows(v: View, asked: bool, frames: seq<Frame>) {
    && !v.malformed && v.stopRequested == asked
    && (v.started <==> frames != [])
    && v.last == (if frames == [] then 0 else frames[|frames| - 1].iterations)
    && v.dropped == (if frames == [] then 0 else frames[|frames| - 1].droppedProgress)
    && v.progress <= v.last
    && (v.stopAcknowledged <==> IsAcknowledged(frames, |frames|))
    && (v.stopIgnored <==> IsIgnored(frames, |frames|))
    && ShowsEnd(v, frames)
  }

  predicate ShowsEnd(v: View, frames: seq<Frame>) {
    if frames == [] || !IsTerminal(frames[|frames| - 1]) then v.terminal == NoTerminal
    else
      var f := frames[|frames| - 1];
      && v.terminal == (if f.kind == COMPLETED then CompletedTerminal else CancelledTerminal)
      && v.terminalIterations == f.iterations && v.terminalValue == f.value
  }

  lemma AnswersAppend(frames: seq<Frame>, f: Frame)
    ensures var more := frames + [f];
      && (IsAcknowledged(more, |more|) <==> IsAcknowledged(frames, |frames|) || f.kind == STOP_ACKNOWLEDGED)
      && (IsIgnored(more, |more|) <==> IsIgnored(frames, |frames|) || f.kind == STOP_IGNORED)
    ensures forall k :: 0 <= k <= |frames| ==>
      && (IsAcknowledged(frames + [f], k) <==> IsAcknowledged(frames, k))
      && (IsIgnored(frames + [f], k) <==> IsIgnored(frames, k))
  {
    var more := frames + [f];
    assert more[|frames|] == f;
    forall k | 0 <= k <= |frames|
      ensures IsAcknowledged(more, k) <==> IsAcknowledged(frames, k)
      ensures IsIgnored(more, k) <==> IsIgnored(frames, k)
    {
      assert forall a :: 0 <= a < k ==> more[a] == frames[a];
    }
    if IsAcknowledged(frames, |frames|) {
      var a :| 0 <= a < |frames| && frames[a].kind == STOP_ACKNOWLEDGED;
      assert more[a].kind == STOP_ACKNOWLEDGED;
    }
    if IsIgnored(frames, |frames|) {
      var a :| 0 <= a < |frames| && frames[a].kind == STOP_IGNORED;
      assert more[a].kind == STOP_IGNORED;
    }
  }

  lemma LegalAppends(limit: U64, asked: bool, frames: seq<Frame>, f: Frame)
    ensures IsLegal(limit, asked, frames + [f]) <==>
            IsLegal(limit, asked, frames) && FitsAt(limit, asked, frames + [f], |frames|)
  {
    hide IsAcknowledged, IsIgnored, IsInForm;
    AnswersAppend(frames, f);
    var more := frames + [f];
    forall k | 0 <= k < |frames| ensures FitsAt(limit, asked, more, k) <==> FitsAt(limit, asked, frames, k) {
    }
  }

  /** One frame more passes if and only if it fits, and what has been seen then shows it. */
  lemma FrameIsJudged(limit: U64, asked: bool, v: View, frames: seq<Frame>, f: Frame)
    requires Shows(v, asked, frames) && IsLegal(limit, asked, frames)
    ensures if FitsAt(limit, asked, frames + [f], |frames|) then Shows(Consume(limit, v, f), asked, frames + [f])
            else Consume(limit, v, f).malformed
  {
    hide IsAcknowledged, IsIgnored, IsLegal;
    AnswersAppend(frames, f);
  }

  /** The running checks let a stream pass if and only if all of it is legal; they then show what it says. */
  lemma {:induction false} StreamIsJudged(limit: U64, asked: bool, frames: seq<Frame>)
    ensures var v := ConsumeAll(limit, NOTHING_SEEN.(stopRequested := asked), frames);
      && (v.malformed <==> !IsLegal(limit, asked, frames))
      && (!v.malformed ==> Shows(v, asked, frames))
    decreases |frames|
  {
    hide Consume, FitsAt, IsLegal, Shows;
    if frames == [] {
      NothingIsLegal(limit, asked);
    } else {
      var before, f := frames[..|frames| - 1], frames[|frames| - 1];
      assert frames == before + [f];
      StreamIsJudged(limit, asked, before);
      var start := NOTHING_SEEN.(stopRequested := asked);
      ConsumeAllAppends(limit, start, before, f);
      LegalAppends(limit, asked, before, f);
      var v := ConsumeAll(limit, start, before);
      if v.malformed { MalformedStays(limit, v, [f]); ConsumesOne(limit, v, f); }
      else {
        FrameIsJudged(limit, asked, v, before, f);
        ShownIsSound(Consume(limit, v, f), asked, frames);
      }
    }
  }

  lemma NothingIsLegal(limit: U64, asked: bool)
    ensures IsLegal(limit, asked, []) && Shows(NOTHING_SEEN.(stopRequested := asked), asked, [])
  {
  }

  lemma ConsumesOne(limit: U64, v: View, f: Frame)
    ensures ConsumeAll(limit, v, [f]) == Consume(limit, v, f)
  {
    hide Consume;
    assert ConsumeAll(limit, v, [f]) == ConsumeAll(limit, Consume(limit, v, f), []);
  }

  lemma ShownIsSound(v: View, asked: bool, frames: seq<Frame>)
    ensures Shows(v, asked, frames) ==> !v.malformed
  {
  }

  // ---------- Bytes ----------

  /** The whole frames in some bytes. */
  function FramesOf(bytes: seq<Byte>): seq<Frame>
    decreases |bytes|
  {
    if |bytes| < FRAME_BYTES then [] else [Decode(bytes[..FRAME_BYTES])] + FramesOf(bytes[FRAME_BYTES..])
  }

  /** The bytes after them. */
  function TailOf(bytes: seq<Byte>): seq<Byte>
    decreases |bytes|
  {
    if |bytes| < FRAME_BYTES then bytes else TailOf(bytes[FRAME_BYTES..])
  }

  lemma {:induction false} BytesSplit(bytes: seq<Byte>)
    ensures EncodeAll(FramesOf(bytes)) + TailOf(bytes) == bytes && |TailOf(bytes)| < FRAME_BYTES
    decreases |bytes|
  {
    hide Encode, Decode;
    if |bytes| < FRAME_BYTES {
      assert [] + bytes == bytes;
    } else {
      BytesSplit(bytes[FRAME_BYTES..]);
      EncodeDecode(bytes[..FRAME_BYTES]);
      var frames := FramesOf(bytes);
      assert frames[1..] == FramesOf(bytes[FRAME_BYTES..]);
      assert bytes == bytes[..FRAME_BYTES] + bytes[FRAME_BYTES..];
    }
  }

  /** Legal to the end, with nothing cut off. */
  predicate IsComplete(limit: U64, asked: bool, bytes: seq<Byte>) {
    var frames := FramesOf(bytes);
    && TailOf(bytes) == [] && frames != [] && IsLegal(limit, asked, frames) && IsTerminal(frames[|frames| - 1])
  }

  /**
   Any bytes whatever, read to their end in reads of any size, are found malformed if and only if they are not complete;
   of complete ones the last frame is believed.
   */
  lemma BytesAreJudged(limit: U64, asked: bool, bytes: seq<Byte>, choices: nat -> ReadChoice)
    requires Drain(limit, Stream(NOTHING_SEEN.(stopRequested := asked), [], false, 0), bytes, true, choices, 0, 0).0.eof
    ensures var v :=
        Drain(limit, Stream(NOTHING_SEEN.(stopRequested := asked), [], false, 0), bytes, true, choices, 0, 0).0.view;
      && (v.malformed <==> !IsComplete(limit, asked, bytes))
      && (!v.malformed ==>
            && FramesOf(bytes) != []
            && var f := FramesOf(bytes)[|FramesOf(bytes)| - 1];
               && v.terminal == (if f.kind == COMPLETED then CompletedTerminal else CancelledTerminal)
               && v.terminalIterations == f.iterations && v.terminalValue == f.value)
  {
    hide Drain, ConsumeAll, IsLegal, FramesOf, TailOf, EncodeAll;
    var s := Stream(NOTHING_SEEN.(stopRequested := asked), [], false, 0);
    var frames, tail := FramesOf(bytes), TailOf(bytes);
    BytesSplit(bytes);
    assert s.buffer + bytes == bytes;
    var _ := DrainKeeps(limit, s, bytes, true, choices, 0, 0, frames, tail);
    StreamIsJudged(limit, asked, frames);
    MalformedHasNoEnd(limit, asked, frames);
  }

  lemma MalformedHasNoEnd(limit: U64, asked: bool, frames: seq<Frame>)
    ensures var v := ConsumeAll(limit, NOTHING_SEEN.(stopRequested := asked), frames);
      !v.malformed ==> ShowsEnd(v, frames)
  {
    hide ConsumeAll, IsLegal, ShowsEnd, IsAcknowledged, IsIgnored;
    StreamIsJudged(limit, asked, frames);
  }
}
