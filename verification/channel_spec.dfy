/**
 The bounded framed transport as functions on values: a length, the message's text and its payload, queued
 into one bounded buffer and taken out of another, whatever pieces the bytes travel in. How a message is
 written as text is left to a `Coding`. `Channel` (channel.dfy) refines these functions.
 */
module ChannelSpec {
  import opened Machine
  import opened Frames

  const MAX_FRAME: nat := 65536
  const MAX_BUFFER: nat := 2 * (MAX_FRAME + 4)
  const MAX_PAYLOAD: nat := 640 * 480 * 3
  const TURN: nat := 16

  /** A message and the payload that goes with it. */
  datatype Item<M> = Item(message: M, payload: seq<Byte>)

  /** How messages are written, with the size of their payload, and read back; reading may fail. */
  datatype Coding<!M> = Coding(write: (M, nat) -> seq<Byte>, read: seq<Byte> -> Option<(M, int)>)

  function Text<M>(c: Coding<M>, i: Item<M>): seq<Byte> {
    c.write(i.message, |i.payload|)
  }

  function ReadText<M>(c: Coding<M>, text: seq<Byte>): Option<(M, int)> {
    c.read(text)
  }

  /** What is written is read back, and is never nothing. */
  ghost predicate IsFaithful<M(!new)>(c: Coding<M>) {
    forall i: Item<M> :: Text(c, i) != [] && ReadText(c, Text(c, i)) == Some((i.message, |i.payload|))
  }

  function PayloadLimit(binary: bool): nat {
    if binary then MAX_PAYLOAD else 0
  }

  function Limit(binary: bool): nat {
    MAX_BUFFER + PayloadLimit(binary)
  }

  /** A length in network byte order. */
  function Big(n: nat): (b: seq<Byte>)
    ensures |b| == 4
  {
    var l := Little(n, 4);
    [l[3], l[2], l[1], l[0]]
  }

  function FromBig(b: seq<Byte>): nat
    requires |b| == 4
  {
    Value([b[3], b[2], b[1], b[0]])
  }

  lemma BigRoundTrip(n: nat)
    requires n < 0x1_0000_0000
    ensures FromBig(Big(n)) == n
  {
    Ranges();
    ValueOfLittle(n, 4);
    var l, b := Little(n, 4), Big(n);
    assert [b[3], b[2], b[1], b[0]] == l;
  }

  function FrameOf<M>(c: Coding<M>, i: Item<M>): (f: seq<Byte>)
    ensures |f| == 4 + |Text(c, i)| + |i.payload|
  {
    Big(|Text(c, i)|) + Text(c, i) + i.payload
  }

  /** What a channel may carry at all. */
  predicate MayCarry<M>(c: Coding<M>, binary: bool, i: Item<M>) {
    |i.payload| <= PayloadLimit(binary) && |Text(c, i)| <= MAX_FRAME
  }

  /** The outgoing buffer after queuing, and whether there was room. */
  function Queued<M>(c: Coding<M>, binary: bool, outgoing: seq<Byte>, i: Item<M>): (seq<Byte>, bool) {
    if MayCarry(c, binary, i) && |outgoing| + |FrameOf(c, i)| <= Limit(binary) then (outgoing + FrameOf(c, i), true)
    else (outgoing, false)
  }

  // ---------- Taking frames out ----------

  datatype Taken<M> = Whole(item: Item<M>, size: nat) | Partial | Malformed

  /** The frame at the head of a buffer, if it is there and is one. */
  function TakeOne<M>(c: Coding<M>, binary: bool, incoming: seq<Byte>): (t: Taken<M>)
    ensures t.Whole? ==> 0 < t.size <= |incoming|
  {
    if |incoming| < 4 then Partial
    else
      var size := FromBig(incoming[..4]);
      if size == 0 || size > MAX_FRAME then Malformed
      else if |incoming| < size + 4 then Partial
      else
        var read := ReadText(c, incoming[4..size + 4]);
        if read.None? || read.value.1 < 0 || read.value.1 > PayloadLimit(binary) then Malformed
        else if |incoming| < size + 4 + read.value.1 then Partial
        else Whole(Item(read.value.0, incoming[size + 4..size + 4 + read.value.1]), size + 4 + read.value.1)
  }

  datatype Turn<M> = Turn(items: seq<Item<M>>, rest: seq<Byte>, valid: bool)

  /** At most `n` frames taken out of a buffer one after another. */
  function TakeSome<M>(c: Coding<M>, binary: bool, incoming: seq<Byte>, n: nat): Turn<M> {
    if n == 0 then Turn([], incoming, true)
    else
      match TakeOne(c, binary, incoming)
      case Partial => Turn([], incoming, true)
      case Malformed => Turn([], incoming, false)
      case Whole(item, size) =>
        var later := TakeSome(c, binary, incoming[size..], n - 1);
        Turn([item] + later.items, later.rest, later.valid)
  }

  // ---------- One turn of a channel ----------

  datatype ChannelState = ChannelState(binary: bool, incoming: seq<Byte>, outgoing: seq<Byte>)

  /** What the socket does: takes some of what is offered, or nothing; gives some bytes, none at the end, or nothing. */
  datatype Received = WouldBlock | Bytes(bytes: seq<Byte>)

  datatype Pumped<M> = Messages(items: seq<Item<M>>) | Disconnected | Invalid

  function Offered(outgoing: seq<Byte>): seq<Byte> {
    if |outgoing| < MAX_FRAME then outgoing else outgoing[..MAX_FRAME]
  }

  /** How many bytes a turn asks for. */
  function Room(s: ChannelState): nat {
    var free := if |s.incoming| < Limit(s.binary) then Limit(s.binary) - |s.incoming| else 0;
    if free < MAX_FRAME then free else MAX_FRAME
  }

  /** The socket gives no more than it is asked for, and takes no more than it is offered. */
  predicate IsAnswer(s: ChannelState, sent: Option<nat>, r: Received) {
    && (sent.Some? ==> sent.value <= |Offered(s.outgoing)|)
    && (r.Bytes? ==> |r.bytes| <= Room(s))
  }

  function Pump<M>(c: Coding<M>, s: ChannelState, sent: Option<nat>, r: Received): (ChannelState, Pumped<M>)
    requires IsAnswer(s, sent, r)
  {
    var t := if sent.Some? then s.(outgoing := s.outgoing[sent.value..]) else s;
    if |s.incoming| < Limit(s.binary) && r.Bytes? && r.bytes == [] then (t, Disconnected)
    else
      var incoming := if |s.incoming| < Limit(s.binary) && r.Bytes? then t.incoming + r.bytes else t.incoming;
      var turn := TakeSome(c, s.binary, incoming, TURN);
      (t.(incoming := turn.rest), if turn.valid then Messages(turn.items) else Invalid)
  }
}
