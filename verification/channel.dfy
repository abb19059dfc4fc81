/**
 The framed channel itself: two buffers that one end fills and the other empties. What the socket does in a
 turn is given to `Pump`; what is queued, sent, received and taken out is what `ChannelSpec` says.
 */
module Channels {
  import opened Machine
  import opened Frames
  import opened ChannelSpec
  import ChannelRuns

  /** A turn that has taken `items` out before it goes on as `t`. */
  function After<M>(items: seq<Item<M>>, t: Turn<M>): Turn<M> {
    Turn(items + t.items, t.rest, t.valid)
  }

  /** One more message taken out leaves the same turn. */
  lemma GoesOn<M>(c: Coding<M>, binary: bool, items: seq<Item<M>>, incoming: seq<Byte>, n: nat)
    requires n > 0 && TakeOne(c, binary, incoming).Whole?
    ensures var one := TakeOne(c, binary, incoming);
      After(items, TakeSome(c, binary, incoming, n))
      == After(items + [one.item], TakeSome(c, binary, incoming[one.size..], n - 1))
  {
    hide TakeOne;
    ChannelRuns.TakeStep(c, binary, incoming, n);
    var one := TakeOne(c, binary, incoming);
    var later := TakeSome(c, binary, incoming[one.size..], n - 1);
    ChannelRuns.Associates(items, [one.item], later.items);
  }

  lemma Extended<T>(a: seq<T>, b: seq<T>, c: seq<T>, d: seq<T>)
    ensures a + b + c + d == a + (b + c + d)
  {
  }

  class Channel<M> {
    const coding: Coding<M>
    const binary: bool
    var incoming: seq<Byte>
    var outgoing: seq<Byte>

    ghost function State(): ChannelState
      reads this
    {
      ChannelState(binary, incoming, outgoing)
    }

    /** No buffer exceeds its limit. */
    ghost predicate Valid()
      reads this
    {
      |incoming| <= Limit(binary) && |outgoing| <= Limit(binary)
    }

    constructor (coding: Coding<M>, binary: bool)
      ensures State() == ChannelState(binary, [], []) && this.coding == coding && Valid()
    {
      this.coding, this.binary := coding, binary;
      incoming, outgoing := [], [];
    }

    /** Queues a message with its payload, or refuses it and changes nothing. */
    method Queue(message: M, payload: seq<Byte>) returns (accepted: bool)
      requires Valid()
      modifies this`outgoing
      ensures (outgoing, accepted) == Queued(coding, binary, old(outgoing), Item(message, payload))
      ensures Valid() && (accepted <==> |outgoing| > |old(outgoing)|)
    {
      hide Big;
      if |payload| > PayloadLimit(binary) { return false; }
      var text := coding.write(message, |payload|);
      if |text| > MAX_FRAME || |outgoing| + |text| + 4 + |payload| > Limit(binary) { return false; }
      Extended(outgoing, Big(|text|), text, payload);
      outgoing := outgoing + Big(|text|);
      outgoing := outgoing + text;
      outgoing := outgoing + payload;
      return true;
    }

    /** Sends, receives, and takes out at most sixteen messages; what the socket answers is given. */
    method Pump(sent: Option<nat>, received: Received) returns (pumped: Pumped<M>)
      requires Valid() && IsAnswer(State(), sent, received)
      modifies this
      ensures (State(), pumped) == ChannelSpec.Pump(coding, old(State()), sent, received)
      ensures Valid() && (pumped.Messages? ==> |pumped.items| <= TURN)
    {
      if sent.Some? { outgoing := outgoing[sent.value..]; }
      if |incoming| < Limit(binary) && received.Bytes? {
        if received.bytes == [] { return Disconnected; }
        incoming := incoming + received.bytes;
      }
      var items, valid := TakeOut();
      pumped := if valid then Messages(items) else Invalid;
    }

    /** Takes frames out of the incoming buffer, one after another, until none is whole or the turn is over. */
    method TakeOut() returns (items: seq<Item<M>>, valid: bool)
      modifies this`incoming
      ensures Turn(items, incoming, valid) == TakeSome(coding, binary, old(incoming), TURN)
      ensures |incoming| <= |old(incoming)| && |items| <= TURN
    {
      hide TakeOne;
      items := [];
      var k := 0;
      while k < TURN
        invariant k <= TURN && |items| == k && |incoming| <= |old(incoming)|
        invariant After(items, TakeSome(coding, binary, incoming, TURN - k))
                  == TakeSome(coding, binary, old(incoming), TURN)
      {
        var one := TakeOne(coding, binary, incoming);
        match one {
          case Partial => return items, true;
          case Malformed => return items, false;
          case Whole(item, size) =>
            GoesOn(coding, binary, items, incoming, TURN - k);
            items := items + [item];
            incoming := incoming[size..];
        }
        k := k + 1;
      }
      return items, true;
    }
  }
}
