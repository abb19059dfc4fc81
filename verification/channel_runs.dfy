/**
 Two channels and the bytes between them. Whatever pieces the bytes are sent and received in, the messages
 that come out are those that were queued, in order, each with its payload; no buffer exceeds its limit, and
 a buffer that is full holds a whole frame, so that a full buffer never stands still.
 */
module ChannelRuns {
  import opened Machine
  import opened Frames
  import opened ChannelSpec

  function FramesOf<M>(c: Coding<M>, items: seq<Item<M>>): seq<Byte> {
    if items == [] then [] else FrameOf(c, items[0]) + FramesOf(c, items[1..])
  }

  lemma Associates<T>(a: seq<T>, b: seq<T>, c: seq<T>)
    ensures a + b + c == a + (b + c)
  {
  }

  lemma {:induction false} FramesOfAppend<M>(c: Coding<M>, items: seq<Item<M>>, i: Item<M>)
    ensures FramesOf(c, items + [i]) == FramesOf(c, items) + FrameOf(c, i)
  {
    hide FrameOf;
    if items == [] {
      assert (items + [i])[1..] == [];
      assert FrameOf(c, i) + [] == FrameOf(c, i) == [] + FrameOf(c, i);
    } else {
      FramesOfAppend(c, items[1..], i);
      assert (items + [i])[1..] == items[1..] + [i];
      Associates(FrameOf(c, items[0]), FramesOf(c, items[1..]), FrameOf(c, i));
    }
  }

  predicate AllCarried<M>(c: Coding<M>, binary: bool, items: seq<Item<M>>) {
    forall k :: 0 <= k < |items| ==> MayCarry(c, binary, items[k])
  }

  /** A buffer that begins a frame gives it up exactly when it has all of it. */
  lemma HeadOfFrame<M(!new)>(c: Coding<M>, binary: bool, i: Item<M>, incoming: seq<Byte>, tail: seq<Byte>,
                             rest: seq<Byte>)
    requires IsFaithful(c) && MayCarry(c, binary, i) && incoming + tail == FrameOf(c, i) + rest
    ensures TakeOne(c, binary, incoming) == if |incoming| < |FrameOf(c, i)| then Partial else Whole(i, |FrameOf(c, i)|)
  {
    hide Big, FromBig;
    var f, text := FrameOf(c, i), Text(c, i);
    assert text != [] && ReadText(c, text) == Some((i.message, |i.payload|));
    BigRoundTrip(|text|);
    if |incoming| >= 4 {
      Prefix(incoming, tail, f, rest, 4);
      assert incoming[..4] == f[..4] == Big(|text|);
      if |incoming| >= |text| + 4 {
        Prefix(incoming, tail, f, rest, |text| + 4);
        assert incoming[4..|text| + 4] == f[4..|text| + 4] == text by {
          assert incoming[4..|text| + 4] == incoming[..|text| + 4][4..];
          assert f[4..|text| + 4] == f[..|text| + 4][4..];
        }
        if |incoming| >= |f| {
          Prefix(incoming, tail, f, rest, |f|);
          assert incoming[|text| + 4..|f|] == incoming[..|f|][|text| + 4..];
          assert f[|text| + 4..] == i.payload;
        }
      }
    }
  }

  lemma Prefix(a: seq<Byte>, b: seq<Byte>, f: seq<Byte>, rest: seq<Byte>, n: nat)
    requires a + b == f + rest && n <= |a| && n <= |f|
    ensures a[..n] == f[..n]
  {
    assert a[..n] == (a + b)[..n] && f[..n] == (f + rest)[..n];
  }

  lemma Remainder(a: seq<Byte>, b: seq<Byte>, f: seq<Byte>, rest: seq<Byte>)
    requires a + b == f + rest && |f| <= |a|
    ensures a[|f|..] + b == rest
  {
    assert (a + b)[|f|..] == a[|f|..] + b && (f + rest)[|f|..] == rest;
  }

  /** How many of the frames at the head of a buffer are whole. */
  function WholeFrames<M>(c: Coding<M>, items: seq<Item<M>>, length: nat): (n: nat)
    ensures n <= |items|
  {
    if items == [] || length < |FrameOf(c, items[0])| then 0
    else 1 + WholeFrames(c, items[1..], length - |FrameOf(c, items[0])|)
  }

  function Fewer(a: nat, b: nat): nat {
    if a < b then a else b
  }

  /** What a turn takes out of a buffer: the first messages due, and the rest stays due. */
  ghost predicate TakesFirst<M>(c: Coding<M>, items: seq<Item<M>>, t: Turn<M>, tail: seq<Byte>, k: nat)
    requires k <= |items|
  {
    t.valid && t.items == items[..k] && t.rest + tail == FramesOf(c, items[k..])
  }

  lemma TakesOneMore<M>(c: Coding<M>, items: seq<Item<M>>, t: Turn<M>, tail: seq<Byte>, k: nat)
    requires items != [] && k < |items| && TakesFirst(c, items[1..], t, tail, k)
    ensures TakesFirst(c, items, Turn([items[0]] + t.items, t.rest, t.valid), tail, k + 1)
  {
    hide FramesOf;
    assert items[..k + 1] == [items[0]] + items[1..][..k];
    assert items[k + 1..] == items[1..][k..];
  }

  lemma TakesNone<M>(c: Coding<M>, items: seq<Item<M>>, incoming: seq<Byte>, tail: seq<Byte>)
    requires incoming + tail == FramesOf(c, items)
    ensures TakesFirst(c, items, Turn([], incoming, true), tail, 0)
  {
    hide FramesOf;
    assert items[0..] == items;
  }

  lemma TakeStep<M>(c: Coding<M>, binary: bool, incoming: seq<Byte>, n: nat)
    requires n > 0
    ensures var one := TakeOne(c, binary, incoming);
      TakeSome(c, binary, incoming, n)
      == match one
         case Partial => Turn([], incoming, true)
         case Malformed => Turn([], incoming, false)
         case Whole(item, size) =>
           var later := TakeSome(c, binary, incoming[size..], n - 1);
           Turn([item] + later.items, later.rest, later.valid)
  {
    hide TakeOne;
  }

  lemma WholeStep<M>(c: Coding<M>, items: seq<Item<M>>, length: nat)
    requires items != []
    ensures WholeFrames(c, items, length)
         == if length < |FrameOf(c, items[0])| then 0
         else 1 + WholeFrames(c, items[1..], length - |FrameOf(c, items[0])|)
    ensures FramesOf(c, items) == FrameOf(c, items[0]) + FramesOf(c, items[1..])
  {
    hide FrameOf;
  }

  lemma CarriedTail<M>(c: Coding<M>, binary: bool, items: seq<Item<M>>)
    requires AllCarried(c, binary, items) && items != []
    ensures MayCarry(c, binary, items[0]) && AllCarried(c, binary, items[1..])
  {
    hide MayCarry;
  }

  lemma NothingToTake<M>(c: Coding<M>, binary: bool, items: seq<Item<M>>, tail: seq<Byte>, incoming: seq<Byte>, n: nat)
    requires n == 0 || items == []
    requires incoming + tail == FramesOf(c, items)
    ensures TakesFirst(c, items, TakeSome(c, binary, incoming, n), tail, Fewer(WholeFrames(c, items, |incoming|), n))
  {
    TakesNone(c, items, incoming, tail);
    if n > 0 { assert incoming == []; }
  }

  /** A turn takes out the first messages still due, up to its number, and leaves the rest due. */
  lemma {:induction false} TurnTakesFirst<M(!new)>(c: Coding<M>, binary: bool, items: seq<Item<M>>, incoming: seq<Byte>,
                                                 tail: seq<Byte>, n: nat)
    requires IsFaithful(c) && AllCarried(c, binary, items) && incoming + tail == FramesOf(c, items)
    ensures TakesFirst(c, items, TakeSome(c, binary, incoming, n), tail, Fewer(WholeFrames(c, items, |incoming|), n))
    decreases n
  {
    hide IsFaithful, TakeOne, FrameOf, TakesFirst, MayCarry, AllCarried, TakeSome, WholeFrames, FramesOf;
    if n == 0 || items == [] {
      NothingToTake(c, binary, items, tail, incoming, n);
    } else {
      CarriedTail(c, binary, items);
      WholeStep(c, items, |incoming|);
      TakeStep(c, binary, incoming, n);
      TakesNone(c, items, incoming, tail);
      var f := FrameOf(c, items[0]);
      HeadOfFrame(c, binary, items[0], incoming, tail, FramesOf(c, items[1..]));
      if |incoming| >= |f| {
        Remainder(incoming, tail, f, FramesOf(c, items[1..]));
        var left := incoming[|f|..];
        TurnTakesFirst(c, binary, items[1..], left, tail, n - 1);
        TakesOneMore(c, items, TakeSome(c, binary, left, n - 1), tail,
                     Fewer(WholeFrames(c, items[1..], |left|), n - 1));
      }
    }
  }

  // ---------- Two ends and the bytes between them ----------

  /** One direction of a connection, with what was queued on it and what has come out. */
  datatype Link<M> = Link(near: ChannelState, wire: seq<Byte>, far: ChannelState, queued: seq<Item<M>>,
                          delivered: seq<Item<M>>)

  /** What is queued and has not come out is exactly what is on its way, and no buffer exceeds its limit. */
  ghost predicate Carries<M(!new)>(c: Coding<M>, l: Link<M>) {
    && l.near.binary == l.far.binary
    && l.delivered <= l.queued && AllCarried(c, l.far.binary, l.queued)
    && l.far.incoming + l.wire + l.near.outgoing == FramesOf(c, l.queued[|l.delivered|..])
    && |l.near.outgoing| <= Limit(l.near.binary) && |l.far.incoming| <= Limit(l.far.binary)
  }

  function NewLink<M>(binary: bool): Link<M> {
    Link(ChannelState(binary, [], []), [], ChannelState(binary, [], []), [], [])
  }

  lemma NewLinkCarries<M(!new)>(c: Coding<M>, binary: bool)
    ensures Carries(c, NewLink(binary))
  {
  }

  datatype Move<M> =
    | Enqueue(item: Item<M>)
    | Send(count: nat)
    | Receive(count: nat)
    | Idle

  /** What may happen: anything is queued, any bytes offered are sent, any bytes there are room for come in. */
  predicate IsPossible<M>(l: Link<M>, m: Move<M>) {
    match m
    case Enqueue(_) => true
    case Send(count) => count <= |Offered(l.near.outgoing)|
    case Receive(count) => 0 < count <= |l.wire| && count <= Room(l.far)
    case Idle => true
  }

  /** The far end's turn: some bytes of the wire, or none. */
  function ReceiveTurn<M>(c: Coding<M>, l: Link<M>, r: Received, left: seq<Byte>): Link<M>
    requires IsAnswer(l.far, None, r)
  {
    var (far, p) := Pump(c, l.far, None, r);
    l.(far := far, wire := left, delivered := if p.Messages? then l.delivered + p.items else l.delivered)
  }

  function LinkNext<M>(c: Coding<M>, l: Link<M>, m: Move<M>): Link<M>
    requires IsPossible(l, m)
  {
    match m
    case Enqueue(item) =>
      var (outgoing, ok) := Queued(c, l.near.binary, l.near.outgoing, item);
      l.(near := l.near.(outgoing := outgoing), queued := if ok then l.queued + [item] else l.queued)
    case Send(count) =>
      var near := Pump(c, l.near, Some(count), WouldBlock).0;
      l.(near := near.(incoming := l.near.incoming), wire := l.wire + l.near.outgoing[..count])
    case Receive(count) => ReceiveTurn(c, l, Bytes(l.wire[..count]), l.wire[count..])
    case Idle => ReceiveTurn(c, l, WouldBlock, l.wire)
  }

  lemma EnqueueCarries<M(!new)>(c: Coding<M>, l: Link<M>, i: Item<M>)
    requires Carries(c, l)
    ensures Carries(c, LinkNext(c, l, Enqueue(i)))
  {
    hide FrameOf, FramesOf, MayCarry;
    if Queued(c, l.near.binary, l.near.outgoing, i).1 {
      var due := l.queued[|l.delivered|..];
      FramesOfAppend(c, due, i);
      assert (l.queued + [i])[|l.delivered|..] == due + [i];
      Associates(l.far.incoming + l.wire, l.near.outgoing, FrameOf(c, i));
    }
  }

  lemma SendCarries<M(!new)>(c: Coding<M>, l: Link<M>, count: nat)
    requires Carries(c, l) && count <= |Offered(l.near.outgoing)|
    ensures Carries(c, LinkNext(c, l, Send(count)))
  {
    hide FramesOf, TakeSome;
    var o := l.near.outgoing;
    assert l.far.incoming + (l.wire + o[..count]) + o[count..] == l.far.incoming + l.wire + o by {
      assert o[..count] + o[count..] == o;
    }
  }

  /** The bytes the far end looks at in a turn. */
  function InHand<M>(l: Link<M>, r: Received): seq<Byte> {
    if r.Bytes? then l.far.incoming + r.bytes else l.far.incoming
  }

  function Due<M>(l: Link<M>): seq<Item<M>>
    requires |l.delivered| <= |l.queued|
  {
    l.queued[|l.delivered|..]
  }

  /** What a turn of the far end delivers: the whole frames in hand, up to a turn's number. */
  function TurnCount<M>(c: Coding<M>, l: Link<M>, r: Received): (k: nat)
    requires |l.delivered| <= |l.queued|
    ensures k <= |Due(l)|
  {
    Fewer(WholeFrames(c, Due(l), |InHand(l, r)|), TURN)
  }

  predicate IsTurn<M>(l: Link<M>, r: Received, left: seq<Byte>) {
    && IsAnswer(l.far, None, r)
    && (if r.Bytes? then r.bytes != [] && |l.far.incoming| < Limit(l.far.binary) && r.bytes + left == l.wire
        else left == l.wire)
  }

  lemma InHandAndLeft<M>(l: Link<M>, r: Received, left: seq<Byte>)
    requires IsTurn(l, r, left)
    ensures InHand(l, r) + (left + l.near.outgoing) == l.far.incoming + l.wire + l.near.outgoing
    ensures |l.far.incoming| <= Limit(l.far.binary) ==> |InHand(l, r)| <= Limit(l.far.binary)
  {
    assert r.Bytes? ==> l.far.incoming + r.bytes + left == l.far.incoming + (r.bytes + left);
    Associates(InHand(l, r), left, l.near.outgoing);
  }

  /** The far end's turn delivers the next messages due and nothing else, and its buffer stays within bounds. */
  lemma TurnCarries<M(!new)>(c: Coding<M>, l: Link<M>, r: Received, left: seq<Byte>)
    requires IsFaithful(c) && Carries(c, l) && IsTurn(l, r, left)
    ensures Carries(c, ReceiveTurn(c, l, r, left))
            && Pump(c, l.far, None, r).1 == Messages(Due(l)[..TurnCount(c, l, r)])
  {
    hide TakeSome, FramesOf, IsFaithful, WholeFrames, MayCarry, InHand, Fewer, Pump;
    InHandAndLeft(l, r, left);
    TurnTakesFirst(c, l.far.binary, Due(l), InHand(l, r), left + l.near.outgoing, TURN);
    TakenIsShorter(c, l.far.binary, InHand(l, r), TURN);
    PumpTakes(c, l, r, left);
    TurnLeaves(c, l, TakeSome(c, l.far.binary, InHand(l, r), TURN), TurnCount(c, l, r), left);
  }

  /** The link once a turn has taken out the first `k` messages due. */
  lemma TurnLeaves<M(!new)>(c: Coding<M>, l: Link<M>, t: Turn<M>, k: nat, left: seq<Byte>)
    requires Carries(c, l) && k <= |Due(l)| && TakesFirst(c, Due(l), t, left + l.near.outgoing, k)
             && |t.rest| <= Limit(l.far.binary)
    ensures Carries(c, l.(far := l.far.(incoming := t.rest), wire := left, delivered := l.delivered + t.items))
  {
    hide FramesOf, MayCarry;
    assert l.delivered + Due(l)[..k] == l.queued[..|l.delivered| + k];
    assert l.queued[|l.delivered| + k..] == Due(l)[k..];
    Associates(t.rest, left, l.near.outgoing);
  }

  lemma PumpTakes<M>(c: Coding<M>, l: Link<M>, r: Received, left: seq<Byte>)
    requires IsTurn(l, r, left)
    ensures var t := TakeSome(c, l.far.binary, InHand(l, r), TURN);
      Pump(c, l.far, None, r) == (l.far.(incoming := t.rest), if t.valid then Messages(t.items) else Invalid)
  {
    hide TakeSome;
  }

  lemma {:induction false} TakenIsShorter<M>(c: Coding<M>, binary: bool, incoming: seq<Byte>, n: nat)
    ensures |TakeSome(c, binary, incoming, n).rest| <= |incoming|
    decreases n
  {
    hide TakeOne;
    if n > 0 && TakeOne(c, binary, incoming).Whole? {
      TakenIsShorter(c, binary, incoming[TakeOne(c, binary, incoming).size..], n - 1);
    }
  }

  /** Every move keeps the link: what comes out is a prefix of what was queued, in order, and the rest is on its way. */
  lemma MoveCarries<M(!new)>(c: Coding<M>, l: Link<M>, m: Move<M>)
    requires IsFaithful(c) && Carries(c, l) && IsPossible(l, m)
    ensures Carries(c, LinkNext(c, l, m)) && l.delivered <= LinkNext(c, l, m).delivered
  {
    match m
    case Enqueue(i) => EnqueueCarries(c, l, i);
    case Send(count) => SendCarries(c, l, count);
    case Receive(count) =>
      assert l.wire[..count] + l.wire[count..] == l.wire;
      TurnCarries(c, l, Bytes(l.wire[..count]), l.wire[count..]);
    case Idle => TurnCarries(c, l, WouldBlock, l.wire);
  }

  // ---------- Runs ----------

  ghost predicate IsRun<M(!new)>(c: Coding<M>, links: seq<Link<M>>, moves: seq<Move<M>>) {
    && |links| == |moves| + 1 && (exists binary: bool :: links[0] == NewLink(binary))
    && forall k :: 0 <= k < |moves| ==>
      IsPossible(links[k], moves[k]) && links[k + 1] == LinkNext(c, links[k], moves[k])
  }

  lemma {:induction false} AlwaysCarries<M(!new)>(c: Coding<M>, links: seq<Link<M>>, moves: seq<Move<M>>, k: nat)
    requires IsFaithful(c) && IsRun(c, links, moves) && k < |links|
    ensures Carries(c, links[k])
  {
    hide Carries, LinkNext, IsFaithful;
    if k == 0 {
      var binary: bool :| links[0] == NewLink(binary);
      NewLinkCarries(c, binary);
    } else {
      AlwaysCarries(c, links, moves, k - 1);
      MoveCarries(c, links[k - 1], moves[k - 1]);
    }
  }

  /** In every run, what comes out is what was queued, in the order it was queued. */
  lemma DeliveredInOrder<M(!new)>(c: Coding<M>, links: seq<Link<M>>, moves: seq<Move<M>>, k: nat)
    requires IsFaithful(c) && IsRun(c, links, moves) && k < |links|
    ensures links[k].delivered <= links[k].queued
    ensures |links[k].near.outgoing| <= Limit(links[k].near.binary)
            && |links[k].far.incoming| <= Limit(links[k].far.binary)
  {
    hide IsRun, IsFaithful, FramesOf;
    AlwaysCarries(c, links, moves, k);
  }

  /** In every run, once nothing is on its way everything queued has come out. */
  lemma NothingIsLost<M(!new)>(c: Coding<M>, links: seq<Link<M>>, moves: seq<Move<M>>, k: nat)
    requires IsFaithful(c) && IsRun(c, links, moves) && k < |links|
    requires links[k].near.outgoing == [] && links[k].wire == [] && links[k].far.incoming == []
    ensures links[k].delivered == links[k].queued
  {
    hide IsRun, IsFaithful;
    AlwaysCarries(c, links, moves, k);
    var l := links[k];
    assert FramesOf(c, l.queued[|l.delivered|..]) == [];
  }

  lemma FrameFits<M>(c: Coding<M>, binary: bool, i: Item<M>)
    requires MayCarry(c, binary, i)
    ensures |FrameOf(c, i)| <= Limit(binary)
  {
  }

  lemma WithinQueue<M(!new)>(c: Coding<M>, l: Link<M>)
    requires Carries(c, l)
    ensures |l.delivered| <= |l.queued|
  {
    hide FramesOf, AllCarried;
  }

  lemma DueBytes<M(!new)>(c: Coding<M>, l: Link<M>)
    requires Carries(c, l)
    ensures l.far.incoming + (l.wire + l.near.outgoing) == FramesOf(c, Due(l))
    ensures AllCarried(c, l.far.binary, Due(l))
  {
    hide MayCarry, FramesOf;
    Associates(l.far.incoming, l.wire, l.near.outgoing);
  }

  lemma BytesBelongToFrames<M>(c: Coding<M>, due: seq<Item<M>>, incoming: seq<Byte>, tail: seq<Byte>)
    requires incoming + tail == FramesOf(c, due) && incoming != []
    ensures due != []
  {
  }

  /** Of a full buffer the first frame due is whole. */
  lemma FirstDueIsWhole<M(!new)>(c: Coding<M>, l: Link<M>)
    requires Carries(c, l) && |l.far.incoming| >= Limit(l.far.binary)
    ensures Due(l) != [] && MayCarry(c, l.far.binary, Due(l)[0]) && |FrameOf(c, Due(l)[0])| <= |l.far.incoming|
    ensures WholeFrames(c, Due(l), |l.far.incoming|) >= 1
  {
    hide Carries, FrameOf, FramesOf, WholeFrames, MayCarry;
    WithinQueue(c, l);
    DueBytes(c, l);
    BytesBelongToFrames(c, Due(l), l.far.incoming, l.wire + l.near.outgoing);
    CarriedTail(c, l.far.binary, Due(l));
    FrameFits(c, l.far.binary, Due(l)[0]);
    WholeStep(c, Due(l), |l.far.incoming|);
  }

  /** A turn over a full buffer shortens it. */
  lemma FullBufferShrinks<M(!new)>(c: Coding<M>, l: Link<M>)
    requires IsFaithful(c) && Carries(c, l) && |l.far.incoming| >= Limit(l.far.binary)
    ensures |TakeSome(c, l.far.binary, l.far.incoming, TURN).rest| < |l.far.incoming|
  {
    hide IsFaithful, Carries, FrameOf, FramesOf, WholeFrames, MayCarry, TakeSome;
    WithinQueue(c, l);
    FirstDueIsWhole(c, l);
    DueBytes(c, l);
    FirstTaken(c, l.far.binary, Due(l), l.far.incoming, l.wire + l.near.outgoing);
  }

  lemma IdleTurn<M>(c: Coding<M>, l: Link<M>)
    ensures IsTurn(l, WouldBlock, l.wire) && LinkNext(c, l, Idle) == ReceiveTurn(c, l, WouldBlock, l.wire)
    ensures |l.delivered| <= |l.queued| ==>
            TurnCount(c, l, WouldBlock) == Fewer(WholeFrames(c, Due(l), |l.far.incoming|), TURN)
    ensures LinkNext(c, l, Idle).far.incoming == TakeSome(c, l.far.binary, l.far.incoming, TURN).rest
  {
    hide TakeSome, WholeFrames;
  }

  lemma DeliveredByTurn<M>(c: Coding<M>, l: Link<M>)
    ensures var p := Pump(c, l.far, None, WouldBlock).1;
      p.Messages? ==> LinkNext(c, l, Idle).delivered == l.delivered + p.items
  {
    hide TakeSome;
  }

  /** A full buffer holds a whole frame, so its next turn takes one out however little room there was. */
  lemma FullBufferHoldsFrame<M(!new)>(c: Coding<M>, l: Link<M>)
    requires IsFaithful(c) && Carries(c, l) && |l.far.incoming| >= Limit(l.far.binary)
    ensures |LinkNext(c, l, Idle).delivered| > |l.delivered|
    ensures |LinkNext(c, l, Idle).far.incoming| < Limit(l.far.binary)
  {
    hide IsFaithful, AllCarried, FramesOf, WholeFrames, TakeSome, Pump, InHand, LinkNext, ReceiveTurn, FrameOf,
         MayCarry;
    FirstDueIsWhole(c, l);
    FullBufferShrinks(c, l);
    IdleTurn(c, l);
    TurnCarries(c, l, WouldBlock, l.wire);
    DeliveredByTurn(c, l);
  }

  lemma FirstTaken<M(!new)>(c: Coding<M>, binary: bool, due: seq<Item<M>>, incoming: seq<Byte>, tail: seq<Byte>)
    requires IsFaithful(c) && due != [] && MayCarry(c, binary, due[0])
    requires incoming + tail == FramesOf(c, due) && |incoming| >= |FrameOf(c, due[0])|
    ensures |TakeSome(c, binary, incoming, TURN).rest| < |incoming|
  {
    hide IsFaithful, TakeOne;
    HeadOfFrame(c, binary, due[0], incoming, tail, FramesOf(c, due[1..]));
    TakenIsShorter(c, binary, incoming[|FrameOf(c, due[0])|..], TURN - 1);
  }
}
