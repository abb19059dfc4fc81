/** The fixed 32-byte frames a compute child writes to its event pipe. */
module Frames {
  import opened Machine

  const FRAME_MAGIC: U32 := 0x52484350
  const FRAME_VERSION: U16 := 1
  const FRAME_BYTES: nat := 32
  const BATCH_ITERATIONS: nat := 4096
  const CANCELLED_EXIT_CODE: int := 20
  const FAILURE_EXIT_CODE: int := 21
  const STOP_COMMAND: Byte := 0x53

  const READY: U16 := 1
  const PROGRESS: U16 := 2
  const STOP_ACKNOWLEDGED: U16 := 3
  const STOP_IGNORED: U16 := 4
  const COMPLETED: U16 := 5
  const CANCELLED: U16 := 6

  type Byte = n: nat | n < 256
  type U16 = n: nat | n < 0x1_0000
  type U32 = n: nat | n < 0x1_0000_0000

  datatype Frame = Frame(
    magic: U32,
    version: U16,
    kind: U16,
    iterations: U64,
    value: U64,
    droppedProgress: U64)

  /** A frame as this build writes it. */
  function Emit(kind: U16, iterations: U64, value: U64, dropped: U64): Frame {
    Frame(FRAME_MAGIC, FRAME_VERSION, kind, iterations, value, dropped)
  }

  /** 256^width. */
  function Range(width: nat): (r: nat)
    ensures r > 0
  {
    if width == 0 then 1 else 256 * Range(width - 1)
  }

  /** The low `width` bytes of a number, least significant first. */
  function Little(n: nat, width: nat): (bytes: seq<Byte>)
    ensures |bytes| == width
    decreases width
  {
    if width == 0 then [] else [n % 256] + Little(n / 256, width - 1)
  }

  function Value(bytes: seq<Byte>): nat
    decreases |bytes|
  {
    if bytes == [] then 0 else bytes[0] + 256 * Value(bytes[1..])
  }

  lemma {:induction false} ValueOfLittle(n: nat, width: nat)
    requires n < Range(width)
    ensures Value(Little(n, width)) == n
    decreases width
  {
    if width == 0 {
    } else {
      ValueOfLittle(n / 256, width - 1);
      assert Little(n, width)[1..] == Little(n / 256, width - 1);
    }
  }

  lemma LowDigit(low: Byte, high: nat)
    ensures (low + 256 * high) % 256 == low && (low + 256 * high) / 256 == high
  {
  }

  lemma {:induction false} LittleOfValue(bytes: seq<Byte>)
    ensures Value(bytes) < Range(|bytes|) && Little(Value(bytes), |bytes|) == bytes
    decreases |bytes|
  {
    if bytes == [] {
    } else {
      LittleOfValue(bytes[1..]);
      LowDigit(bytes[0], Value(bytes[1..]));
      assert bytes == [bytes[0]] + bytes[1..];
    }
  }

  lemma Ranges()
    ensures Range(2) == 0x1_0000 && Range(4) == 0x1_0000_0000 && Range(8) == MAX_U64 + 1
  {
    assert Range(1) == 256 * Range(0);
    assert Range(2) == 256 * Range(1);
    assert Range(3) == 256 * Range(2);
    assert Range(4) == 256 * Range(3);
    assert Range(5) == 256 * Range(4);
    assert Range(6) == 256 * Range(5);
    assert Range(7) == 256 * Range(6);
    assert Range(8) == 256 * Range(7);
  }

  /** The bytes of the structure in memory. */
  function Encode(f: Frame): (bytes: seq<Byte>)
    ensures |bytes| == FRAME_BYTES
  {
    Little(f.magic, 4) + Little(f.version, 2) + Little(f.kind, 2)
    + Little(f.iterations, 8) + Little(f.value, 8) + Little(f.droppedProgress, 8)
  }

  function Decode(bytes: seq<Byte>): Frame
    requires |bytes| == FRAME_BYTES
  {
    Ranges();
    LittleOfValue(bytes[..4]);
    LittleOfValue(bytes[4..6]);
    LittleOfValue(bytes[6..8]);
    LittleOfValue(bytes[8..16]);
    LittleOfValue(bytes[16..24]);
    LittleOfValue(bytes[24..]);
    Frame(Value(bytes[..4]), Value(bytes[4..6]), Value(bytes[6..8]),
          Value(bytes[8..16]), Value(bytes[16..24]), Value(bytes[24..]))
  }

  /** Every frame survives the pipe. */
  lemma DecodeEncode(f: Frame)
    ensures Decode(Encode(f)) == f
  {
    hide Little, Value;
    Ranges();
    ValueOfLittle(f.magic, 4);
    ValueOfLittle(f.version, 2);
    ValueOfLittle(f.kind, 2);
    ValueOfLittle(f.iterations, 8);
    ValueOfLittle(f.value, 8);
    ValueOfLittle(f.droppedProgress, 8);
    var b := Encode(f);
    assert b[..4] == Little(f.magic, 4);
    assert b[4..6] == Little(f.version, 2);
    assert b[6..8] == Little(f.kind, 2);
    assert b[8..16] == Little(f.iterations, 8);
    assert b[16..24] == Little(f.value, 8);
    assert b[24..] == Little(f.droppedProgress, 8);
  }

  /** Every 32 bytes are some frame, so no bytes are lost either. */
  lemma EncodeDecode(bytes: seq<Byte>)
    requires |bytes| == FRAME_BYTES
    ensures Encode(Decode(bytes)) == bytes
  {
    hide Little, Value, Range;
    LittleOfValue(bytes[..4]);
    LittleOfValue(bytes[4..6]);
    LittleOfValue(bytes[6..8]);
    LittleOfValue(bytes[8..16]);
    LittleOfValue(bytes[16..24]);
    LittleOfValue(bytes[24..]);
    assert bytes == bytes[..4] + bytes[4..6] + bytes[6..8] + bytes[8..16] + bytes[16..24] + bytes[24..];
  }

  /** Frames back to back, as they lie in the pipe. */
  function EncodeAll(frames: seq<Frame>): (bytes: seq<Byte>)
    ensures |bytes| == FRAME_BYTES * |frames|
    decreases |frames|
  {
    if frames == [] then [] else Encode(frames[0]) + EncodeAll(frames[1..])
  }

  lemma {:induction false} EncodeAllAppends(frames: seq<Frame>, f: Frame)
    ensures EncodeAll(frames + [f]) == EncodeAll(frames) + Encode(f)
    decreases |frames|
  {
    hide Encode;
    if frames == [] {
      assert EncodeAll([f]) == Encode(f) + EncodeAll([]);
    } else {
      EncodeAllAppends(frames[1..], f);
      assert (frames + [f])[1..] == frames[1..] + [f];
    }
  }
}
