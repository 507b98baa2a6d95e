/** KafkaProtobufProducer::addSchemaRegistryId: the Confluent schema-registry
    envelope put in front of a binary payload, a magic byte 0, the schema id
    in four big-endian bytes, and a message-index byte 0. */
module WireFraming {

  import opened Json

  type byte = x: int | 0 <= x < 256

  const NoSchemaId: int := -1
  const TwoTo32: int := 0x1_0000_0000

  /** (quint8)(x >> shift): an arithmetic shift right (division rounding
      down, which Dafny's `/` does for a positive divisor) truncated to its
      low eight bits. */
  function ShiftByte(x: int, divisor: int): byte
    requires divisor > 0
  {
    (x / divisor) % 256
  }

  function Header(schemaId: int): (h: seq<byte>)
  {
    [0, ShiftByte(schemaId, 0x100_0000), ShiftByte(schemaId, 0x1_0000),
     ShiftByte(schemaId, 0x100), ShiftByte(schemaId, 1), 0]
  }

  /** An id of -1 means "no schema for this topic" and leaves the payload as
      it is; any other id gets the six-byte header. */
  function AddSchemaRegistryId(schemaId: int32, input: seq<byte>): (r: seq<byte>)
    ensures schemaId == NoSchemaId ==> r == input
    ensures schemaId != NoSchemaId ==> |r| == |input| + 6 && r[0] == 0 && r[5] == 0 && r[6..] == input
  {
    if schemaId == NoSchemaId then input else Header(schemaId) + input
  }

  /** Reading four bytes back as a big-endian unsigned number. */
  function BigEndian(b: seq<byte>): int
    requires |b| == 4
  {
    ((b[0] as int * 256 + b[1]) * 256 + b[2]) * 256 + b[3]
  }

  /** A reader of the envelope (used only to state the framing law): at
      least six bytes, zero magic and index bytes, id in bytes 1..4. */
  ghost function DecodeFrame(data: seq<byte>): Option<(int, seq<byte>)>
  {
    if |data| < 6 || data[0] != 0 || data[5] != 0 then None
    else Some((BigEndian(data[1..5]), data[6..]))
  }

  lemma DivDiv256(x: int, d: int)
    requires d > 0
    ensures x / (d * 256) == (x / d) / 256
  {
    var q, r := x / d, x % d;
    var q2, r2 := q / 256, q % 256;
    assert x == q * d + r;
    assert q == q2 * 256 + r2;
    Distribute(q2, r2, d);
    assert x == q2 * (d * 256) + (r2 * d + r);
    MulBelow(r2, d);
    DivUnique(x, d * 256, q2, r2 * d + r);
  }

  lemma Distribute(q2: int, r2: int, d: int)
    ensures (q2 * 256 + r2) * d == q2 * (d * 256) + r2 * d
  {
  }

  lemma MulBelow(r2: int, d: int)
    requires 0 <= r2 < 256 && d > 0
    ensures 0 <= r2 * d <= 255 * d
  {
    assert (255 - r2) * d >= 0;
  }

  lemma MulAtLeast(a: int, d: int)
    requires a >= 1 && d > 0
    ensures a * d >= d
  {
    assert a * d == (a - 1) * d + d;
    assert (a - 1) * d >= 0;
  }

  lemma DivUnique(x: int, d: int, q: int, r: int)
    requires d > 0 && 0 <= r < d && x == q * d + r
    ensures x / d == q
  {
    var q', r' := x / d, x % d;
    assert x == q' * d + r';
    if q' > q {
      assert (q' - q) * d == r - r';
      MulAtLeast(q' - q, d);
    } else if q' < q {
      assert (q - q') * d == r' - r;
      MulAtLeast(q - q', d);
    }
  }

  /** The four id bytes read back big-endian give the id as an unsigned
      32-bit number (its two's-complement bit pattern). */
  lemma {:induction false} HeaderEncodesId(schemaId: int32)
    ensures BigEndian(Header(schemaId)[1..5]) == schemaId % TwoTo32
  {
    var x := schemaId;
    var t1 := x / 256;
    var t2 := t1 / 256;
    var t3 := t2 / 256;
    DivDiv256(x, 256);
    DivDiv256(x, 0x1_0000);
    assert x / 0x1_0000 == t2;
    assert x / 0x100_0000 == t3;
    assert x == t1 * 256 + x % 256;
    assert t1 == t2 * 256 + t1 % 256;
    assert t2 == t3 * 256 + t2 % 256;
    assert -128 <= t3 < 128;
    var h := Header(x)[1..5];
    assert h == [t3 % 256, t2 % 256, t1 % 256, x % 256];
    var be := BigEndian(h);
    if t3 >= 0 {
      assert be == x;
    } else {
      assert t3 % 256 == t3 + 256;
      assert be == x + TwoTo32;
    }
  }

  /** The framing law: decoding a framed payload gives back the id and the
      payload. */
  lemma {:induction false} FrameRoundTrip(schemaId: int32, payload: seq<byte>)
    requires schemaId != NoSchemaId
    ensures DecodeFrame(AddSchemaRegistryId(schemaId, payload)) == Some((schemaId % TwoTo32, payload))
  {
    var framed := AddSchemaRegistryId(schemaId, payload);
    assert framed[1..5] == Header(schemaId)[1..5];
    HeaderEncodesId(schemaId);
  }

  /** For the ids a registry hands out (non-negative) the id itself comes back. */
  lemma FrameRoundTripRegistryId(schemaId: int32, payload: seq<byte>)
    requires 0 <= schemaId
    ensures DecodeFrame(AddSchemaRegistryId(schemaId, payload)) == Some((schemaId, payload))
  {
    FrameRoundTrip(schemaId, payload);
  }
}
