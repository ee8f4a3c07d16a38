/**
 * Octets and the 32-bit big-endian integer encoding of `java.io.DataOutput.writeInt`
 * and `java.io.DataInput.readInt`, which the framing of multi-payload bodies uses.
 */
module Bytes {

  /** One octet as the unsigned value a `DataInput` reads (0..255). */
  type byte = x: int | 0 <= x < 0x100

  /** A Java `int`. */
  type int32 = x: int | -0x8000_0000 <= x < 0x8000_0000

  /** The largest length a Java array can have. */
  const MAX_ARRAY_LENGTH: int := 0x7FFF_FFFF

  /** A Java `byte[]`: its length is a non-negative `int`. */
  type Bytes = s: seq<byte> | |s| <= MAX_ARRAY_LENGTH

  /** The two's-complement bit pattern of `v`, read as an unsigned 32-bit number. */
  function Unsigned(v: int32): (u: int)
    ensures 0 <= u < 0x1_0000_0000
    ensures (v < 0 ==> u == v + 0x1_0000_0000) && (v >= 0 ==> u == v)
  {
    if v < 0 then v + 0x1_0000_0000 else v
  }

  /** The four octets `writeInt(v)` emits: `v >>> 24`, `v >>> 16`, `v >>> 8`, `v`, each `& 0xFF`. */
  function WriteIntBytes(v: int32): (r: seq<byte>)
    ensures |r| == 4
  {
    var u := Unsigned(v);
    [u / 0x100_0000, (u / 0x1_0000) % 0x100, (u / 0x100) % 0x100, u % 0x100]
  }

  /** The `int` that `readInt` assembles from four octets, most significant first. */
  function ReadIntBytes(b: seq<byte>): (v: int32)
    requires |b| == 4
    ensures v < 0 <==> b[0] >= 0x80
  {
    var u: int := ((b[0] as int * 0x100 + b[1]) * 0x100 + b[2]) * 0x100 + b[3];
    if u < 0x8000_0000 then u else u - 0x1_0000_0000
  }

  /** Reading back what `writeInt` wrote gives the same `int`. */
  lemma ReadWriteInt(v: int32)
    ensures ReadIntBytes(WriteIntBytes(v)) == v
  {
    var u := Unsigned(v);
    var q1 := u / 0x100;
    var q2 := q1 / 0x100;
    assert u == q1 * 0x100 + u % 0x100;
    assert q1 == q2 * 0x100 + q1 % 0x100;
    assert q2 == (q2 / 0x100) * 0x100 + q2 % 0x100;
    assert u / 0x1_0000 == q2;
    assert u / 0x100_0000 == q2 / 0x100;
  }

  /** Writing the `int` that four octets encode reproduces those octets. */
  lemma WriteReadInt(b: seq<byte>)
    requires |b| == 4
    ensures WriteIntBytes(ReadIntBytes(b)) == b
  {
    var u: int := ((b[0] as int * 0x100 + b[1]) * 0x100 + b[2]) * 0x100 + b[3];
    var q1: int := (b[0] as int * 0x100 + b[1]) * 0x100 + b[2];
    var q2: int := b[0] as int * 0x100 + b[1];
    assert Unsigned(ReadIntBytes(b)) == u;
    assert u / 0x100 == q1 && u % 0x100 == b[3];
    assert q1 / 0x100 == q2 && q1 % 0x100 == b[2];
    assert q2 / 0x100 == b[0] && q2 % 0x100 == b[1];
    assert u / 0x1_0000 == q2;
    assert u / 0x100_0000 == b[0];
  }

  /** A length (non-negative `int`) is written with a clear top bit and reads back unchanged. */
  lemma LengthField(n: nat)
    requires n <= MAX_ARRAY_LENGTH
    ensures WriteIntBytes(n)[0] < 0x80
    ensures ReadIntBytes(WriteIntBytes(n)) == n
  {
    ReadWriteInt(n);
  }
}
