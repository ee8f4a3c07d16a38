/**
 * The multi-payload body of `ProfilingConnection.multiDataRequest`: every payload in order,
 * each preceded by its length as a 4-byte big-endian `int`, with nothing between or after.
 */
module Framing {
  import opened Wrappers
  import opened Bytes
  import opened Sizes

  /** What one payload contributes to a framed body: its length field, then its bytes. */
  function Chunk(p: Bytes): seq<byte>
  {
    WriteIntBytes(|p|) + p
  }

  /** The framed body of a sequence of payloads: `4 + |p|` bytes for each payload `p`. */
  function Frame(ps: seq<Bytes>): (r: seq<byte>)
    ensures |r| == 4 * |ps| + TotalSize(ps)
  {
    if ps == [] then [] else Chunk(ps[0]) + Frame(ps[1..])
  }

  /**
   * The conforming reader: read a 4-byte length, then that many bytes, until the input is
   * exhausted. `None` when a length field is cut short (`readInt` reaches the end), is
   * negative (no array of that size exists) or promises more bytes than remain (`readFully`
   * reaches the end).
   */
  function Unframe(data: seq<byte>): (r: Option<seq<Bytes>>)
    decreases |data|
  {
    if data == [] then Some([])
    else if |data| < 4 then None
    else
      var n := ReadIntBytes(data[..4]);
      if n < 0 || |data| - 4 < n then None
      else match Unframe(data[4 + n..])
        case None => None
        case Some(rest) => Some([data[4..4 + n]] + rest)
  }

  /**
   * The read-back of the first payload done right after framing: one `readInt`, then
   * `readFully` into an array of that length.
   */
  function ReadFirst(data: seq<byte>): (r: Option<Bytes>)
    ensures r.Some? <==> |data| >= 4 && 0 <= ReadIntBytes(data[..4]) <= |data| - 4
    ensures r.Some? ==> |r.value| == ReadIntBytes(data[..4]) && data[4..4 + |r.value|] == r.value
  {
    if |data| < 4 then None
    else
      var n := ReadIntBytes(data[..4]);
      if n < 0 || |data| - 4 < n then None else Some(data[4..4 + n])
  }

  /** Framing distributes over concatenation of payload sequences. */
  lemma {:induction false} FrameConcat(a: seq<Bytes>, b: seq<Bytes>)
    ensures Frame(a + b) == Frame(a) + Frame(b)
  {
    if a == [] {
      assert a + b == b;
    } else {
      assert (a + b)[1..] == a[1..] + b;
      FrameConcat(a[1..], b);
    }
  }

  /** Decoding a framed body recovers exactly the payloads, in order. */
  lemma {:induction false} UnframeFrame(ps: seq<Bytes>)
    ensures Unframe(Frame(ps)) == Some(ps)
  {
    if ps != [] {
      var p, data := ps[0], Frame(ps);
      LengthField(|p|);
      assert data[..4] == WriteIntBytes(|p|);
      assert data[4..4 + |p|] == p;
      assert data[4 + |p|..] == Frame(ps[1..]);
      UnframeFrame(ps[1..]);
      assert [p] + ps[1..] == ps;
    }
  }

  /** A body the reader accepts is exactly the framing of what it decodes to: the encoding is canonical. */
  lemma {:induction false} FrameUnframe(data: seq<byte>, ps: seq<Bytes>)
    requires Unframe(data) == Some(ps)
    ensures Frame(ps) == data
    decreases |data|
  {
    if data != [] {
      var chunk, tail := UnframeStep(data);
      var rest := Unframe(tail).value;
      FrameUnframe(tail, rest);
      assert ps[0] == chunk && ps[1..] == rest;
    }
  }

  /** One step of the reader on accepted input: a length field, that many bytes, and an accepted rest. */
  lemma UnframeStep(data: seq<byte>) returns (chunk: Bytes, tail: seq<byte>)
    requires data != [] && Unframe(data).Some?
    ensures |tail| < |data| && Unframe(tail).Some?
    ensures Unframe(data).value == [chunk] + Unframe(tail).value
    ensures data == Chunk(chunk) + tail
  {
    var n := ReadIntBytes(data[..4]);
    chunk, tail := data[4..4 + n], data[4 + n..];
    assert WriteIntBytes(|chunk|) == data[..4] by {
      WriteReadInt(data[..4]);
    }
    assert data == (data[..4] + chunk) + tail;
  }

  /**
   * Where payload `i` sits: at offset `4 * i` plus the sizes of the payloads before it, the framed body holds the
   * 4-byte length of `ps[i]`, and right after it the bytes of `ps[i]`.
   */
  lemma FrameAt(ps: seq<Bytes>, i: nat)
    requires i < |ps|
    ensures var off := 4 * i + TotalSize(ps[..i]);
      off + 4 + |ps[i]| <= |Frame(ps)| &&
      Frame(ps)[off..off + 4] == WriteIntBytes(|ps[i]|) &&
      ReadIntBytes(Frame(ps)[off..off + 4]) == |ps[i]| &&
      Frame(ps)[off + 4..off + 4 + |ps[i]|] == ps[i]
  {
    FrameSplitAt(ps, i);
    ChunkAt(Frame(ps[..i]), ps[i], Frame(ps[i + 1..]));
    LengthField(|ps[i]|);
  }

  /** In `a`, then a chunk, then `c`, the chunk's length field and payload start right after `a`. */
  lemma ChunkAt(a: seq<byte>, p: Bytes, c: seq<byte>)
    ensures var f := a + (Chunk(p) + c);
      |a| + 4 + |p| <= |f| &&
      f[|a|..|a| + 4] == WriteIntBytes(|p|) &&
      f[|a| + 4..|a| + 4 + |p|] == p
  {
  }

  /** A framed body is the framing of the payloads before `i`, the chunk of payload `i`, and the framing of the rest. */
  lemma FrameSplitAt(ps: seq<Bytes>, i: nat)
    requires i < |ps|
    ensures Frame(ps) == Frame(ps[..i]) + (Chunk(ps[i]) + Frame(ps[i + 1..]))
  {
    var pre, tail := ps[..i], ps[i..];
    assert pre + tail == ps;
    FrameConcat(pre, tail);
    assert tail[0] == ps[i] && tail[1..] == ps[i + 1..];
  }

  /** Reading one length and that many bytes from a framed body yields its first payload. */
  lemma ReadFirstOfFrame(ps: seq<Bytes>)
    ensures ps == [] ==> ReadFirst(Frame(ps)) == None
    ensures ps != [] ==> ReadFirst(Frame(ps)) == Some(ps[0])
  {
    if ps != [] {
      FrameAt(ps, 0);
    }
  }

  /** Two payloads of 3 and 5 bytes frame into 16 bytes. */
  lemma ThreeAndFive(p: Bytes, q: Bytes)
    requires |p| == 3 && |q| == 5
    ensures |Frame([p, q])| == 16
  {
  }

  /**
   * A growable byte buffer, as Guava's `ByteArrayDataOutput` and `java.io.ByteArrayOutputStream`
   * are: writes only ever append.
   */
  class ByteSink {
    var bytes: seq<byte>

    constructor ()
      ensures bytes == []
    {
      bytes := [];
    }

    /** `write(byte[])`: appends the bytes. */
    method Write(b: seq<byte>)
      modifies this
      ensures bytes == old(bytes) + b
    {
      bytes := bytes + b;
    }

    /** `writeInt(int)`: appends the four big-endian octets of `v`. */
    method WriteInt(v: int32)
      modifies this
      ensures bytes == old(bytes) + WriteIntBytes(v)
      ensures ReadIntBytes(bytes[|bytes| - 4..]) == v
    {
      ReadWriteInt(v);
      bytes := bytes + WriteIntBytes(v);
      assert bytes[|bytes| - 4..] == WriteIntBytes(v);
    }
  }
}
