/**
 * The length-prefixed framing of trust_sockets/protocol.py: a frame is a
 * 4-byte big-endian unsigned length (struct format "!I") followed by exactly
 * that many payload bytes.
 */
module Framing {
  import opened Base

  /** struct.calcsize("!I"). */
  const HeaderSize: nat := 4

  /** Payload lengths "!I" can represent are below 2^32. */
  const MaxPayload: nat := 0x1_0000_0000

  /** Raised by `readexactly` when the stream ends first: the bytes that were
      there, and how many were asked for. */
  datatype ReadError = IncompleteRead(partial: seq<byte>, expected: nat)

  function Pow256(k: nat): (r: nat)
    ensures r > 0
  {
    if k == 0 then 1 else 256 * Pow256(k - 1)
  }

  /** The number a byte string denotes, read as a big-endian unsigned integer. */
  function BigEndian(s: seq<byte>): nat
  {
    if s == [] then 0 else BigEndian(s[..|s| - 1]) * 256 + s[|s| - 1]
  }

  lemma {:induction false} BigEndianBound(s: seq<byte>)
    ensures BigEndian(s) < Pow256(|s|)
  {
    if s != [] {
      BigEndianBound(s[..|s| - 1]);
    }
  }

  /** The `width`-byte big-endian encoding of `n`. */
  function ToBigEndian(n: nat, width: nat): (r: seq<byte>)
    requires n < Pow256(width)
    ensures |r| == width && BigEndian(r) == n
  {
    if width == 0 then []
    else
      var front := ToBigEndian(n / 256, width - 1);
      var r := front + [n % 256];
      assert r[..|r| - 1] == front;
      r
  }

  /** Reading a byte string as a number and writing it back at the same width
      gives the same bytes: the encoding is a bijection on fixed widths. */
  lemma {:induction false} ToBigEndianOfBigEndian(s: seq<byte>)
    ensures BigEndian(s) < Pow256(|s|)
    ensures ToBigEndian(BigEndian(s), |s|) == s
  {
    BigEndianBound(s);
    if s != [] {
      var front := s[..|s| - 1];
      ToBigEndianOfBigEndian(front);
      assert BigEndian(s) / 256 == BigEndian(front);
      assert BigEndian(s) % 256 == s[|s| - 1];
      assert s == front + [s[|s| - 1]];
    }
  }

  /** struct.pack("!I", n) (protocol.py:41). */
  function Pack(n: nat): (h: seq<byte>)
    requires n < MaxPayload
    ensures |h| == HeaderSize && BigEndian(h) == n
  {
    assert Pow256(HeaderSize) == MaxPayload;
    ToBigEndian(n, HeaderSize)
  }

  /** struct.unpack("!I", header)[0] (protocol.py:30). */
  function Unpack(h: seq<byte>): (n: nat)
    requires |h| == HeaderSize
    ensures n == BigEndian(h) && n < MaxPayload
    ensures Pack(n) == h
  {
    var b0, b1, b2, b3 := h[0] as int, h[1] as int, h[2] as int, h[3] as int;
    assert BigEndian(h[..1]) == b0 by { assert h[..1][..0] == []; }
    assert BigEndian(h[..2]) == b0 * 256 + b1 by { assert h[..2][..1] == h[..1]; }
    assert BigEndian(h[..3]) == (b0 * 256 + b1) * 256 + b2 by { assert h[..3][..2] == h[..2]; }
    assert BigEndian(h) == ((b0 * 256 + b1) * 256 + b2) * 256 + b3 by { assert h[..|h| - 1] == h[..3]; }
    ToBigEndianOfBigEndian(h);
    assert Pow256(HeaderSize) == MaxPayload;
    (h[0] as int) * 0x100_0000 + (h[1] as int) * 0x1_0000 + (h[2] as int) * 0x100 + (h[3] as int)
  }

  lemma UnpackPack(n: nat)
    requires n < MaxPayload
    ensures Unpack(Pack(n)) == n
  {
  }

  /** The bytes send_msg writes for one payload (protocol.py:39-42). */
  function EncodeFrame(data: seq<byte>): (r: seq<byte>)
    requires |data| < MaxPayload
    ensures |r| == HeaderSize + |data|
    ensures BigEndian(r[..HeaderSize]) == |data| && r[HeaderSize..] == data
  {
    var r := Pack(|data|) + data;
    assert r[..HeaderSize] == Pack(|data|);
    r
  }

  /** What read_msg consumes from a stream holding `buf` up to its end
      (protocol.py:24-36): the payload and the unread rest, or the short read
      that `readexactly` raises. */
  function DecodeFrame(buf: seq<byte>): (r: Result<(seq<byte>, seq<byte>), ReadError>)
    ensures r.Success? <==>
              HeaderSize <= |buf| && HeaderSize + Unpack(buf[..HeaderSize]) <= |buf|
    ensures r.Success? ==> |r.value.0| < MaxPayload && buf == EncodeFrame(r.value.0) + r.value.1
    ensures r.Failure? ==> |r.error.partial| < r.error.expected
  {
    if |buf| < HeaderSize then Failure(IncompleteRead(buf, HeaderSize))
    else
      var n := Unpack(buf[..HeaderSize]);
      var body := buf[HeaderSize..];
      assert buf == Pack(n) + body;
      if n == 0 then
        Success(([], body))
      else if |body| < n then
        Failure(IncompleteRead(body, n))
      else
        assert body == body[..n] + body[n..];
        Success((body[..n], body[n..]))
  }

  /** Decoding what send_msg wrote gives back the payload and leaves whatever
      follows untouched. */
  lemma {:induction false} DecodeEncode(data: seq<byte>, rest: seq<byte>)
    requires |data| < MaxPayload
    ensures DecodeFrame(EncodeFrame(data) + rest) == Success((data, rest))
  {
    var buf := EncodeFrame(data) + rest;
    assert buf[..HeaderSize] == Pack(|data|);
    UnpackPack(|data|);
    assert buf[HeaderSize..] == data + rest;
    assert (data + rest)[..|data|] == data;
    assert (data + rest)[|data|..] == rest;
  }

  /** A header announcing length 0 is the empty payload, not end of stream. */
  lemma EmptyPayload(rest: seq<byte>)
    ensures DecodeFrame([0, 0, 0, 0] + rest) == Success(([], rest))
  {
    assert Pack(0) == [0, 0, 0, 0];
    DecodeEncode([], rest);
  }

  /** A stream that ends inside the header, or inside the payload the header
      announces, is a short read, never a shorter payload. */
  lemma Truncated(buf: seq<byte>)
    requires |buf| < HeaderSize || HeaderSize + Unpack(buf[..HeaderSize]) > |buf|
    ensures DecodeFrame(buf).Failure?
    ensures |buf| < HeaderSize ==> DecodeFrame(buf) == Failure(IncompleteRead(buf, HeaderSize))
    ensures |buf| >= HeaderSize ==>
              DecodeFrame(buf) == Failure(IncompleteRead(buf[HeaderSize..], Unpack(buf[..HeaderSize])))
  {
  }

  /**
   * One end of a connection. `inbound` is what the peer has written and this
   * end has not read yet, up to the peer's end of stream; `outbound` is every
   * byte this end has written.
   */
  class Channel {
    var inbound: seq<byte>
    var outbound: seq<byte>
    var closed: bool

    constructor (incoming: seq<byte>)
      ensures inbound == incoming && outbound == [] && !closed
    {
      inbound := incoming;
      outbound := [];
      closed := false;
    }

    /** StreamReader.readexactly(n): exactly n bytes, or IncompleteReadError
        carrying what was left, which is then consumed. */
    method ReadExactly(n: nat) returns (r: Result<seq<byte>, ReadError>)
      modifies this`inbound
      ensures n <= |old(inbound)| ==>
                r == Success(old(inbound)[..n]) && inbound == old(inbound)[n..]
      ensures n > |old(inbound)| ==>
                r == Failure(IncompleteRead(old(inbound), n)) && inbound == []
    {
      if n <= |inbound| {
        r := Success(inbound[..n]);
        inbound := inbound[n..];
      } else {
        r := Failure(IncompleteRead(inbound, n));
        inbound := [];
      }
    }

    /** read_msg (protocol.py:24-36). */
    method ReadMsg() returns (r: Result<seq<byte>, ReadError>)
      modifies this`inbound
      ensures match DecodeFrame(old(inbound))
              case Success((payload, rest)) => r == Success(payload) && inbound == rest
              case Failure(e) => r == Failure(e) && inbound == []
    {
      var header := ReadExactly(HeaderSize);
      if header.Failure? {
        return Failure(header.error);
      }
      var msgLen := Unpack(header.value);
      if msgLen == 0 {
        return Success([]);
      }
      r := ReadExactly(msgLen);
    }

    /** send_msg (protocol.py:39-43): header and payload in one write. */
    method SendMsg(data: seq<byte>)
      requires |data| < MaxPayload
      modifies this`outbound
      ensures outbound == old(outbound) + EncodeFrame(data)
    {
      var header := Pack(|data|);
      outbound := outbound + (header + data);
    }

    /** StreamWriter.close(). */
    method Close()
      modifies this`closed
      ensures closed
    {
      closed := true;
    }
  }
}
