/**
 The wire frame every command writes:
   magic "##" (2 bytes) | message type (2 bytes, big-endian) | payload length (4 bytes, big-endian) | payload.
 The message type and the length are cut to 16 and 32 bits the way Go's
 `uint16(...)` and `uint32(...)` conversions cut them; Dafny's `%` on `int`
 keeps the low bits of a negative value exactly as two's complement does.
 */
module Codec {
  import opened Wrappers
  import opened BigEndian

  /** The two magic bytes, '#' '#', that open every frame. */
  const MAGIC: seq<byte> := [35, 35]

  /** Bytes before the payload: magic plus header. */
  const PREFIX_LEN: nat := 8

  /** The 6-byte header: message type as 16-bit, payload length as 32-bit big-endian. */
  function Header(msgType: int, msg: seq<byte>): (h: seq<byte>)
    ensures |h| == 6
    ensures Decode(h[..2]) == msgType % TWO_16
    ensures Decode(h[2..]) == |msg| % TWO_32
  {
    Pow256Widths();
    var typeBuf := Encode(msgType % TWO_16, 2);
    var lenBuf := Encode(|msg| % TWO_32, 4);
    DecodeEncode(msgType % TWO_16, 2);
    DecodeEncode(|msg| % TWO_32, 4);
    assert (typeBuf + lenBuf)[..2] == typeBuf;
    assert (typeBuf + lenBuf)[2..] == lenBuf;
    typeBuf + lenBuf
  }

  /** The complete frame a command hands to the transport. */
  function Frame(msgType: int, payload: seq<byte>): (f: seq<byte>)
    ensures |f| == PREFIX_LEN + |payload|
    ensures f[..2] == MAGIC
    ensures Decode(f[2..4]) == msgType % TWO_16
    ensures Decode(f[4..8]) == |payload| % TWO_32
    ensures f[PREFIX_LEN..] == payload
  {
    var h := Header(msgType, payload);
    var f := MAGIC + h + payload;
    assert f[2..4] == h[..2];
    assert f[4..8] == h[2..];
    f
  }

  /** What a well-formed frame carries. */
  datatype Parsed = Parsed(msgType: nat, payload: seq<byte>)

  /**
   Splits a frame back into message type and payload; `None` when the frame is
   too short, lacks the magic bytes, or its length field disagrees with the
   number of payload bytes that follow.
   */
  function DecodeFrame(f: seq<byte>): (r: Option<Parsed>)
    ensures r.Some? ==> |f| == PREFIX_LEN + |r.value.payload| && r.value.msgType < TWO_16
  {
    if |f| < PREFIX_LEN || f[..2] != MAGIC then None
    else
      var msgType := Decode(f[2..4]);
      var declared := Decode(f[4..8]);
      Pow256Widths();
      if declared != |f| - PREFIX_LEN then None
      else Some(Parsed(msgType, f[PREFIX_LEN..]))
  }

  /** A frame whose payload fits the 32-bit length field decodes to its type (cut to 16 bits) and payload. */
  lemma FrameRoundTrip(msgType: int, payload: seq<byte>)
    requires |payload| < TWO_32
    ensures DecodeFrame(Frame(msgType, payload)) == Some(Parsed(msgType % TWO_16, payload))
  {
  }

  /** The header reproduces type and length exactly when both are in range. */
  lemma HeaderRoundTrip(msgType: int, msg: seq<byte>)
    requires 0 <= msgType < TWO_16 && |msg| < TWO_32
    ensures Decode(Header(msgType, msg)[..2]) == msgType
    ensures Decode(Header(msgType, msg)[2..]) == |msg|
  {
  }

  /** Every frame that decodes is exactly the frame built from what it decodes to. */
  lemma FrameCanonical(f: seq<byte>)
    requires DecodeFrame(f).Some?
    ensures Frame(DecodeFrame(f).value.msgType, DecodeFrame(f).value.payload) == f
  {
    var p := DecodeFrame(f).value;
    var g := Frame(p.msgType, p.payload);
    Pow256Widths();
    EncodeDecode(f[2..4]);
    EncodeDecode(f[4..8]);
    EncodeDecode(g[2..4]);
    EncodeDecode(g[4..8]);
    assert g[2..4] == f[2..4];
    assert g[4..8] == f[4..8];
    assert g == g[..2] + g[2..4] + g[4..8] + g[8..];
    assert f == f[..2] + f[2..4] + f[4..8] + f[8..];
  }

  /**
   A payload too long for the 32-bit length field yields a frame whose declared
   length disagrees with its payload, so it never decodes.
   */
  lemma OversizedFrameRejected(msgType: int, payload: seq<byte>)
    requires |payload| >= TWO_32
    ensures DecodeFrame(Frame(msgType, payload)) == None
  {
  }
}
