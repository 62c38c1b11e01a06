/**
 The response dispatcher `Read`: turns what the transport read returned into
 a (message, type) pair. The transport read and the protobuf decoders are
 external; they enter the model as the values `ReadResult` and `Decoders`.
 */
module Dispatch {
  import opened Wrappers
  import opened BigEndian
  import Decimal

  /** A 16-bit unsigned message type, as the transport and `Read` return it. */
  type uint16 = t: int | 0 <= t < 0x1_0000

  /** The type `Read` reports for local failures (read error, empty message). */
  const SENTINEL: uint16 := 999

  /** Inbound message types the dispatcher decodes. */
  const SUCCESS: uint16 := 2
  const FAILURE: uint16 := 3
  const PIN_MATRIX_REQUEST: uint16 := 18
  const ADDRESS: uint16 := 30

  const READ_ERROR_MESSAGE: string := "Error reading"
  const PIN_PROMPT: string := "Please enter current PIN:"
  const UNCAUGHT_PREFIX: string := "Uncaught message type "

  /** The tuple the transport read returns: payload, message type, length, and whether it failed. */
  datatype ReadResult = ReadResult(payload: seq<byte>, msgType: uint16, length: int, failed: bool)

  /**
   The protobuf decoders for the four known response schemas, applied to a
   payload. `None` is an unmarshalling error; `Some(s)` carries the field the
   dispatcher reports (`message` of Success and Failure, `address` of Address);
   a PinMatrixRequest only has to decode.
   */
  datatype Decoders = Decoders(
    success: seq<byte> -> Option<string>,
    failure: seq<byte> -> Option<string>,
    pinMatrixRequest: seq<byte> -> bool,
    address: seq<byte> -> Option<string>)

  /** What every command returns: a human-readable message and a message type. */
  datatype Reply = Reply(message: string, msgType: uint16)

  predicate Known(t: uint16) {
    t == SUCCESS || t == FAILURE || t == PIN_MATRIX_REQUEST || t == ADDRESS
  }

  /** The read succeeded and carried data, so the dispatcher looks at the message type. */
  predicate Delivered(rr: ReadResult) {
    !rr.failed && rr.length > 0
  }

  /** The message reported when the payload of a known type fails to decode. */
  function UnmarshalError(t: uint16): (s: string) {
    "Error unmarshalling (" + Decimal.FromNat(t) + ")"
  }

  function Uncaught(t: uint16): (s: string) {
    UNCAUGHT_PREFIX + Decimal.FromNat(t)
  }

  /** The dispatcher. */
  function Read(dec: Decoders, rr: ReadResult): (r: Reply)
    ensures rr.failed ==> r == Reply(READ_ERROR_MESSAGE, SENTINEL)
    ensures !rr.failed && rr.length <= 0 ==> r == Reply("", SENTINEL)
    ensures Delivered(rr) ==> r.msgType == rr.msgType
    ensures Delivered(rr) && !Known(rr.msgType) ==> r.message == Uncaught(rr.msgType)
    ensures Delivered(rr) && rr.msgType == SUCCESS ==>
      r.message == dec.success(rr.payload).GetOr(UnmarshalError(SUCCESS))
    ensures Delivered(rr) && rr.msgType == FAILURE ==>
      r.message == dec.failure(rr.payload).GetOr(UnmarshalError(FAILURE))
    ensures Delivered(rr) && rr.msgType == PIN_MATRIX_REQUEST ==>
      r.message == (if dec.pinMatrixRequest(rr.payload) then PIN_PROMPT else UnmarshalError(PIN_MATRIX_REQUEST))
    ensures Delivered(rr) && rr.msgType == ADDRESS ==>
      r.message == dec.address(rr.payload).GetOr(UnmarshalError(ADDRESS))
  {
    if rr.failed then Reply(READ_ERROR_MESSAGE, SENTINEL)
    else if rr.length <= 0 then Reply("", SENTINEL)
    else
      var t := rr.msgType;
      var str :=
        if t == SUCCESS then
          match dec.success(rr.payload)
          case None => "Error unmarshalling (2)"
          case Some(m) => m
        else if t == FAILURE then
          match dec.failure(rr.payload)
          case None => "Error unmarshalling (3)"
          case Some(m) => m
        else if t == PIN_MATRIX_REQUEST then
          if dec.pinMatrixRequest(rr.payload) then PIN_PROMPT
          else "Error unmarshalling (18)"
        else if t == ADDRESS then
          match dec.address(rr.payload)
          case None => "Error unmarshalling (30)"
          case Some(m) => m
        else UNCAUGHT_PREFIX + Decimal.FromNat(t);
      Reply(str, t)
  }

  /**
   The reported type is the sentinel or the real one: whenever it is not the
   sentinel the read delivered data and the type is the one received.
   */
  lemma ReadReportsRealType(dec: Decoders, rr: ReadResult)
    ensures Read(dec, rr).msgType == SENTINEL || Read(dec, rr).msgType == rr.msgType
    ensures Read(dec, rr).msgType != SENTINEL ==> Delivered(rr)
    ensures !Delivered(rr) <==> Read(dec, rr) in {Reply(READ_ERROR_MESSAGE, SENTINEL), Reply("", SENTINEL)}
  {
  }

  /** The placeholder for an unknown type names that type, and the name reads back as the type. */
  lemma UncaughtNamesType(dec: Decoders, rr: ReadResult)
    requires Delivered(rr) && !Known(rr.msgType)
    ensures Read(dec, rr).message[..|UNCAUGHT_PREFIX|] == UNCAUGHT_PREFIX
    ensures Decimal.Canonical(Read(dec, rr).message[|UNCAUGHT_PREFIX|..])
    ensures Decimal.ToNat(Read(dec, rr).message[|UNCAUGHT_PREFIX|..]) == rr.msgType
  {
    var m := Read(dec, rr).message;
    assert m[|UNCAUGHT_PREFIX|..] == Decimal.FromNat(rr.msgType);
    Decimal.ToNatFromNat(rr.msgType);
  }

  /**
   Distinct unknown types give distinct placeholders, so the message alone
   identifies which unknown type arrived.
   */
  lemma UncaughtInjective(t: uint16, u: uint16)
    requires !Known(t) && !Known(u)
    ensures Uncaught(t) == Uncaught(u) <==> t == u
  {
    if Uncaught(t) == Uncaught(u) {
      assert Uncaught(t)[|UNCAUGHT_PREFIX|..] == Decimal.FromNat(t);
      assert Uncaught(u)[|UNCAUGHT_PREFIX|..] == Decimal.FromNat(u);
      Decimal.ToNatFromNat(t);
      Decimal.ToNatFromNat(u);
    }
  }

  /** A payload of a known type that fails to decode is reported with the real type, never the sentinel. */
  lemma UnmarshalFailureKeepsType(dec: Decoders, rr: ReadResult)
    requires Delivered(rr) && Known(rr.msgType)
    requires rr.msgType == SUCCESS ==> dec.success(rr.payload).None?
    requires rr.msgType == FAILURE ==> dec.failure(rr.payload).None?
    requires rr.msgType == PIN_MATRIX_REQUEST ==> !dec.pinMatrixRequest(rr.payload)
    requires rr.msgType == ADDRESS ==> dec.address(rr.payload).None?
    ensures Read(dec, rr) == Reply(UnmarshalError(rr.msgType), rr.msgType)
    ensures Read(dec, rr).msgType != SENTINEL
  {
  }

  /** Any PinMatrixRequest that decodes, the empty payload included, yields the PIN prompt. */
  lemma PinRequestPrompts(dec: Decoders, rr: ReadResult)
    requires Delivered(rr) && rr.msgType == PIN_MATRIX_REQUEST && dec.pinMatrixRequest(rr.payload)
    ensures Read(dec, rr) == Reply(PIN_PROMPT, PIN_MATRIX_REQUEST)
  {
  }

  /** Decoders whose every schema yields the given field, whatever the payload. */
  function Always(field: string): (dec: Decoders) {
    Decoders(_ => Some(field), _ => Some(field), _ => true, _ => Some(field))
  }

  /** Worked cases: Success "ok", Failure "denied", Address, and unknown type 99. */
  lemma ReadExamples(payload: seq<byte>, length: int)
    requires length > 0
    ensures Read(Always("ok"), ReadResult(payload, 2, length, false)) == Reply("ok", 2)
    ensures Read(Always("denied"), ReadResult(payload, 3, length, false)) == Reply("denied", 3)
    ensures Read(Always("1A2b"), ReadResult(payload, 30, length, false)) == Reply("1A2b", 30)
    ensures Read(Always("ok"), ReadResult(payload, 99, length, false)) == Reply("Uncaught message type 99", 99)
  {
  }
}
