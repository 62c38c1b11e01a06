/**
 The client's commands. Each builds a request, marshals it, and on success
 writes exactly one frame and then dispatches the transport's answer with
 `Read`; when marshalling fails it reports the sentinel and writes nothing.
 A command's effect on the transport is the list of frames it wrote.
 */
module Client {
  import opened Wrappers
  import opened BigEndian
  import Codec
  import Dispatch

  /** The request messages the client sends, with the fields it sets. */
  datatype Request =
    | Initialize
    | Ping(message: string, buttonProtection: bool, pinProtection: bool, passphraseProtection: bool)
    | PinMatrixAck(pin: string)
    | GetAddress(addressN: seq<nat>, coinName: string, showDisplay: bool)

  /**
   The values the generated message-type table gives for the four request
   names; they are supplied, not fixed, because the table is generated code.
   */
  datatype MessageTypes = MessageTypes(initialize: int, ping: int, pinMatrixAck: int, getAddress: int)

  /** The external collaborators: marshaller, message-type table and response decoders. */
  datatype Protocol = Protocol(marshal: Request -> Option<seq<byte>>, types: MessageTypes, decoders: Dispatch.Decoders)

  /** A command's reply together with the frames it wrote to the transport, in order. */
  datatype Exchange = Exchange(reply: Dispatch.Reply, written: seq<seq<byte>>)

  const MARSHAL_ERROR_MESSAGE: string := "ERROR Marshalling"

  const BITCOIN: string := "Bitcoin"

  function TypeOf(types: MessageTypes, req: Request): (t: int) {
    match req
    case Initialize => types.initialize
    case Ping(_, _, _, _) => types.ping
    case PinMatrixAck(_) => types.pinMatrixAck
    case GetAddress(_, _, _) => types.getAddress
  }

  /**
   What one round trip for `req` must do: when marshalling fails, report the
   sentinel and write nothing; otherwise write exactly one frame, with the
   magic bytes, the request's message type, the payload length and the
   marshalled payload, and report what the dispatcher makes of `response`.
   */
  predicate RoundTrip(proto: Protocol, req: Request, response: Dispatch.ReadResult, x: Exchange) {
    match proto.marshal(req)
    case None =>
      x == Exchange(Dispatch.Reply(MARSHAL_ERROR_MESSAGE, Dispatch.SENTINEL), [])
    case Some(payload) =>
      && |x.written| == 1
      && x.reply == Dispatch.Read(proto.decoders, response)
      && |x.written[0]| == Codec.PREFIX_LEN + |payload|
      && x.written[0][..2] == Codec.MAGIC
      && Decode(x.written[0][2..4]) == TypeOf(proto.types, req) % TWO_16
      && Decode(x.written[0][4..8]) == |payload| % TWO_32
      && x.written[0][Codec.PREFIX_LEN..] == payload
  }

  /**
   One round trip: marshal, frame, write, read. `response` is what the
   transport read returns once the frame has been written.
   */
  function Command(proto: Protocol, req: Request, response: Dispatch.ReadResult): (x: Exchange)
    ensures RoundTrip(proto, req, response, x)
  {
    match proto.marshal(req)
    case None => Exchange(Dispatch.Reply(MARSHAL_ERROR_MESSAGE, Dispatch.SENTINEL), [])
    case Some(marshalled) =>
      var msg := Codec.Frame(TypeOf(proto.types, req), marshalled);
      Exchange(Dispatch.Read(proto.decoders, response), [msg])
  }

  /** The frame a command wrote decodes to the request's message type and its marshalled payload. */
  lemma CommandFrameDecodes(proto: Protocol, req: Request, response: Dispatch.ReadResult)
    requires proto.marshal(req).Some? && |proto.marshal(req).value| < TWO_32
    ensures Codec.DecodeFrame(Command(proto, req, response).written[0])
      == Some(Codec.Parsed(TypeOf(proto.types, req) % TWO_16, proto.marshal(req).value))
  {
    Codec.FrameRoundTrip(TypeOf(proto.types, req), proto.marshal(req).value);
  }

  /** `Initialize`: an empty request. */
  function InitializeCmd(proto: Protocol, response: Dispatch.ReadResult): (x: Exchange)
    ensures RoundTrip(proto, Request.Initialize, response, x)
  {
    Command(proto, Request.Initialize, response)
  }

  /** `Ping`: the text, with button, PIN and passphrase protection all switched off. */
  function PingCmd(proto: Protocol, text: string, response: Dispatch.ReadResult): (x: Exchange)
    ensures RoundTrip(proto, Request.Ping(text, false, false, false), response, x)
  {
    Command(proto, Request.Ping(text, false, false, false), response)
  }

  /** `PinMatrixAck`: the caller's PIN, the reply to a PinMatrixRequest. */
  function PinMatrixAckCmd(proto: Protocol, pin: string, response: Dispatch.ReadResult): (x: Exchange)
    ensures RoundTrip(proto, Request.PinMatrixAck(pin), response, x)
  {
    Command(proto, Request.PinMatrixAck(pin), response)
  }

  /** `GetAddress`: coin "Bitcoin", display off, derivation path left empty. */
  function GetAddressCmd(proto: Protocol, response: Dispatch.ReadResult): (x: Exchange)
    ensures RoundTrip(proto, Request.GetAddress([], BITCOIN, false), response, x)
  {
    Command(proto, Request.GetAddress([], BITCOIN, false), response)
  }

  /**
   The marshal-error reply is unambiguous: a command reports it exactly when
   marshalling failed, because the dispatcher never produces it.
   */
  lemma MarshalSentinelOnlyOnFailure(proto: Protocol, req: Request, response: Dispatch.ReadResult)
    ensures Command(proto, req, response).reply == Dispatch.Reply(MARSHAL_ERROR_MESSAGE, Dispatch.SENTINEL)
      <==> proto.marshal(req).None?
  {
  }
}
