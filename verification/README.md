# Trezor client framing and response dispatch

A Dafny model of the core of `trezor.go`, a Go client for a Trezor hardware
wallet. The client talks to the device over a HID transport in frames of the
form `"##" | type (16-bit big-endian) | length (32-bit big-endian) | payload`,
where the payload is a serialised protobuf message. The model covers:

- `Codec`: `Header` (type and length as big-endian fields, cut to 16 and
  32 bits as Go's `uint16(...)` and `uint32(...)` cut them) and `Frame`
  (magic bytes, header, payload), the frame assembly every command repeats.
  `DecodeFrame` is the inverse, proved against both directions.
- `BigEndian`: fixed-width big-endian encoding and decoding, with both
  round trips proved.
- `Decimal`: the decimal rendering `strconv.Itoa` gives a non-negative number,
  and a parser, with both round trips proved.
- `Dispatch`: `Read`, the response dispatcher, as a total function of the
  transport read's result `(payload, type, length, err)` and of the four
  protobuf decoders, each given as an abstract function from payload to an
  optional field.
- `Client`: `Initialize`, `Ping`, `PinMatrixAck` and `GetAddress`: each builds
  its request, marshals it with the external marshaller, and either reports
  `("ERROR Marshalling", 999)` without writing, or writes one frame and
  dispatches the transport's answer. The frames written are returned as a list
  next to the reply.

The transport read, the protobuf marshaller and decoders, and the generated
message-type table are parameters (`ReadResult`, `Protocol`, `MessageTypes`).

`GetAddress` sets `ShowDisplay` to `false` (trezor.go:90, 95: the variable is
named `ttrue` but holds `false`), and the model follows that value. The
outbound message types come from the generated table
`messages.MessageType_value`, so the model takes them as parameters.

## Model

| member | source | states |
|---|---|---|
| BigEndian.Encode | trezor.go:29-32 | the big-endian field written by PutUint16/PutUint32 has exactly `width` bytes; DecodeEncode and EncodeDecode pin down its value as the unique encoding of `v` |
| BigEndian.Decode | trezor.go:29-32 | the independent big-endian reading of a byte sequence, most significant byte first, always below 256 to the power of its length |
| BigEndian.DecodeEncode | trezor.go:28-32 | decoding a fixed-width big-endian field gives back the value written into it |
| BigEndian.EncodeDecode | trezor.go:28-32 | every byte sequence is the big-endian encoding of its own value, so the representation is unique |
| BigEndian.EncodeInjective | trezor.go:28-32 | two values of the same width encode to the same bytes exactly when they are equal |
| Codec.Header | trezor.go:26-35 | the header is 6 bytes; bytes 0..2 decode to the type modulo 2^16, bytes 2..6 to the payload length modulo 2^32 |
| Codec.HeaderRoundTrip | trezor.go:28-32 | with the type below 2^16 and the payload shorter than 2^32, the header decodes back to exactly the type and the length |
| Codec.Frame | trezor.go:45-46 | a frame is 8 + payload bytes long, starts with the two magic bytes '#', carries the type and payload length in bytes 2..8, and ends with the payload unchanged |
| Codec.DecodeFrame | trezor.go:45-46 | a frame that parses is exactly 8 bytes longer than its payload, and its type fits 16 bits |
| Codec.FrameRoundTrip | trezor.go:45-46 | parsing a built frame gives back the type (modulo 2^16) and the payload, for any payload the length field can hold |
| Codec.FrameCanonical | trezor.go:45-46 | every byte sequence that parses as a frame is the frame built from what it parses to |
| Codec.OversizedFrameRejected | trezor.go:32 | a payload of 2^32 bytes or more gets a truncated length field, so its frame never parses |
| Decimal.FromNat | trezor.go:118 | the rendering of a number is a non-empty digit string without a leading zero, starting with '0' only for zero |
| Decimal.ToNatFromNat | trezor.go:118 | parsing the rendering of a number gives the number back |
| Decimal.FromNatToNat | trezor.go:118 | every digit string without a leading zero is the rendering of its own value |
| Dispatch.Read | trezor.go:109-153 | transport error gives ("Error reading", 999); no data gives ("", 999); otherwise the real type, with the decoded message field (types 2, 3), the PIN prompt (18), the decoded address (30), "Error unmarshalling (N)" when type N fails to decode, and "Uncaught message type N" for any other type |
| Dispatch.ReadReportsRealType | trezor.go:109-152 | the reported type is 999 or the received type; it is the received one whenever it is not 999; the two sentinel replies occur exactly when the read failed or carried no data |
| Dispatch.UncaughtNamesType | trezor.go:118 | for an unknown type the message is the fixed prefix followed by a decimal numeral that parses back to the type |
| Dispatch.UncaughtInjective | trezor.go:118 | two unknown types give the same placeholder message exactly when they are the same type |
| Dispatch.UnmarshalFailureKeepsType | trezor.go:119-151 | a known type whose payload fails to decode is reported as "Error unmarshalling (N)" with its real type, never 999 |
| Dispatch.PinRequestPrompts | trezor.go:135-142 | a PinMatrixRequest that decodes, whatever its payload, yields ("Please enter current PIN:", 18) |
| Dispatch.ReadExamples | trezor.go:119-152 | Success "ok" gives ("ok", 2), Failure "denied" gives ("denied", 3), an address gives (address, 30), type 99 gives ("Uncaught message type 99", 99) |
| Client.Command | trezor.go:37-50 | marshal failure gives ("ERROR Marshalling", 999) and writes nothing; otherwise exactly one frame is written, carrying the request's type, length and marshalled payload, and the reply is what the dispatcher makes of the response |
| Client.CommandFrameDecodes | trezor.go:45-48 | the one frame a command writes parses back to the request's type and the marshalled payload |
| Client.InitializeCmd | trezor.go:37-50 | Initialize marshals the empty Initialize request and otherwise follows the round trip |
| Client.PingCmd | trezor.go:52-71 | Ping marshals the caller's text with button, PIN and passphrase protection all false, and otherwise follows the round trip |
| Client.PinMatrixAckCmd | trezor.go:73-87 | PinMatrixAck marshals the caller's PIN and otherwise follows the round trip |
| Client.GetAddressCmd | trezor.go:89-107 | GetAddress marshals coin "Bitcoin", display false and an empty derivation path, and otherwise follows the round trip |
| Client.MarshalSentinelOnlyOnFailure | trezor.go:41-49 | a command reports ("ERROR Marshalling", 999) exactly when marshalling failed |

## Left out

- `SetTransport` and `CloseTransport`: HID device attach and close, pure I/O.
- The transport's `Write` and `Read`: the write is modelled as the list of frames a command returns, the read as the `ReadResult` value a command is given; the HID chunking inside the transport is not part of this model.
- The transport write's error result, which the code ignores; the model likewise never inspects it.
- `proto.Marshal`, `proto.Unmarshal` and the generated `messages` types: a foreign protobuf library. Marshalling is a function from request to optional bytes, and each response schema's decoder a function from payload to optional field; protobuf's rule that an unset string field reads as "" lives inside those functions.
- `messages.MessageType_value`: a generated table; its four lookups are the `MessageTypes` parameter. The inbound types 2, 3, 18 and 30 are literals in the code and constants in the model.
- `strconv.Itoa` is modelled by `Decimal.FromNat` only for non-negative arguments, which is all `Read` passes it (a 16-bit unsigned type).
- Concurrency: the client is single-threaded and stateless between calls; the model's commands are pure functions, so no state can leak from one call to the next.
