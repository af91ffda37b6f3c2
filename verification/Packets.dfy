/**
 The packets of the protocol, shared by both ends (server/internal/wire/wire.go
 and client/src/wire.ts). Numbers are the unsigned integers the wire carries;
 an asset_id and META text are bytes.
 */
module Packets {
  import opened Intervals

  const U8_MAX := 0xff
  const U16_MAX := 0xffff
  const U32_MAX := 0xffff_ffff
  const U64_MAX := 0xffff_ffff_ffff_ffff

  const HEADER_LEN := 9
  const DATA_HEADER_LEN := HEADER_LEN + 8
  const DATA_SEQ_HEADER_LEN := DATA_HEADER_LEN + 4

  const CODE_NOT_FOUND := 1
  const CODE_BAD_REQUEST := 2
  const CODE_UNKNOWN_RPC := 3

  datatype Field = Field(name: seq<Byte>, value: seq<Byte>)

  datatype Packet =
    | Req(rpc: nat, initialGrant: nat, assetId: seq<Byte>)
    | Data(rpc: nat, totalSize: nat, offset: nat, payload: seq<Byte>)
    | Grant(rpc: nat, maxOffset: nat, priority: nat)
    | Resend(rpc: nat, start: nat, end: nat)
    | Error(rpc: nat, code: nat)
    | Meta(rpc: nat, fields: seq<Field>)
    | Hello(rpc: nat, caps: nat)
    | DataSeq(rpc: nat, totalSize: nat, offset: nat, num: nat, payload: seq<Byte>)
    | ResendSeq(rpc: nat, start: nat, end: nat)

  /** The most asset bytes one DATA carries in a datagram of this size. */
  function MaxPayload(maxDatagramSize: int): nat { Max(0, maxDatagramSize - DATA_HEADER_LEN) }

  function MaxPayloadSeq(maxDatagramSize: int): nat { Max(0, maxDatagramSize - DATA_SEQ_HEADER_LEN) }

  /** The SESSION_SEQ capability is bit 0. */
  predicate OffersSeq(caps: nat) { caps % 2 == 1 }
}
