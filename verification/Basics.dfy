/** Vocabulary shared by every component of the vault model. */
module Basics {

  datatype Option<+T> = None | Some(value: T)

  type Service = string
  type Addr = string
  /** Node IDs are 64-bit; nothing but the wire header depends on their width. */
  type NodeID = nat

  const MAX_UINT16: nat := 0xFFFF
  const TWO_TO_16: nat := 0x1_0000
  const TWO_TO_32: nat := 0x1_0000_0000

  type uint8 = n: nat | n < 256
  type uint16 = n: nat | n < TWO_TO_16
  type uint32 = n: nat | n < TWO_TO_32

  /** `h + 1` in 16-bit arithmetic: wraps at 65535. */
  function Succ16(h: uint16): uint16 {
    (h + 1) % TWO_TO_16
  }

  /** `uint32(h) - 1` in 32-bit arithmetic: a zero height wraps to 2^32 - 1. */
  function Pred32(h: uint16): uint32 {
    (h - 1) % TWO_TO_32
  }

  /** The error numbers a vaultkeeper can answer with. */
  datatype Fault =
    | ShorthandNotAccepted
    | BodyRequired
    | BodyNotAccepted
    | VersionNotSupported
    | MalformedBody
    | MalformedAddress
    | HelloRequired
    | IdInUse
    | BadHeight
    | NotRoot
    | NotParent
    | UnknownChildId
    | BadServiceName
    | BadStaleTime
    | BadToken
    | AllUnknown

  /** What an acknowledgement carries: nothing, the answering node's height, or the service it is about. */
  datatype Ack = NoBody | OwnHeight(height: uint16) | ForService(service: Service)

  datatype Reply = Accepted(ack: Ack) | Refused(fault: Fault)

  /** A request body: missing, undecodable, or decoded. */
  datatype Body<+T> = Absent | Malformed | Present(value: T)
}
