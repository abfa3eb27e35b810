/** Types shared by every component: bytes, hardware addresses and the driver's status codes. */
module Common {
  datatype Option<+T> = None | Some(value: T)

  newtype Byte = x: int | 0 <= x < 256

  type Bytes = seq<Byte>

  /** A six-byte hardware address, read as one big-endian number. */
  newtype Address = a: int | 0 <= a < 0x1_0000_0000_0000

  const ZERO_ADDRESS: Address := 0

  /** An address that can name one station: the group bit of its first byte is clear and
      some bit is set. */
  predicate Unicast(a: Address) {
    (a / 0x100_0000_0000) % 2 == 0 && a != ZERO_ADDRESS
  }

  /** The IOReturn codes that the modelled operations tell apart. */
  datatype IOReturn =
    | Success
    | BadArgument
    | NotReady
    | Busy
    | Unsupported
    | NoMemory
    | NoResources
    | NotFound
    | Error
    | Aborted
    | Timeout
    | Offline
}
