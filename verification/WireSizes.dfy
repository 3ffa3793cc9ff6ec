/** How many bytes the records of the protocol take, packed field by field. */
module WireSizes {
  const BYTE := 1
  const SHORT := 2
  const LONG := 4

  /** The datagram's own header: peer and flags, and the time it was sent at. */
  const PROTOCOL_HEADER := SHORT + SHORT
  const CHECKSUM := LONG

  /** What every command begins with: its kind, its channel and its number. */
  const COMMAND_HEADER := BYTE + BYTE + SHORT

  const ACKNOWLEDGE := COMMAND_HEADER + SHORT + SHORT
  const PING := COMMAND_HEADER
  const DISCONNECT := COMMAND_HEADER + LONG
  const SEND_RELIABLE := COMMAND_HEADER + SHORT
  const SEND_UNRELIABLE := COMMAND_HEADER + SHORT + SHORT
  const SEND_UNSEQUENCED := COMMAND_HEADER + SHORT + SHORT

  /** The number the fragments begin with and the length of this one; then how many there are,
      which of them this is, the length of the packet, and where in it this one begins. */
  const SEND_FRAGMENT := COMMAND_HEADER + SHORT + SHORT + LONG + LONG + LONG + LONG

  lemma InBytes()
    ensures PROTOCOL_HEADER == 4 && CHECKSUM == 4 && ACKNOWLEDGE == 8 && PING == 4 && DISCONNECT == 8
    ensures SEND_RELIABLE == 6 && SEND_UNRELIABLE == 8 && SEND_UNSEQUENCED == 8 && SEND_FRAGMENT == 24
  {
  }
}
