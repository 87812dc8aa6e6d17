/** Types shared by the models of the DCOP server and the DCOP client. */
module DcopTypes {
  /** A connection handle. The source uses the address of the ICE connection
      object, so a handle may come back after its connection has been closed. */
  type IceConn = nat

  const CARD32_SIZE := 0x1_0000_0000

  type CARD32 = k: int | 0 <= k < CARD32_SIZE

  datatype Opcode = Send | Call | Find | Reply | ReplyFailed | ReplyWait | ReplyDelayed
}
