/** The two classes the DCOP server allocates: connections and signal
    connections. They refer to each other. */
module Connections {
  import Broker
  import opened DcopTypes
  import opened Options
  import opened PtrLists

  type Byte = bv8

  class DCOPConnection {
    const iceConn: IceConn
    var appId: Option<string>
    var plainAppId: string
    var daemon: bool
    var notifyRegister: nat
    var waitingOnReply: seq<IceConn>
    var waitingForReply: seq<IceConn>
    var waitingForDelayedReply: seq<IceConn>
    var signalConnectionList: PtrList<DCOPSignalConnection>
    var outputBlocked: bool
    var outputBuffer: seq<seq<Byte>>
    var outputBufferStart: nat

    constructor (iceConn: IceConn)
      ensures this.iceConn == iceConn
      ensures View() == Broker.NEW_CONN
      ensures signalConnectionList == Empty()
      ensures !outputBlocked && outputBuffer == [] && outputBufferStart == 0
    {
      this.iceConn := iceConn;
      appId, plainAppId, daemon, notifyRegister := None, "", false, 0;
      waitingOnReply, waitingForReply, waitingForDelayedReply := [], [], [];
      signalConnectionList := Empty();
      outputBlocked, outputBuffer, outputBufferStart := false, [], 0;
    }

    /** The part of a connection the message router looks at. */
    ghost function View(): Broker.Conn
      reads this`appId, this`daemon, this`notifyRegister
      reads this`waitingOnReply, this`waitingForReply, this`waitingForDelayedReply
    {
      Broker.Conn(appId, daemon, notifyRegister, waitingOnReply, waitingForReply, waitingForDelayedReply)
    }
  }

  class DCOPSignalConnection {
    const sender: string
    const senderObj: string
    const senderConn: DCOPConnection?
    const signal: string
    const recvConn: DCOPConnection
    const recvObj: string
    const slot: string

    constructor (sender: string, senderObj: string, senderConn: DCOPConnection?, signal: string,
                 recvConn: DCOPConnection, recvObj: string, slot: string)
      ensures this.sender == sender && this.senderObj == senderObj && this.senderConn == senderConn
      ensures this.signal == signal && this.recvConn == recvConn && this.recvObj == recvObj && this.slot == slot
    {
      this.sender, this.senderObj, this.senderConn := sender, senderObj, senderConn;
      this.signal, this.recvConn, this.recvObj, this.slot := signal, recvConn, recvObj, slot;
    }
  }
}
