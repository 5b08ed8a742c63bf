/** Datagrams exchanged by clients and replicas (messaging/Packet, server/Socket). */
module Messages {

  datatype Option<+T> = None | Some(value: T)

  datatype SocketAddress = SocketAddress(address: string, port: int)

  /** The packet types; `Other` stands for any code the server does not know. */
  datatype PacketType =
    | Connect | Disconnect | Accept | Reject | Follow | Send | Notification
    | Error | Info | RequestUserInfo | ConfirmStateChange | Other(code: nat)

  datatype Packet = Packet(kind: PacketType, seqn: nat, payload: string)

  /** A packet handed to `Socket::Send`, with its destination. */
  datatype Datagram = Datagram(to: SocketAddress, packet: Packet)

  function MakeAcceptConnCommand(lastSeqn: nat): Packet {
    Packet(Accept, lastSeqn + 1, "")
  }

  function MakeDisconnectCommand(lastSeqn: nat, handle: string): Packet {
    Packet(Disconnect, lastSeqn + 1, handle)
  }

  function MakeNotification(lastSeqn: nat, message: string, sender: string): Packet {
    Packet(Notification, lastSeqn + 1, "@" + sender + ":\n" + message)
  }

  function MakeConfirmStateChangeMessage(seqnToBeConfirmed: nat): Packet {
    Packet(ConfirmStateChange, seqnToBeConfirmed, "")
  }
}
