/** What travels between the three programs, and the names they share. */
module Wire {
  import opened Bytes
  import opened Cidr

  datatype Option<+T> = None | Some(value: T)

  type Id = string
  type Stream = nat
  type Time = int

  /** Which of the server's two services a stream belongs to. */
  datatype Role = ClientRole | ProxyRole

  /** The socket a packet's bytes were read from: the program that read them is named by its
      (only) stream to the server, the socket by its number in that program. */
  datatype Origin = Origin(stream: Stream, socket: nat)

  /** A connection tuple; the addresses are as `net.ParseIP` reads them, if it can. */
  datatype Flow = Flow(src: Option<Address>, srcPort: Word, dst: Option<Address>, dstPort: Word)

  /** A relayed packet; responses carry no tuple. No program looks at the last three fields:
      they identify the read a packet came from (the `serial`-th of its origin) and say how many
      reads its origin had made when the bytes were last copied out of the read buffer. */
  datatype Packet = Packet(connId: Id, flow: Option<Flow>, data: seq<Byte>, origin: Origin, serial: nat, stamp: nat) {
    /** The destination address, if there is a tuple and it parses. */
    function Dst(): Option<Address> {
      if flow.Some? then flow.value.dst else None
    }
  }
}
