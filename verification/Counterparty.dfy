/** The IBC enabled chain at the other end, as far as the solo machine's proofs reach it: solo machine clients
    (ICS-006), opening handshakes (ICS-003, ICS-004) and packets (ICS-004). */
module Counterparty {
  import opened Wrappers
  import opened Paths
  import opened Records

  datatype PeerConnection = PeerConnection(
    state: EndState,
    clientId: string,
    counterpartyClientId: string,
    counterpartyConnectionId: Option<string>)

  datatype PeerChannel = PeerChannel(
    state: EndState,
    portId: string,
    connectionId: string,
    counterpartyPortId: string,
    counterpartyChannelId: Option<string>)

  /** What the solo machine signs: its sequence, a store path and the record kept there. For packet commitments
      and acknowledgements the signed data is recomputed by the verifier from the packet, and is left out. */
  datatype Proof = Proof(signer: string, sequence: int, path: string, data: Option<Record>)

  /** Messages that carry a solo machine proof. */
  datatype Message =
    | ConnectionOpenAck(connectionId: string, counterpartyConnectionId: string, proof: Proof)
    | ChannelOpenAck(portId: string, channelId: string, counterpartyChannelId: string, proof: Proof)
    | RecvPacket(sourceChannel: string, destinationChannel: string, packetSequence: int, proof: Proof)
    | Acknowledgement(sourceChannel: string, destinationChannel: string, packetSequence: int, proof: Proof)
    | UpdateClient(clientId: string, oldKey: string, proofSequence: int, newKey: string)
  {
    function SignedSequence(): int {
      match this
      case UpdateClient(_, _, n, _) => n
      case _ => proof.sequence
    }

    /** The key that signed. */
    function Signer(): string {
      match this
      case UpdateClient(_, key, _, _) => key
      case _ => proof.signer
    }
  }

  /** `clients` and `keys` hold the sequence and the public key of each solo machine client. `received` has the packets
      of the solo machine for which there is a receipt, `acknowledged` the packets sent to it whose commitment was
      deleted on acknowledgement, both in order. */
  datatype Peer = Peer(
    clients: map<string, int>,
    keys: map<string, string>,
    connections: map<string, PeerConnection>,
    channels: map<string, PeerChannel>,
    received: seq<int>,
    acknowledged: seq<int>)
  {
    /** The client that verifies a message, found through its channel and connection. */
    function Verifier(m: Message): Option<string> {
      match m
      case UpdateClient(client, _, _, _) => Some(client)
      case ConnectionOpenAck(connection, _, _) => ClientOfConnection(connection)
      case ChannelOpenAck(_, channel, _, _) => ClientOfChannel(channel)
      case RecvPacket(_, channel, _, _) => ClientOfChannel(channel)
      case Acknowledgement(channel, _, _, _) => ClientOfChannel(channel)
    }

    function ClientOfConnection(connection: string): Option<string> {
      if connection in connections then Some(connections[connection].clientId) else None
    }

    function ClientOfChannel(channel: string): Option<string> {
      if channel in channels then ClientOfConnection(channels[channel].connectionId) else None
    }

    predicate OpenTo(channel: string, counterpartyChannel: string) {
      && channel in channels
      && channels[channel].state == Open
      && channels[channel].counterpartyChannelId == Some(counterpartyChannel)
      && channels[channel].connectionId in connections
      && connections[channels[channel].connectionId].state == Open
    }

    /** The message states what this chain expects to find on the other end. */
    predicate Expects(m: Message) {
      match m
      case UpdateClient(_, _, _, _) => true
      case ConnectionOpenAck(id, other, proof) =>
        && id in connections
        && var end := connections[id];
        && end.state == Init
        && proof.path == Key(Connection(other))
        && proof.data == Some(ConnectionRecord(TryOpen, end.counterpartyClientId, end.clientId, id))
      case ChannelOpenAck(port, id, other, proof) =>
        && id in channels
        && var end := channels[id];
        && end.state == Init
        && end.portId == port
        && end.connectionId in connections
        && connections[end.connectionId].state == Open
        && connections[end.connectionId].counterpartyConnectionId.Some?
        && proof.path == Key(Channel(end.counterpartyPortId, other))
        && proof.data == Some(ChannelRecord(TryOpen, port, id,
                                            [connections[end.connectionId].counterpartyConnectionId.value]))
      case RecvPacket(source, destination, n, proof) =>
        && n >= 0
        && OpenTo(destination, source)
        && proof.path == Key(PacketCommitment(channels[destination].counterpartyPortId, source, n))
      case Acknowledgement(source, destination, n, proof) =>
        && n >= 0
        && OpenTo(source, destination)
        && proof.path == Key(PacketAcknowledgement(channels[source].counterpartyPortId, destination, n))
    }

    /** The verifying client is at the sequence the proof was signed at, and the proof states what is expected. */
    predicate InStep(m: Message) {
      && Verifier(m).Some?
      && Verifier(m).value in clients
      && clients[Verifier(m).value] == m.SignedSequence()
      && Expects(m)
    }

    /** The proof was signed with the verifying client's current key. */
    predicate RightKey(m: Message) {
      Verifier(m).Some? && Verifier(m).value in keys && keys[Verifier(m).value] == m.Signer()
    }

    /** The verifying client takes the proof. */
    predicate PassesClient(m: Message) {
      InStep(m) && RightKey(m)
    }

    /** On an unordered channel a packet is received once, and acknowledged once. */
    predicate IsFirst(m: Message) {
      match m
      case RecvPacket(_, _, n, _) => n !in received
      case Acknowledgement(_, _, n, _) => n !in acknowledged
      case _ => true
    }

    predicate Accepts(m: Message) {
      PassesClient(m) && IsFirst(m)
    }

    /** An accepted proof moves the client's sequence by one. */
    function Apply(m: Message): Peer
      requires Accepts(m)
    {
      var client := Verifier(m).value;
      var counted := this.(clients := clients[client := clients[client] + 1]);
      match m
      case UpdateClient(_, _, _, newKey) => counted.(keys := keys[client := newKey])
      case ConnectionOpenAck(id, other, _) =>
        counted.(connections := connections[id := connections[id].(state := Open,
                                                                   counterpartyConnectionId := Some(other))])
      case ChannelOpenAck(_, id, other, _) =>
        counted.(channels := channels[id := channels[id].(state := Open, counterpartyChannelId := Some(other))])
      case RecvPacket(_, _, n, _) => counted.(received := received + [n])
      case Acknowledgement(_, _, n, _) => counted.(acknowledged := acknowledged + [n])
    }

    /** Other reasons (fees, time-outs, time) may still make the chain refuse. */
    function Deliver(m: Message, willing: bool): Peer {
      if willing && Accepts(m) then Apply(m) else this
    }
  }
}
