/** The rows and records that the solo machine keeps (solo-machine-core/src/model/chain/chain.rs and
    solo-machine-core/src/model/ibc.rs). */
module Records {
  import opened Wrappers
  import opened Bytes
  import opened Height

  const U32_MAX: int := 0xFFFF_FFFF

  datatype ConnectionDetails = ConnectionDetails(
    soloMachineClientId: string,
    tendermintClientId: string,
    soloMachineConnectionId: string,
    tendermintConnectionId: string,
    soloMachineChannelId: Option<string>,
    tendermintChannelId: Option<string>)
  {
    predicate HasChannels() {
      soloMachineChannelId.Some? && tendermintChannelId.Some?
    }

    function WithoutChannels(): ConnectionDetails {
      this.(soloMachineChannelId := None, tendermintChannelId := None)
    }
  }

  /** A row of the `chains` table; the two counters are 64-bit columns that are read into 32-bit fields. */
  datatype Chain = Chain(
    portId: string,
    sequence: int,
    packetSequence: int,
    connectionDetails: Option<ConnectionDetails>)
  {
    /** `TryFrom<RawChain>` succeeds. */
    predicate Readable() {
      0 <= sequence <= U32_MAX && 0 <= packetSequence <= U32_MAX
    }

    function NextSequence(): Chain {
      this.(sequence := sequence + 1)
    }

    function Advance(steps: nat): Chain {
      this.(sequence := sequence + steps)
    }

    function NextPacketSequence(): Chain {
      this.(packetSequence := packetSequence + 1)
    }
  }

  /** State of one end of a connection or channel. */
  datatype EndState = Init | TryOpen | Open | Closed

  /** A value of the path-keyed `ibc_data` table. */
  datatype Record =
    | ClientRecord(chainId: string, latestHeight: Height)
    | ConsensusRecord(height: Height)
    | ConnectionRecord(
        state: EndState,
        clientId: string,
        counterpartyClientId: string,
        counterpartyConnectionId: string)
    | ChannelRecord(
        state: EndState,
        counterpartyPortId: string,
        counterpartyChannelId: string,
        connectionHops: seq<string>)
  {
    /** `set_state` of connection and channel ends. */
    function SetState(next: EndState): Record
      requires ConnectionRecord? || ChannelRecord?
    {
      this.(state := next)
    }
  }

  /** An IBC packet. */
  datatype Packet = Packet(
    sequence: nat,
    sourcePort: string,
    sourceChannel: string,
    destinationPort: string,
    destinationChannel: string,
    data: Bytes,
    timeoutHeight: Option<Height>,
    timeoutTimestamp: nat)
}
