/** The builders that sign a proof at the chain's sequence and count it up
    (solo-machine-core/src/transaction_builder.rs). A builder may also fail for reasons outside the model (signer,
    account query, latest height); its transaction is then dropped by the caller. */
module TransactionBuilder {
  import opened Wrappers
  import opened Paths
  import opened Records
  import opened Counterparty
  import opened Database

  /** A signed message, and the chain as the updated row gives it back. */
  datatype Built = Built(message: Message, chain: Chain)

  /** `view` is `before` with the row's sequence counted up, and the chain handed back is that row. */
  ghost predicate SequenceCounted(before: Tables, view: Tables, id: string, chain: Chain) {
    && id in before.chains
    && chain == before.chains[id].NextSequence()
    && chain.Readable()
    && view == before.WithRow(id, chain)
  }

  /** The same with both counters. */
  ghost predicate BothCounted(before: Tables, view: Tables, id: string, chain: Chain) {
    && id in before.chains
    && chain == before.chains[id].NextSequence().NextPacketSequence()
    && chain.Readable()
    && view == before.WithRow(id, chain)
  }

  /** Signs a packet with the chain's packet sequence, then counts both sequences up. */
  method MsgTokenSend(tx: Transaction, id: string, signer: string, chain: Chain) returns (built: Option<Built>)
    requires chain.Readable()
    modifies tx
    ensures built.Some? ==>
      && chain.connectionDetails.Some? && chain.connectionDetails.value.HasChannels()
      && var source := chain.connectionDetails.value.tendermintChannelId.value;
      && built.value.message ==
        RecvPacket(source, chain.connectionDetails.value.soloMachineChannelId.value, chain.packetSequence,
           Proof(signer, chain.sequence, Key(PacketCommitment(chain.portId, source, chain.packetSequence)), None))
      && BothCounted(old(tx.view), tx.view, id, built.value.chain)
    ensures built.Some? <==>
      && chain.connectionDetails.Some? && chain.connectionDetails.value.HasChannels()
      && id in old(tx.view.chains) && old(tx.view.chains[id]).NextSequence().Readable()
      && old(tx.view.chains[id]).NextSequence().NextPacketSequence().Readable()
  {
    if chain.connectionDetails.None? || !chain.connectionDetails.value.HasChannels() {
      return None;
    }
    var details := chain.connectionDetails.value;
    var source := details.tendermintChannelId.value;
    var proof := Proof(signer, chain.sequence, Key(PacketCommitment(chain.portId, source, chain.packetSequence)), None);
    var message := RecvPacket(source, details.soloMachineChannelId.value, chain.packetSequence, proof);
    var counted := tx.IncrementSequence(id);
    if counted.None? {
      return None;
    }
    counted := tx.IncrementPacketSequence(id);
    if counted.None? {
      return None;
    }
    return Some(Built(message, counted.value));
  }

  /** Signs the new key's header; the client it is sent to is taken from the updated row. */
  method MsgUpdateSoloMachineClient(tx: Transaction, id: string, signer: string, chain: Chain, newKey: string)
    returns (built: Option<Built>)
    modifies tx
    ensures built.Some? ==>
      && chain.connectionDetails.Some?
      && SequenceCounted(old(tx.view), tx.view, id, built.value.chain)
      && built.value.chain.connectionDetails.Some?
      && built.value.message ==
        UpdateClient(built.value.chain.connectionDetails.value.soloMachineClientId, signer, chain.sequence, newKey)
    ensures built.Some? <==>
      && chain.connectionDetails.Some?
      && id in old(tx.view.chains) && old(tx.view.chains[id]).NextSequence().Readable()
      && old(tx.view.chains[id]).connectionDetails.Some?
  {
    if chain.connectionDetails.None? {
      return None;
    }
    var counted := tx.IncrementSequence(id);
    if counted.None? || counted.value.connectionDetails.None? {
      return None;
    }
    var client := counted.value.connectionDetails.value.soloMachineClientId;
    return Some(Built(UpdateClient(client, signer, chain.sequence, newKey), counted.value));
  }

  /** Signs the acknowledgement of a packet under the chain's own channel, then counts the sequence up. */
  method MsgTokenReceiveAck(tx: Transaction, id: string, signer: string, chain: Chain, packet: Packet)
    returns (built: Option<Built>)
    modifies tx
    ensures built.Some? ==>
      && chain.connectionDetails.Some? && chain.connectionDetails.value.tendermintChannelId.Some?
      && built.value.message == Acknowledgement(packet.sourceChannel, packet.destinationChannel, packet.sequence,
           Proof(signer, chain.sequence,
                 Key(PacketAcknowledgement(chain.portId, chain.connectionDetails.value.tendermintChannelId.value,
                                           packet.sequence)),
                 None))
      && SequenceCounted(old(tx.view), tx.view, id, built.value.chain)
    ensures built.Some? <==>
      && chain.connectionDetails.Some? && chain.connectionDetails.value.tendermintChannelId.Some?
      && id in old(tx.view.chains) && old(tx.view.chains[id]).NextSequence().Readable()
  {
    if chain.connectionDetails.None? || chain.connectionDetails.value.tendermintChannelId.None? {
      return None;
    }
    var path := PacketAcknowledgement(chain.portId, chain.connectionDetails.value.tendermintChannelId.value,
                                      packet.sequence);
    var proof := Proof(signer, chain.sequence, Key(path), None);
    var counted := tx.IncrementSequence(id);
    if counted.None? {
      return None;
    }
    return Some(Built(Acknowledgement(packet.sourceChannel, packet.destinationChannel, packet.sequence, proof),
                      counted.value));
  }

  /** Needs the client state, signs the connection end as the transaction sees it, then counts the sequence up. */
  method MsgConnectionOpenAck(tx: Transaction, id: string, signer: string, chain: Chain,
                              soloMachineConnectionId: string,
                              tendermintClientId: string, tendermintConnectionId: string)
    returns (built: Option<Built>)
    modifies tx
    ensures built.Some? ==>
      && old(tx.view).Lookup(ClientState(tendermintClientId)).Some?
      && old(tx.view).Lookup(Connection(tendermintConnectionId)).Some?
      && built.value.message == ConnectionOpenAck(soloMachineConnectionId, tendermintConnectionId,
           Proof(signer, chain.sequence, Key(Connection(tendermintConnectionId)),
                 old(tx.view).Lookup(Connection(tendermintConnectionId))))
      && SequenceCounted(old(tx.view), tx.view, id, built.value.chain)
    ensures built.Some? <==>
      && old(tx.view).Lookup(ClientState(tendermintClientId)).Some?
      && old(tx.view).Lookup(Connection(tendermintConnectionId)).Some?
      && id in old(tx.view.chains) && old(tx.view.chains[id]).NextSequence().Readable()
  {
    var client := tx.Get(ClientState(tendermintClientId));
    if client.None? {
      return None;
    }
    var connection := tx.Get(Connection(tendermintConnectionId));
    if connection.None? {
      return None;
    }
    var proof := Proof(signer, chain.sequence, Key(Connection(tendermintConnectionId)), connection);
    var counted := tx.IncrementSequence(id);
    if counted.None? {
      return None;
    }
    return Some(Built(ConnectionOpenAck(soloMachineConnectionId, tendermintConnectionId, proof), counted.value));
  }

  /** Signs the channel end as the transaction sees it, then counts the sequence up. */
  method MsgChannelOpenAck(tx: Transaction, id: string, signer: string, chain: Chain, soloMachineChannelId: string,
                           tendermintChannelId: string)
    returns (built: Option<Built>)
    modifies tx
    ensures built.Some? ==>
      && old(tx.view).Lookup(Channel(chain.portId, tendermintChannelId)).Some?
      && built.value.message == ChannelOpenAck(built.value.chain.portId, soloMachineChannelId, tendermintChannelId,
           Proof(signer, chain.sequence, Key(Channel(chain.portId, tendermintChannelId)),
                 old(tx.view).Lookup(Channel(chain.portId, tendermintChannelId))))
      && SequenceCounted(old(tx.view), tx.view, id, built.value.chain)
    ensures built.Some? <==>
      && old(tx.view).Lookup(Channel(chain.portId, tendermintChannelId)).Some?
      && id in old(tx.view.chains) && old(tx.view.chains[id]).NextSequence().Readable()
  {
    var channel := tx.Get(Channel(chain.portId, tendermintChannelId));
    if channel.None? {
      return None;
    }
    var proof := Proof(signer, chain.sequence, Key(Channel(chain.portId, tendermintChannelId)), channel);
    var counted := tx.IncrementSequence(id);
    if counted.None? {
      return None;
    }
    return Some(Built(ChannelOpenAck(counted.value.portId, soloMachineChannelId, tendermintChannelId, proof),
                      counted.value));
  }
}
