/** The stages of one `connect` that runs alone: how far its open transaction, the counterparty and the machine's view
    of the call have come together (solo-machine-core/src/service/ibc_service.rs, `connect`). */
module Handshake {
  import opened Wrappers
  import opened Height
  import opened Paths
  import opened Records
  import opened Counterparty
  import opened Machine
  import opened Guarantees
  import opened Invariant
  import opened Sequential
  import opened Database
  import opened System

  /** The tables as the open transaction sees them. */
  ghost function OpenView(base: Tables, id: string, c: Connect): Tables {
    base.(chains := if c.stage < CONNECTION_SIGNED then base.chains else base.chains[id := c.chain],
          ibcData := base.ibcData + c.writes)
  }

  /** The call has written what its stage says over `base`, all of it under new keys. */
  ghost predicate Progress(base: Tables, id: string, c: Connect, view: Tables) {
    && id in base.chains && base.chains[id] == c.snapshot
    && c.snapshot.connectionDetails.None?
    && ConnectChain(c.snapshot, c) && SignedOk(c.snapshot, c)
    && c.writes == Written(id, c) && KeysApart(c)
    && c.writes.Keys !! base.ibcData.Keys
    && view == OpenView(base, id, c)
  }

  /** The same, the counterparty's objects are as far, and the machine gets there from `start` by this call alone. */
  ghost predicate InHandshake(start: State, s: State, base: Tables, c: Connect, view: Tables) {
    && Progress(base, s.id, c, view)
    && s.row == c.snapshot
    && PeerEnds(s.peer, c)
    && ReachesAlone(start, During(s, Connecting(c)))
  }

  /** The four records of a connected chain: its client and first consensus state at a height, and both ends Open. */
  ghost function OpenRecords(id: string, portId: string, d: ConnectionDetails, at: Height): map<string, Record>
    requires d.HasChannels()
  {
    map[Key(ClientState(d.tendermintClientId)) := ClientRecord(id, at),
        Key(ConsensusState(d.tendermintClientId, at)) := ConsensusRecord(at),
        Key(Connection(d.tendermintConnectionId)) :=
          ConnectionRecord(Open, d.tendermintClientId, d.soloMachineClientId, d.soloMachineConnectionId),
        Key(Channel(portId, d.tendermintChannelId.value)) :=
          ChannelRecord(Open, portId, d.soloMachineChannelId.value, [d.tendermintConnectionId])]
  }

  /** What a committed `connect` leaves: a chain that was not connected has these details and a sequence two higher, its
      four records are there under keys that were new, and nothing else changed. */
  ghost predicate Established(before: Tables, after: Tables, id: string, d: ConnectionDetails, at: Height) {
    && id in before.chains && before.chains[id].connectionDetails.None? && d.HasChannels()
    && var row := before.chains[id];
    && after == Tables(before.chains[id := row.(sequence := row.sequence + 2, connectionDetails := Some(d))],
                       before.ibcData + OpenRecords(id, row.portId, d, at), before.chainKeys)
    && OpenRecords(id, row.portId, d, at).Keys !! before.ibcData.Keys
    && Recorded(after.ibcData, id, row.portId, d)
    && after.Lookup(ClientState(d.tendermintClientId)) == Some(ClientRecord(id, at))
    && after.Lookup(ConsensusState(d.tendermintClientId, at)) == Some(ConsensusRecord(at))
  }

  // ----- the tables between calls -----

  ghost predicate IsConnected(t: Tables, id: string) {
    id in t.chains && t.chains[id].connectionDetails.Some?
  }

  /** Every connected chain has complete details and the open records they point to, and no two chains share one. */
  ghost predicate Intact(t: Tables) {
    && (forall id | IsConnected(t, id) ::
          && t.chains[id].connectionDetails.value.HasChannels()
          && Recorded(t.ibcData, id, t.chains[id].portId, t.chains[id].connectionDetails.value))
    && (forall id, id' | IsConnected(t, id) && IsConnected(t, id') && id != id' ::
          KeysOf(t.chains[id].portId, t.chains[id].connectionDetails.value) !!
          KeysOf(t.chains[id'].portId, t.chains[id'].connectionDetails.value))
  }

  /** Counting a row up touches no record and no details. */
  lemma CountingKeepsIntact(t: Tables, id: string, row: Chain)
    requires Intact(t) && id in t.chains
    requires row.portId == t.chains[id].portId && row.connectionDetails == t.chains[id].connectionDetails
    ensures Intact(t.WithRow(id, row))
  {
    var u := t.WithRow(id, row);
    assert forall a | IsConnected(u, a) :: IsConnected(t, a);
  }

  lemma NewChainKeepsIntact(t: Tables, id: string, row: Chain)
    requires Intact(t) && id !in t.chains && row.connectionDetails.None?
    ensures Intact(t.WithRow(id, row))
  {
    var u := t.WithRow(id, row);
    assert forall a | IsConnected(u, a) :: IsConnected(t, a) && a != id;
  }

  lemma RecordsStay(before: map<string, Record>, after: map<string, Record>, id: string, portId: string,
                    d: ConnectionDetails)
    requires d.HasChannels() && Recorded(before, id, portId, d)
    requires forall key | key in before :: key in after && after[key] == before[key]
    ensures Recorded(after, id, portId, d) && KeysOf(portId, d) <= before.Keys
  {
  }

  lemma OthersStayConnected(before: Tables, after: Tables, id: string, d: ConnectionDetails, at: Height, a: string)
    requires Intact(before) && Established(before, after, id, d, at) && IsConnected(after, a) && a != id
    ensures IsConnected(before, a) && after.chains[a] == before.chains[a]
    ensures after.chains[a].connectionDetails.value.HasChannels()
    ensures Recorded(after.ibcData, a, after.chains[a].portId, after.chains[a].connectionDetails.value)
    ensures KeysOf(after.chains[a].portId, after.chains[a].connectionDetails.value) <= before.ibcData.Keys
  {
    assert IsConnected(before, a);
    RecordsStay(before.ibcData, after.ibcData, a, before.chains[a].portId, before.chains[a].connectionDetails.value);
  }

  lemma EstablishedKeepsIntact(before: Tables, after: Tables, id: string, d: ConnectionDetails, at: Height)
    requires Intact(before) && Established(before, after, id, d, at)
    ensures Intact(after)
  {
    forall a | IsConnected(after, a)
      ensures after.chains[a].connectionDetails.value.HasChannels()
      ensures Recorded(after.ibcData, a, after.chains[a].portId, after.chains[a].connectionDetails.value)
    {
      if a != id {
        OthersStayConnected(before, after, id, d, at, a);
      }
    }
    forall a, b | IsConnected(after, a) && IsConnected(after, b) && a != b
      ensures KeysOf(after.chains[a].portId, after.chains[a].connectionDetails.value) !!
              KeysOf(after.chains[b].portId, after.chains[b].connectionDetails.value)
    {
      if a != id {
        OthersStayConnected(before, after, id, d, at, a);
      }
      if b != id {
        OthersStayConnected(before, after, id, d, at, b);
      }
    }
  }

  // ----- the transaction -----

  lemma ClientProgress(base: Tables, id: string, c: Connect, view: Tables, client: string, at: Height)
    requires Progress(base, id, c, view) && c.stage == SOLO_CLIENT
    requires Key(ClientState(client)) !in view.ibcData && Key(ConsensusState(client, at)) !in view.ibcData
    requires Key(ClientState(client)) != Key(ConsensusState(client, at))
    ensures c.CanStoreClient(client, at)
    ensures Progress(base, id, c.ClientStored(id, client, at),
                     view.(ibcData := view.ibcData[Key(ClientState(client)) := ClientRecord(id, at)]
                                                  [Key(ConsensusState(client, at)) := ConsensusRecord(at)]))
  {
  }

  lemma TryProgress(base: Tables, id: string, c: Connect, view: Tables, end: string)
    requires Progress(base, id, c, view) && (c.stage == CONNECTION_INIT || c.stage == CHANNEL_INIT)
    requires Key(c.TryPath(end)) !in view.ibcData
    ensures Key(c.TryPath(end)) !in c.writes
    ensures Progress(base, id, c.EndTried(end), view.(ibcData := view.ibcData[Key(c.TryPath(end)) := c.TryEnd()]))
  {
  }

  /** Records of different kinds are never stored under the same key, whatever the identifiers. */
  lemma KindsApart(client: string, at: Height, connection: string, portId: string, channel: string)
    ensures Key(ClientState(client)) != Key(ConsensusState(client, at))
    ensures Key(Connection(connection)) != Key(ClientState(client))
    ensures Key(Connection(connection)) != Key(ConsensusState(client, at))
    ensures Key(Channel(portId, channel)) != Key(ClientState(client))
    ensures Key(Channel(portId, channel)) != Key(ConsensusState(client, at))
    ensures Key(Channel(portId, channel)) != Key(Connection(connection))
  {
    KeyText(ClientState(client));
    KeyText(ConsensusState(client, at));
    KeyText(Connection(connection));
    KeyText(Channel(portId, channel));
    var n := |"clients/"| + |client|;
    assert Key(ClientState(client))[n + 2] == 'l' && Key(ConsensusState(client, at))[n + 2] == 'o';
    assert Key(ClientState(client))[1] == 'l' && Key(ConsensusState(client, at))[1] == 'l';
    assert Key(Connection(connection))[1] == 'o' && Key(Channel(portId, channel))[1] == 'h';
  }

  /** So an end can be inserted exactly if its key is not in the committed store. */
  lemma TryIsNew(base: Tables, id: string, c: Connect, view: Tables, end: string)
    requires Progress(base, id, c, view) && (c.stage == CONNECTION_INIT || c.stage == CHANNEL_INIT)
    ensures Key(c.TryPath(end)) in view.ibcData <==> Key(c.TryPath(end)) in base.ibcData
  {
    KindsApart(c.tendermintClientId, c.height, end, c.chain.portId, end);
    KindsApart(c.tendermintClientId, c.height, c.tendermintConnectionId, c.chain.portId, end);
  }

  lemma SignProgress(base: Tables, id: string, c: Connect, view: Tables)
    requires Progress(base, id, c, view) && (c.stage == CONNECTION_TRY || c.stage == CHANNEL_TRY)
    requires c.chain.NextSequence().Readable()
    ensures view.chains[id] == c.chain
    ensures c.AckKey() in c.writes && c.AckKey() in view.ibcData && view.ibcData[c.AckKey()] == c.writes[c.AckKey()]
    ensures Key(ClientState(c.tendermintClientId)) in view.ibcData
    ensures Progress(base, id, c.AckSigned(c.chain.NextSequence()), view.WithRow(id, c.chain.NextSequence()))
  {
  }

  lemma ConfirmProgress(base: Tables, id: string, c: Connect, view: Tables)
    requires Progress(base, id, c, view) && (c.stage == CONNECTION_ACK || c.stage == CHANNEL_ACK)
    ensures c.CanConfirm() && c.ConfirmKey() in view.ibcData && view.ibcData[c.ConfirmKey()] == c.writes[c.ConfirmKey()]
    ensures Progress(base, id, c.Confirmed(),
                     view.(ibcData := view.ibcData[c.ConfirmKey() := c.writes[c.ConfirmKey()].SetState(Open)]))
  {
  }

  lemma DetailsProgress(base: Tables, id: string, c: Connect, view: Tables)
    requires Progress(base, id, c, view) && c.stage == CHANNEL_CONFIRM
    ensures view.chains[id] == c.chain
    ensures Progress(base, id, c.DetailsWritten(), view.WithRow(id, c.DetailsWritten().chain))
  {
  }

  lemma CommitEstablishes(base: Tables, id: string, c: Connect, view: Tables)
    requires Progress(base, id, c, view) && c.stage == DETAILS_WRITTEN
    ensures Established(base, view, id, c.Details(), c.height)
  {
  }

  // ----- the steps -----

  lemma BeginHandshake(s: State, base: Tables, signer: string)
    requires s.id in base.chains && base.chains[s.id] == s.row && s.calls == map[]
    requires s.row.Readable() && s.row.connectionDetails.None?
    ensures InHandshake(s, s, base, NewConnect(s.row, signer), base)
  {
    AloneStart(s);
    assert Idle(s) == s;
    AloneBegin(s, s, StartConnect(0, signer), Connecting(NewConnect(s.row, signer)));
    assert base.ibcData + map[] == base.ibcData;
  }

  /** A failure at any stage leaves the committed state as it was. */
  lemma GiveUp(start: State, s: State, c: Connect)
    requires ReachesAlone(start, During(s, Connecting(c)))
    ensures ReachesAlone(start, Idle(s))
  {
    AloneDrop(start, s, Connecting(c));
  }

  lemma SoloClientStep(start: State, s: State, base: Tables, c: Connect, view: Tables, client: string)
    requires InHandshake(start, s, base, c, view) && c.stage == STARTED && client !in s.peer.clients
    ensures InHandshake(start, s.(peer := ClientAtPeer(s.peer, c, client)), base, c.ClientCreated(client), view)
  {
    var t := During(s, Connecting(c));
    AloneStep(start, t, CreateSoloMachineClient(0, client));
    assert Step(t, CreateSoloMachineClient(0, client)) ==
      During(s.(peer := ClientAtPeer(s.peer, c, client)), Connecting(c.ClientCreated(client)));
  }

  lemma TendermintClientStep(start: State, s: State, base: Tables, c: Connect, view: Tables, client: string, at: Height)
    requires InHandshake(start, s, base, c, view) && c.stage == SOLO_CLIENT
    requires Key(ClientState(client)) !in view.ibcData && Key(ConsensusState(client, at)) !in view.ibcData
    requires Key(ClientState(client)) != Key(ConsensusState(client, at))
    ensures c.CanStoreClient(client, at)
    ensures InHandshake(start, s, base, c.ClientStored(s.id, client, at),
                        view.(ibcData := view.ibcData[Key(ClientState(client)) := ClientRecord(s.id, at)]
                                                     [Key(ConsensusState(client, at)) := ConsensusRecord(at)]))
  {
    ClientProgress(base, s.id, c, view, client, at);
    var t := During(s, Connecting(c));
    AloneStep(start, t, CreateTendermintClient(0, client, at));
    assert Step(t, CreateTendermintClient(0, client, at)) == During(s, Connecting(c.ClientStored(s.id, client, at)));
  }

  lemma ReachOpenInit(start: State, s: State, c: Connect, end: string)
    requires ReachesAlone(start, During(s, Connecting(c)))
    requires || (c.stage == TENDERMINT_CLIENT && end !in s.peer.connections)
             || (c.stage == CONNECTION_CONFIRM && end !in s.peer.channels)
    ensures ReachesAlone(start, During(s.(peer := EndAtPeer(s.peer, c, end)), Connecting(c.EndOpened(end))))
  {
    var t := During(s, Connecting(c));
    assert DoOpenInit(t, 0, end) == During(s.(peer := EndAtPeer(s.peer, c, end)), Connecting(c.EndOpened(end)));
    AloneStep(start, t, OpenInit(0, end));
  }

  lemma OpenInitStep(start: State, s: State, base: Tables, c: Connect, view: Tables, end: string)
    requires InHandshake(start, s, base, c, view)
    requires || (c.stage == TENDERMINT_CLIENT && end !in s.peer.connections)
             || (c.stage == CONNECTION_CONFIRM && end !in s.peer.channels)
    ensures InHandshake(start, s.(peer := EndAtPeer(s.peer, c, end)), base, c.EndOpened(end), view)
  {
    ReachOpenInit(start, s, c, end);
  }

  lemma ReachOpenTry(start: State, s: State, c: Connect, end: string)
    requires ReachesAlone(start, During(s, Connecting(c))) && (c.stage == CONNECTION_INIT || c.stage == CHANNEL_INIT)
    requires Key(c.TryPath(end)) !in c.writes
    ensures ReachesAlone(start, During(s, Connecting(c.EndTried(end))))
  {
    var t := During(s, Connecting(c));
    AloneStep(start, t, OpenTry(0, end));
    assert Step(t, OpenTry(0, end)) == During(s, Connecting(c.EndTried(end)));
  }

  lemma OpenTryStep(start: State, s: State, base: Tables, c: Connect, view: Tables, end: string)
    requires InHandshake(start, s, base, c, view) && (c.stage == CONNECTION_INIT || c.stage == CHANNEL_INIT)
    requires Key(c.TryPath(end)) !in view.ibcData
    ensures Key(c.TryPath(end)) !in c.writes
    ensures InHandshake(start, s, base, c.EndTried(end),
                        view.(ibcData := view.ibcData[Key(c.TryPath(end)) := c.TryEnd()]))
  {
    TryProgress(base, s.id, c, view, end);
    ReachOpenTry(start, s, c, end);
  }

  lemma ReachSign(start: State, s: State, c: Connect)
    requires ReachesAlone(start, During(s, Connecting(c))) && (c.stage == CONNECTION_TRY || c.stage == CHANNEL_TRY)
    requires c.AckKey() in c.writes && c.chain.NextSequence().Readable()
    requires c.stage == CONNECTION_TRY ==> Key(ClientState(c.tendermintClientId)) in c.writes && c.chain == s.row
    ensures ReachesAlone(start, During(s, Connecting(c.AckSigned(c.chain.NextSequence()))))
  {
    var t := During(s, Connecting(c));
    AloneStep(start, t, SignAck(0));
    assert Step(t, SignAck(0)) == During(s, Connecting(c.AckSigned(c.chain.NextSequence())));
  }

  lemma SignStep(start: State, s: State, base: Tables, c: Connect, view: Tables)
    requires InHandshake(start, s, base, c, view) && (c.stage == CONNECTION_TRY || c.stage == CHANNEL_TRY)
    requires c.chain.NextSequence().Readable()
    ensures view.chains[s.id] == c.chain
    ensures c.AckKey() in c.writes && c.AckKey() in view.ibcData && view.ibcData[c.AckKey()] == c.writes[c.AckKey()]
    ensures Key(ClientState(c.tendermintClientId)) in view.ibcData
    ensures InHandshake(start, s, base, c.AckSigned(c.chain.NextSequence()), view.WithRow(s.id, c.chain.NextSequence()))
  {
    SignProgress(base, s.id, c, view);
    ReachSign(start, s, c);
  }

  lemma BroadcastAckOutcome(s: State, c: Connect, willing: bool)
    requires c.stage == CONNECTION_SIGNED || c.stage == CHANNEL_SIGNED
    ensures var t := s.(peer := s.peer.Deliver(AckMessage(c), willing));
      DoBroadcastAck(During(s, Connecting(c)), 0, willing) ==
        if willing && s.peer.Accepts(AckMessage(c)) then During(t, Connecting(c.(stage := c.stage + 1))) else Idle(t)
  {
  }

  lemma ReachBroadcast(start: State, s: State, c: Connect, willing: bool)
    requires ReachesAlone(start, During(s, Connecting(c)))
    requires c.stage == CONNECTION_SIGNED || c.stage == CHANNEL_SIGNED
    ensures var t := s.(peer := s.peer.Deliver(AckMessage(c), willing));
      if willing && s.peer.Accepts(AckMessage(c)) then
        ReachesAlone(start, During(t, Connecting(c.(stage := c.stage + 1))))
      else ReachesAlone(start, Idle(t))
  {
    AloneStep(start, During(s, Connecting(c)), BroadcastAck(0, willing));
    BroadcastAckOutcome(s, c, willing);
  }

  /** A willing counterparty accepts each acknowledgement of a `connect` that runs alone. */
  lemma AckIsAccepted(start: State, s: State, base: Tables, c: Connect, view: Tables)
    requires InHandshake(start, s, base, c, view)
    requires c.stage == CONNECTION_SIGNED || c.stage == CHANNEL_SIGNED
    ensures s.peer.Accepts(AckMessage(c))
  {
  }

  /** Accepted acknowledgements take the call one stage further; if the counterparty is not willing, the call ends. */
  lemma BroadcastStep(start: State, s: State, base: Tables, c: Connect, view: Tables, willing: bool)
    requires InHandshake(start, s, base, c, view) && (c.stage == CONNECTION_SIGNED || c.stage == CHANNEL_SIGNED)
    ensures var t := s.(peer := s.peer.Deliver(AckMessage(c), willing));
      && s.peer.Accepts(AckMessage(c))
      && (willing ==> InHandshake(start, t, base, c.(stage := c.stage + 1), view))
      && ReachesAlone(start, Idle(t))
  {
    AckIsAccepted(start, s, base, c, view);
    ReachBroadcast(start, s, c, willing);
    if willing {
      GiveUp(start, s.(peer := s.peer.Deliver(AckMessage(c), willing)), c.(stage := c.stage + 1));
    }
  }

  lemma ReachConfirm(start: State, s: State, c: Connect)
    requires ReachesAlone(start, During(s, Connecting(c))) && (c.stage == CONNECTION_ACK || c.stage == CHANNEL_ACK)
    requires c.CanConfirm()
    ensures ReachesAlone(start, During(s, Connecting(c.Confirmed())))
  {
    var t := During(s, Connecting(c));
    AloneStep(start, t, OpenConfirm(0));
    assert Step(t, OpenConfirm(0)) == During(s, Connecting(c.Confirmed()));
  }

  lemma ConfirmStep(start: State, s: State, base: Tables, c: Connect, view: Tables)
    requires InHandshake(start, s, base, c, view) && (c.stage == CONNECTION_ACK || c.stage == CHANNEL_ACK)
    ensures c.CanConfirm() && c.ConfirmKey() in view.ibcData && view.ibcData[c.ConfirmKey()] == c.writes[c.ConfirmKey()]
    ensures InHandshake(start, s, base, c.Confirmed(),
                        view.(ibcData := view.ibcData[c.ConfirmKey() := c.writes[c.ConfirmKey()].SetState(Open)]))
  {
    ConfirmProgress(base, s.id, c, view);
    ReachConfirm(start, s, c);
  }

  lemma ReachCommit(start: State, s: State, c: Connect)
    requires ReachesAlone(start, During(s, Connecting(c))) && c.stage == CHANNEL_CONFIRM
    ensures ReachesAlone(start, Idle(s.(row := c.DetailsWritten().chain)))
  {
    var t, u := During(s, Connecting(c)), During(s, Connecting(c.DetailsWritten()));
    assert DoWriteDetails(t, 0) == u;
    AloneStep(start, t, WriteDetails(0));
    assert DoCommitConnect(u, 0) == Idle(s.(row := c.DetailsWritten().chain));
    AloneStep(start, u, CommitConnect(0));
  }

  /** Writing the details and committing. */
  lemma FinishSteps(start: State, s: State, base: Tables, c: Connect, view: Tables)
    requires InHandshake(start, s, base, c, view) && c.stage == CHANNEL_CONFIRM
    ensures var row := c.DetailsWritten().chain;
      && view.chains[s.id].(connectionDetails := Some(c.Details())) == row
      && Established(base, view.WithRow(s.id, row), s.id, c.Details(), c.height)
      && ReachesAlone(start, Idle(s.(row := row)))
      && ReachesAlone(start, Idle(s))
  {
    GiveUp(start, s, c);
    DetailsProgress(base, s.id, c, view);
    CommitEstablishes(base, s.id, c.DetailsWritten(), view.WithRow(s.id, c.DetailsWritten().chain));
    ReachCommit(start, s, c);
  }

  // ----- a connect whose requests are all granted commits -----

  /** Identifiers that nobody has used: new at the counterparty, and well-formed and new in the store. */
  ghost predicate Unused(s: State, base: Tables, d: ConnectionDetails, at: Height) {
    && d.HasChannels()
    && d.soloMachineClientId !in s.peer.clients
    && d.soloMachineConnectionId !in s.peer.connections
    && d.soloMachineChannelId.value !in s.peer.channels
    && ClientState(d.tendermintClientId).Valid() && Key(ClientState(d.tendermintClientId)) !in base.ibcData
    && ConsensusState(d.tendermintClientId, at).Valid() &&
      Key(ConsensusState(d.tendermintClientId, at)) !in base.ibcData
    && Connection(d.tendermintConnectionId).Valid() && Key(Connection(d.tendermintConnectionId)) !in base.ibcData
    && Channel(s.row.portId, d.tendermintChannelId.value).Valid() &&
      Key(Channel(s.row.portId, d.tendermintChannelId.value)) !in base.ibcData
  }

  /** By injectivity of the printed paths the four records do not get in each other's way. */
  lemma UnusedKeysApart(s: State, base: Tables, d: ConnectionDetails, at: Height)
    requires Unused(s, base, d, at)
    ensures var client, consensus := Key(ClientState(d.tendermintClientId)),
      Key(ConsensusState(d.tendermintClientId, at));
      var connection, channel := Key(Connection(d.tendermintConnectionId)),
        Key(Channel(s.row.portId, d.tendermintChannelId.value));
      client != consensus && connection !in {client, consensus} && channel !in {client, consensus, connection}
  {
    var client, consensus := ClientState(d.tendermintClientId), ConsensusState(d.tendermintClientId, at);
    var connection, channel := Connection(d.tendermintConnectionId), Channel(s.row.portId, d.tendermintChannelId.value);
    if Key(client) == Key(consensus) { KeyInjective(client, consensus); }
    if Key(connection) == Key(client) { KeyInjective(connection, client); }
    if Key(connection) == Key(consensus) { KeyInjective(connection, consensus); }
    if Key(channel) == Key(client) { KeyInjective(channel, client); }
    if Key(channel) == Key(consensus) { KeyInjective(channel, consensus); }
    if Key(channel) == Key(connection) { KeyInjective(channel, connection); }
  }

  lemma BroadcastGranted(start: State, s: State, base: Tables, c: Connect, view: Tables) returns (t: State)
    requires InHandshake(start, s, base, c, view)
    requires c.stage == CONNECTION_SIGNED || c.stage == CHANNEL_SIGNED
    ensures InHandshake(start, t, base, c.(stage := c.stage + 1), view) && t == s.(peer := t.peer)
    ensures c.stage == CONNECTION_SIGNED ==> t.peer.channels == s.peer.channels
  {
    BroadcastStep(start, s, base, c, view, true);
    t := s.(peer := s.peer.Deliver(AckMessage(c), true));
  }

  /** Sign, broadcast, confirm. */
  lemma AckGranted(start: State, s: State, base: Tables, c: Connect, view: Tables)
    returns (t: State, d: Connect, next: Tables)
    requires InHandshake(start, s, base, c, view) && (c.stage == CONNECTION_TRY || c.stage == CHANNEL_TRY)
    requires c.chain.NextSequence().Readable()
    ensures InHandshake(start, t, base, d, next) && d.stage == c.stage + 3 && t == s.(peer := t.peer)
    ensures c.stage == CONNECTION_TRY ==> t.peer.channels == s.peer.channels
    ensures d.Details() == c.Details() && d.snapshot == c.snapshot && d.height == c.height
    ensures next.ibcData.Keys == view.ibcData.Keys
    ensures d.chain == c.chain.NextSequence()
  {
    SignStep(start, s, base, c, view);
    d, next := c.AckSigned(c.chain.NextSequence()), view.WithRow(s.id, c.chain.NextSequence());
    t := BroadcastGranted(start, s, base, d, next);
    d := d.(stage := d.stage + 1);
    ConfirmStep(start, t, base, d, next);
    next := next.(ibcData := next.ibcData[d.ConfirmKey() := d.writes[d.ConfirmKey()].SetState(Open)]);
    d := d.Confirmed();
  }

  lemma ClientsGranted(s: State, base: Tables, signer: string, d: ConnectionDetails, at: Height)
    returns (t: State, c: Connect, view: Tables)
    requires s.id in base.chains && base.chains[s.id] == s.row && s.calls == map[]
    requires s.row.Readable() && s.row.connectionDetails.None? && Unused(s, base, d, at)
    ensures InHandshake(s, t, base, c, view) && c.stage == TENDERMINT_CLIENT && t == s.(peer := t.peer)
    ensures t.peer.connections == s.peer.connections && t.peer.channels == s.peer.channels
    ensures c.clientId == d.soloMachineClientId && c.tendermintClientId == d.tendermintClientId && c.chain == s.row
    ensures c.height == at
    ensures view.ibcData.Keys ==
      base.ibcData.Keys + {Key(ClientState(d.tendermintClientId)), Key(ConsensusState(d.tendermintClientId, at))}
  {
    UnusedKeysApart(s, base, d, at);
    BeginHandshake(s, base, signer);
    c, view := NewConnect(s.row, signer), base;
    SoloClientStep(s, s, base, c, view, d.soloMachineClientId);
    t := s.(peer := ClientAtPeer(s.peer, c, d.soloMachineClientId));
    c := c.ClientCreated(d.soloMachineClientId);
    TendermintClientStep(s, t, base, c, view, d.tendermintClientId, at);
    view := view.(ibcData := view.ibcData[Key(ClientState(d.tendermintClientId)) := ClientRecord(s.id, at)]
                                         [Key(ConsensusState(d.tendermintClientId, at)) := ConsensusRecord(at)]);
    c := c.ClientStored(s.id, d.tendermintClientId, at);
  }

  lemma ConnectionGranted(s: State, base: Tables, signer: string, d: ConnectionDetails, at: Height)
    returns (t: State, c: Connect, view: Tables)
    requires s.id in base.chains && base.chains[s.id] == s.row && s.calls == map[] && s.row.Readable()
    requires s.row.connectionDetails.None? && s.row.sequence + 2 <= U32_MAX && Unused(s, base, d, at)
    ensures InHandshake(s, t, base, c, view) && c.stage == CONNECTION_CONFIRM && t == s.(peer := t.peer)
    ensures t.peer.channels == s.peer.channels
    ensures c.clientId == d.soloMachineClientId && c.tendermintClientId == d.tendermintClientId
    ensures c.connectionId == d.soloMachineConnectionId && c.tendermintConnectionId == d.tendermintConnectionId
    ensures c.chain == s.row.NextSequence() && c.height == at
    ensures Key(Channel(s.row.portId, d.tendermintChannelId.value)) !in view.ibcData
  {
    UnusedKeysApart(s, base, d, at);
    t, c, view := ClientsGranted(s, base, signer, d, at);
    OpenInitStep(s, t, base, c, view, d.soloMachineConnectionId);
    t, c := t.(peer := EndAtPeer(t.peer, c, d.soloMachineConnectionId)), c.EndOpened(d.soloMachineConnectionId);
    OpenTryStep(s, t, base, c, view, d.tendermintConnectionId);
    view := view.(ibcData := view.ibcData[Key(c.TryPath(d.tendermintConnectionId)) := c.TryEnd()]);
    c := c.EndTried(d.tendermintConnectionId);
    t, c, view := AckGranted(s, t, base, c, view);
  }

  /** From every state with nothing running and nothing connected, given room for two more sequences and identifiers
      that are not in use, a `connect` whose requests are all granted commits, and the connection it leaves is
      established. */
  lemma ConnectCanSucceed(s: State, base: Tables, signer: string, d: ConnectionDetails, at: Height)
    returns (t: State, after: Tables)
    requires s.id in base.chains && base.chains[s.id] == s.row && s.calls == map[] && s.row.Readable()
    requires s.row.connectionDetails.None? && s.row.sequence + 2 <= U32_MAX && Unused(s, base, d, at)
    ensures ReachesAlone(s, t) && t.calls == map[] && Established(base, after, s.id, d, at)
    ensures t == s.(row := after.chains[s.id], peer := t.peer) && t.row.connectionDetails == Some(d)
  {
    var c, view;
    t, c, view := ConnectionGranted(s, base, signer, d, at);
    OpenInitStep(s, t, base, c, view, d.soloMachineChannelId.value);
    t, c := t.(peer := EndAtPeer(t.peer, c, d.soloMachineChannelId.value)), c.EndOpened(d.soloMachineChannelId.value);
    OpenTryStep(s, t, base, c, view, d.tendermintChannelId.value);
    view := view.(ibcData := view.ibcData[Key(c.TryPath(d.tendermintChannelId.value)) := c.TryEnd()]);
    c := c.EndTried(d.tendermintChannelId.value);
    t, c, view := AckGranted(s, t, base, c, view);
    FinishSteps(s, t, base, c, view);
    t, after := Idle(t.(row := c.DetailsWritten().chain)), view.WithRow(s.id, c.DetailsWritten().chain);
  }

  lemma FirstPathsAreValid()
    ensures ClientState("07-tendermint-0").Valid() && ConsensusState("07-tendermint-0", Height(0, 1)).Valid()
    ensures Connection("connection-0").Valid() && Channel("transfer", "channel-0").Valid()
  {
  }

  /** So there are reachable connected states. */
  lemma SomeChainIsConnected() returns (t: State)
    ensures Reachable(t) && Inv(t) && t.calls == map[] && t.row.connectionDetails.Some? && t.tally == Tally(0, 0, 0, 0)
  {
    var row := Chain("transfer", 1, 1, None);
    var s := State("chain-1", row, {"key"}, 0, Tally(0, 0, 0, 0), Peer(map[], map[], map[], map[], [], []), map[]);
    var d := ConnectionDetails("06-solomachine-0", "07-tendermint-0", "connection-0", "connection-0",
                               Some("channel-0"), Some("channel-0"));
    var after;
    var base := Tables(map["chain-1" := row], map[], map[]);
    FirstPathsAreValid();
    assert Unused(s, base, d, Height(0, 1));
    t, after := ConnectCanSucceed(s, base, "key", d, Height(0, 1));
    InitialInv(s);
    AloneStart(s);
    CallsStayReachable(s, s, t);
  }
}
