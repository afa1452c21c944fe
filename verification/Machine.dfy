/** The calls of the service as interleaved steps on one chain's row
    (solo-machine-core/src/service/ibc_service.rs, solo-machine-core/src/transaction_builder.rs).

    Every step is one access to the database or to the counterparty, in the order in which the call makes
    them; steps of different calls interleave freely. An UPDATE of the chain row holds the row until commit or
    rollback, and a transaction sees its own writes. A call can be dropped between any two steps, which rolls its
    open transaction back: that covers every error return, lost responses and failed commits. The message of a call
    that got no answer may arrive after the call has given up. */
module Machine {
  import opened Wrappers
  import opened Height
  import opened Paths
  import opened Records
  import opened Counterparty

  /** The calls that sign a proof at the row's sequence. */
  datatype Kind =
    | Mint
    | UpdateSigner(newKey: string)
    | Acks(details: Option<ConnectionDetails>, packets: seq<Packet>)

  datatype Phase =
    | Ready                        // in-memory chain loaded, nothing written
    | Signed(message: Message)     // row updated and held, message signed
    | Adrift(message: Message)     // no answer: transaction rolled back, message still on its way
    | Answered(accepted: bool)     // response arrived, transaction still open
    | Recording                    // mint committed, history entry outstanding

  // How far a call of `connect` has come.
  const STARTED := 0
  const SOLO_CLIENT := 1
  const TENDERMINT_CLIENT := 2
  const CONNECTION_INIT := 3
  const CONNECTION_TRY := 4
  const CONNECTION_SIGNED := 5
  const CONNECTION_ACK := 6
  const CONNECTION_CONFIRM := 7
  const CHANNEL_INIT := 8
  const CHANNEL_TRY := 9
  const CHANNEL_SIGNED := 10
  const CHANNEL_ACK := 11
  const CHANNEL_CONFIRM := 12
  const DETAILS_WRITTEN := 13

  /** A running `connect`. Identifiers are meaningful from the stage that obtains them on; `writes` are the
      records its open transaction has put into `ibc_data`. */
  datatype Connect = Connect(
    stage: nat,
    signer: string,
    snapshot: Chain,
    chain: Chain,
    clientId: string,
    tendermintClientId: string,
    height: Height,
    connectionId: string,
    tendermintConnectionId: string,
    channelId: string,
    tendermintChannelId: string,
    writes: map<string, Record>,
    proof: Proof)
  {
    function Details(): ConnectionDetails {
      ConnectionDetails(clientId, tendermintClientId, connectionId, tendermintConnectionId,
                        Some(channelId), Some(tendermintChannelId))
    }

    function ConnectionKey(): string {
      Key(Connection(tendermintConnectionId))
    }

    function ChannelKey(): string {
      Key(Channel(snapshot.portId, tendermintChannelId))
    }

    // ----- one stage further -----

    /** The counterparty has created a solo machine client. */
    function ClientCreated(id: string): Connect {
      this.(stage := SOLO_CLIENT, clientId := id)
    }

    /** INSERT of a record into the open transaction; an existing key makes it fail. */
    function Insert(key: string, record: Record): Connect
      requires key !in writes
    {
      this.(writes := writes[key := record])
    }

    /** The client for the chain `chainId` and its first consensus state can be inserted. */
    predicate CanStoreClient(id: string, at: Height) {
      && Key(ClientState(id)) !in writes
      && Key(ConsensusState(id, at)) !in writes
      && Key(ClientState(id)) != Key(ConsensusState(id, at))
    }

    function ClientStored(chainId: string, id: string, at: Height): Connect
      requires CanStoreClient(id, at)
    {
      Insert(Key(ClientState(id)), ClientRecord(chainId, at))
      .Insert(Key(ConsensusState(id, at)), ConsensusRecord(at))
      .(stage := TENDERMINT_CLIENT, tendermintClientId := id, height := at)
    }

    /** The counterparty has opened its end of the connection or channel. */
    function EndOpened(id: string): Connect {
      if stage == TENDERMINT_CLIENT then this.(stage := CONNECTION_INIT, connectionId := id)
      else this.(stage := CHANNEL_INIT, channelId := id)
    }

    /** The store path of the local end that is inserted next. */
    function TryPath(id: string): StorePath {
      if stage == CONNECTION_INIT then Connection(id) else Channel(chain.portId, id)
    }

    /** That end: in state TryOpen, naming the counterparty's. */
    function TryEnd(): Record {
      if stage == CONNECTION_INIT then ConnectionRecord(TryOpen, tendermintClientId, clientId, connectionId)
      else ChannelRecord(TryOpen, chain.portId, channelId, [tendermintConnectionId])
    }

    function EndTried(id: string): Connect
      requires Key(TryPath(id)) !in writes
    {
      var inserted := Insert(Key(TryPath(id)), TryEnd());
      if stage == CONNECTION_INIT then inserted.(stage := CONNECTION_TRY, tendermintConnectionId := id)
      else inserted.(stage := CHANNEL_TRY, tendermintChannelId := id)
    }

    /** The key of the record whose proof is signed. */
    function AckKey(): string {
      if stage == CONNECTION_TRY then ConnectionKey() else Key(Channel(chain.portId, tendermintChannelId))
    }

    /** The record is signed as the open transaction sees it; `counted` is the updated row. */
    function AckSigned(counted: Chain): Connect
      requires AckKey() in writes
    {
      this.(stage := stage + 1, proof := Proof(signer, chain.sequence, AckKey(), Some(writes[AckKey()])),
            chain := counted)
    }

    /** The key of the local end that is confirmed. */
    function ConfirmKey(): string {
      if stage == CONNECTION_ACK then ConnectionKey() else ChannelKey()
    }

    predicate CanConfirm() {
      && ConfirmKey() in writes
      && (if stage == CONNECTION_ACK then writes[ConfirmKey()].ConnectionRecord?
          else writes[ConfirmKey()].ChannelRecord?)
    }

    /** The local end is read back, set Open and updated. */
    function Confirmed(): Connect
      requires CanConfirm()
    {
      this.(stage := stage + 1, writes := writes[ConfirmKey() := writes[ConfirmKey()].SetState(Open)])
    }

    function DetailsWritten(): Connect {
      this.(stage := DETAILS_WRITTEN, chain := chain.(connectionDetails := Some(Details())))
    }
  }

  datatype Call =
    | Proving(kind: Kind, chain: Chain, phase: Phase)
    | Connecting(connect: Connect)
    | Closing(chain: Chain, blanked: bool)
  {
    /** The call's open transaction has updated the chain row. */
    predicate HoldsRow() {
      match this
      case Proving(_, _, phase) => phase.Signed? || phase.Answered?
      case Connecting(c) => c.stage >= CONNECTION_SIGNED
      case Closing(_, blanked) => blanked
    }

    /** A message that the counterparty may still take. */
    predicate Offers(m: Message) {
      Proving? && (phase == Signed(m) || phase == Adrift(m))
    }

    /** An accepted broadcast whose transaction is still open. */
    predicate InFlight() {
      Proving? && phase == Answered(true)
    }
  }

  /** Counts of accepted broadcasts whose transaction was dropped, the mints among them, acknowledgements committed
      although refused, and all committed acknowledgements. */
  datatype Tally = Tally(lost: nat, lostMints: nat, rejectedAcks: nat, acks: nat)
  {
    /** An accepted broadcast will not be committed. */
    function Lose(kind: Kind): Tally {
      this.(lost := lost + 1, lostMints := lostMints + (if kind.Mint? then 1 else 0))
    }

    /** The call ends without a commit. */
    function AfterDrop(call: Call): Tally {
      if call.InFlight() then Lose(call.kind) else this
    }
  }

  datatype State = State(
    id: string,
    row: Chain,
    keys: set<string>,
    history: nat,
    tally: Tally,
    peer: Peer,
    calls: map<nat, Call>)
  {
    predicate RowIsFree() {
      forall i | i in calls :: !calls[i].HoldsRow()
    }

    function With(i: nat, call: Call): State {
      this.(calls := calls[i := call])
    }

    function Without(i: nat): State {
      this.(calls := calls - {i})
    }
  }

  datatype Event =
    | StartMint(call: nat)
    | StartUpdateSigner(call: nat, newKey: string)
    | StartBurn(call: nat, packets: seq<Packet>)
    | StartConnect(call: nat, signer: string)
    | StartClose(call: nat)
    | Sign(call: nat, signer: string)
    | Broadcast(call: nat, willing: bool)
    | TimeOut(call: nat)
    | Arrive(call: nat, willing: bool)
    | Commit(call: nat)
    | RecordMint(call: nat)
    | Drop(call: nat)
    | CreateSoloMachineClient(call: nat, id: string)
    | CreateTendermintClient(call: nat, id: string, height: Height)
    | OpenInit(call: nat, id: string)
    | OpenTry(call: nat, id: string)
    | SignAck(call: nat)
    | BroadcastAck(call: nat, willing: bool)
    | OpenConfirm(call: nat)
    | WriteDetails(call: nat)
    | CommitConnect(call: nat)
    | BlankDetails(call: nat)
    | CloseInit(call: nat)

  // ----- starting a call: the row is read -----

  predicate CanStart(s: State, i: nat) {
    i !in s.calls && s.row.Readable()
  }

  // ----- calls that sign at the row's sequence -----

  /** The row after the call's increments. */
  function Bumped(row: Chain, kind: Kind): Chain {
    if kind.Mint? then row.NextSequence().NextPacketSequence() else row.NextSequence()
  }

  /** The checks made on the in-memory chain before signing. */
  predicate Signable(s: State, kind: Kind, chain: Chain) {
    match kind
    case Mint => chain.connectionDetails.Some? && chain.connectionDetails.value.HasChannels()
    case UpdateSigner(newKey) => newKey !in s.keys && chain.connectionDetails.Some? && s.row.connectionDetails.Some?
    case Acks(details, packets) =>
      && packets != []
      && details.Some? && details.value.HasChannels()
      && packets[0].sourcePort == chain.portId
      && packets[0].sourceChannel == details.value.soloMachineChannelId.value
      && packets[0].destinationPort == chain.portId
      && packets[0].destinationChannel == details.value.tendermintChannelId.value
      && chain.connectionDetails.Some? && chain.connectionDetails.value.tendermintChannelId.Some?
  }

  /** The message built from the in-memory chain, before it is refreshed from the updated row. */
  function Outgoing(s: State, kind: Kind, chain: Chain, signer: string): Message
    requires Signable(s, kind, chain) && chain.packetSequence >= 0
  {
    match kind
    case Mint =>
      var d := chain.connectionDetails.value;
      var source := d.tendermintChannelId.value;
      RecvPacket(source, d.soloMachineChannelId.value, chain.packetSequence,
                 Proof(signer, chain.sequence, Key(PacketCommitment(chain.portId, source, chain.packetSequence)), None))
    case UpdateSigner(newKey) =>
      UpdateClient(s.row.connectionDetails.value.soloMachineClientId, signer, chain.sequence, newKey)
    case Acks(_, packets) =>
      var p := packets[0];
      var channel := chain.connectionDetails.value.tendermintChannelId.value;
      Acknowledgement(p.sourceChannel, p.destinationChannel, p.sequence,
                      Proof(signer, chain.sequence, Key(PacketAcknowledgement(chain.portId, channel, p.sequence)),
                            None))
  }

  predicate CanSign(s: State, i: nat) {
    && i in s.calls && s.calls[i].Proving? && s.calls[i].phase.Ready?
    && s.RowIsFree()
    && s.calls[i].chain.packetSequence >= 0
    && Signable(s, s.calls[i].kind, s.calls[i].chain)
    && Bumped(s.row, s.calls[i].kind).Readable()
  }

  /** Signs at the in-memory sequence, updates the row and replaces the in-memory chain by the updated row. */
  function DoSign(s: State, i: nat, signer: string): State
    requires CanSign(s, i)
  {
    var call := s.calls[i];
    s.With(i, Proving(call.kind, Bumped(s.row, call.kind), Signed(Outgoing(s, call.kind, call.chain, signer))))
  }

  predicate CanBroadcast(s: State, i: nat) {
    i in s.calls && s.calls[i].Proving? && s.calls[i].phase.Signed?
  }

  function DoBroadcast(s: State, i: nat, willing: bool): State
    requires CanBroadcast(s, i)
  {
    var message := s.calls[i].phase.message;
    var accepted := willing && s.peer.Accepts(message);
    s.(peer := s.peer.Deliver(message, willing)).With(i, s.calls[i].(phase := Answered(accepted)))
  }

  /** No answer within the time limit: the transaction is rolled back, but the message may still be included in a
      block. */
  function DoTimeOut(s: State, i: nat): State
    requires CanBroadcast(s, i)
  {
    s.With(i, s.calls[i].(phase := Adrift(s.calls[i].phase.message)))
  }

  predicate CanArrive(s: State, i: nat) {
    i in s.calls && s.calls[i].Proving? && s.calls[i].phase.Adrift?
  }

  /** The message is included after its call has given up. */
  function DoArrive(s: State, i: nat, willing: bool): State
    requires CanArrive(s, i)
  {
    var message := s.calls[i].phase.message;
    var accepted := willing && s.peer.Accepts(message);
    s.(peer := s.peer.Deliver(message, willing),
       tally := if accepted then s.tally.Lose(s.calls[i].kind) else s.tally).Without(i)
  }

  /** Acknowledgements commit whatever the response says; the others check the response first. */
  predicate CanCommit(s: State, i: nat) {
    && i in s.calls && s.calls[i].Proving? && s.calls[i].phase.Answered?
    && (s.calls[i].phase.accepted || s.calls[i].kind.Acks?)
  }

  function DoCommit(s: State, i: nat): State
    requires CanCommit(s, i)
  {
    var call := s.calls[i];
    var done := s.(row := call.chain);
    match call.kind
    case Mint => done.With(i, call.(phase := Recording))
    case UpdateSigner(newKey) => done.(keys := s.keys + {newKey}).Without(i)
    case Acks(details, packets) =>
      var acked := done.(tally := s.tally.(acks := s.tally.acks + 1));
      if call.phase.accepted then
        acked.With(i, Proving(Acks(details, if packets == [] then [] else packets[1..]), call.chain, Ready))
      else
        acked.(tally := acked.tally.(rejectedAcks := s.tally.rejectedAcks + 1)).Without(i)
  }

  predicate CanRecord(s: State, i: nat) {
    i in s.calls && s.calls[i].Proving? && s.calls[i].phase.Recording?
  }

  /** Rolls an open transaction back and forgets the call. */
  function DoDrop(s: State, i: nat): State
    requires i in s.calls
  {
    s.(tally := s.tally.AfterDrop(s.calls[i])).Without(i)
  }

  // ----- connect -----

  predicate At(s: State, i: nat, stage: nat) {
    i in s.calls && s.calls[i].Connecting? && s.calls[i].connect.stage == stage
  }

  /** A new client on the counterparty starts at the sequence the call has read, with the signer's key. */
  function ClientAtPeer(peer: Peer, c: Connect, id: string): Peer {
    peer.(clients := peer.clients[id := c.chain.sequence], keys := peer.keys[id := c.signer])
  }

  function DoCreateSoloMachineClient(s: State, i: nat, id: string): State
    requires At(s, i, STARTED) && id !in s.peer.clients
  {
    var c := s.calls[i].connect;
    s.(peer := ClientAtPeer(s.peer, c, id)).With(i, Connecting(c.ClientCreated(id)))
  }

  predicate CanCreateTendermintClient(s: State, i: nat, id: string, height: Height) {
    At(s, i, SOLO_CLIENT) && s.calls[i].connect.CanStoreClient(id, height)
  }

  function DoCreateTendermintClient(s: State, i: nat, id: string, height: Height): State
    requires CanCreateTendermintClient(s, i, id, height)
  {
    s.With(i, Connecting(s.calls[i].connect.ClientStored(s.id, id, height)))
  }

  /** The end that the counterparty opens, in state Init, naming the other end's client or port. */
  function EndAtPeer(peer: Peer, c: Connect, id: string): Peer {
    if c.stage == TENDERMINT_CLIENT then
      peer.(connections := peer.connections[id := PeerConnection(Init, c.clientId, c.tendermintClientId, None)])
    else
      peer.(channels := peer.channels[id := PeerChannel(Init, c.chain.portId, c.connectionId, c.chain.portId, None)])
  }

  predicate CanOpenInit(s: State, i: nat, id: string) {
    || (At(s, i, TENDERMINT_CLIENT) && id !in s.peer.connections)
    || (At(s, i, CONNECTION_CONFIRM) && id !in s.peer.channels)
  }

  function DoOpenInit(s: State, i: nat, id: string): State
    requires CanOpenInit(s, i, id)
  {
    var c := s.calls[i].connect;
    s.(peer := EndAtPeer(s.peer, c, id)).With(i, Connecting(c.EndOpened(id)))
  }

  predicate CanOpenTry(s: State, i: nat, id: string) {
    && (At(s, i, CONNECTION_INIT) || At(s, i, CHANNEL_INIT))
    && Key(s.calls[i].connect.TryPath(id)) !in s.calls[i].connect.writes
  }

  function DoOpenTry(s: State, i: nat, id: string): State
    requires CanOpenTry(s, i, id)
  {
    s.With(i, Connecting(s.calls[i].connect.EndTried(id)))
  }

  /** The connection acknowledgement also reads the client state; the first UPDATE of the row waits until no other
      transaction holds it. */
  predicate CanSignAck(s: State, i: nat) {
    || (&& At(s, i, CONNECTION_TRY)
        && Key(ClientState(s.calls[i].connect.tendermintClientId)) in s.calls[i].connect.writes
        && s.calls[i].connect.AckKey() in s.calls[i].connect.writes
        && s.RowIsFree() && s.row.NextSequence().Readable())
    || (&& At(s, i, CHANNEL_TRY)
        && s.calls[i].connect.AckKey() in s.calls[i].connect.writes
        && s.calls[i].connect.chain.NextSequence().Readable())
  }

  /** Signs, then increments the sequence of the row as the open transaction sees it. */
  function DoSignAck(s: State, i: nat): State
    requires CanSignAck(s, i)
  {
    var c := s.calls[i].connect;
    var counted := if c.stage == CONNECTION_TRY then s.row.NextSequence() else c.chain.NextSequence();
    s.With(i, Connecting(c.AckSigned(counted)))
  }

  predicate CanBroadcastAck(s: State, i: nat) {
    At(s, i, CONNECTION_SIGNED) || At(s, i, CHANNEL_SIGNED)
  }

  function AckMessage(c: Connect): Message {
    if c.stage == CONNECTION_SIGNED then ConnectionOpenAck(c.connectionId, c.tendermintConnectionId, c.proof)
    else ChannelOpenAck(c.chain.portId, c.channelId, c.tendermintChannelId, c.proof)
  }

  /** A refused acknowledgement ends the call. */
  function DoBroadcastAck(s: State, i: nat, willing: bool): State
    requires CanBroadcastAck(s, i)
  {
    var c := s.calls[i].connect;
    var t := s.(peer := s.peer.Deliver(AckMessage(c), willing));
    if willing && s.peer.Accepts(AckMessage(c)) then t.With(i, Connecting(c.(stage := c.stage + 1))) else t.Without(i)
  }

  predicate CanOpenConfirm(s: State, i: nat) {
    (At(s, i, CONNECTION_ACK) || At(s, i, CHANNEL_ACK)) && s.calls[i].connect.CanConfirm()
  }

  function DoOpenConfirm(s: State, i: nat): State
    requires CanOpenConfirm(s, i)
  {
    s.With(i, Connecting(s.calls[i].connect.Confirmed()))
  }

  function DoWriteDetails(s: State, i: nat): State
    requires At(s, i, CHANNEL_CONFIRM)
  {
    s.With(i, Connecting(s.calls[i].connect.DetailsWritten()))
  }

  function DoCommitConnect(s: State, i: nat): State
    requires At(s, i, DETAILS_WRITTEN)
  {
    s.(row := s.calls[i].connect.chain).Without(i)
  }

  // ----- close_channel -----

  predicate CanBlankDetails(s: State, i: nat) {
    && i in s.calls && s.calls[i].Closing? && !s.calls[i].blanked
    && s.RowIsFree()
    && s.calls[i].chain.connectionDetails.Some?
    && s.calls[i].chain.connectionDetails.value.HasChannels()
  }

  /** The row is updated with the channel ids taken out, before the counterparty is asked to close. */
  function DoBlankDetails(s: State, i: nat): State
    requires CanBlankDetails(s, i)
  {
    var details := s.calls[i].chain.connectionDetails.value.WithoutChannels();
    s.With(i, Closing(s.row.(connectionDetails := Some(details)), true))
  }

  /** The row is read again inside the same transaction, and its channel id names the channel to close. */
  predicate CanCloseInit(s: State, i: nat) {
    && i in s.calls && s.calls[i].Closing? && s.calls[i].blanked
    && s.calls[i].chain.connectionDetails.Some?
    && s.calls[i].chain.connectionDetails.value.soloMachineChannelId.Some?
  }

  /** The counterparty closes the channel and the call commits. */
  function DoCloseInit(s: State, i: nat): State
    requires CanCloseInit(s, i)
  {
    var channel := s.calls[i].chain.connectionDetails.value.soloMachineChannelId.value;
    var channels := if channel in s.peer.channels then
      s.peer.channels[channel := s.peer.channels[channel].(state := Closed)]
                    else s.peer.channels;
    s.(row := s.calls[i].chain, peer := s.peer.(channels := channels)).Without(i)
  }

  // ----- runs -----

  predicate Enabled(s: State, e: Event) {
    match e
    case StartMint(i) => CanStart(s, i)
    case StartUpdateSigner(i, _) => CanStart(s, i)
    case StartBurn(i, _) => CanStart(s, i)
    case StartConnect(i, _) => CanStart(s, i) && s.row.connectionDetails.None?
    case StartClose(i) => CanStart(s, i)
    case Sign(i, _) => CanSign(s, i)
    case Broadcast(i, _) => CanBroadcast(s, i)
    case TimeOut(i) => CanBroadcast(s, i)
    case Arrive(i, _) => CanArrive(s, i)
    case Commit(i) => CanCommit(s, i)
    case RecordMint(i) => CanRecord(s, i)
    case Drop(i) => i in s.calls
    case CreateSoloMachineClient(i, id) => At(s, i, STARTED) && id !in s.peer.clients
    case CreateTendermintClient(i, id, height) => CanCreateTendermintClient(s, i, id, height)
    case OpenInit(i, id) => CanOpenInit(s, i, id)
    case OpenTry(i, id) => CanOpenTry(s, i, id)
    case SignAck(i) => CanSignAck(s, i)
    case BroadcastAck(i, _) => CanBroadcastAck(s, i)
    case OpenConfirm(i) => CanOpenConfirm(s, i)
    case WriteDetails(i) => At(s, i, CHANNEL_CONFIRM)
    case CommitConnect(i) => At(s, i, DETAILS_WRITTEN)
    case BlankDetails(i) => CanBlankDetails(s, i)
    case CloseInit(i) => CanCloseInit(s, i)
  }

  function NewConnect(chain: Chain, signer: string): Connect {
    Connect(STARTED, signer, chain, chain, "", "", Height(0, 0), "", "", "", "", map[], Proof(signer, 0, "", None))
  }

  function Step(s: State, e: Event): State
    requires Enabled(s, e)
  {
    match e
    case StartMint(i) => s.With(i, Proving(Mint, s.row, Ready))
    case StartUpdateSigner(i, newKey) => s.With(i, Proving(UpdateSigner(newKey), s.row, Ready))
    case StartBurn(i, packets) => s.With(i, Proving(Acks(s.row.connectionDetails, packets), s.row, Ready))
    case StartConnect(i, signer) => s.With(i, Connecting(NewConnect(s.row, signer)))
    case StartClose(i) => s.With(i, Closing(s.row, false))
    case Sign(i, signer) => DoSign(s, i, signer)
    case Broadcast(i, willing) => DoBroadcast(s, i, willing)
    case TimeOut(i) => DoTimeOut(s, i)
    case Arrive(i, willing) => DoArrive(s, i, willing)
    case Commit(i) => DoCommit(s, i)
    case RecordMint(i) => s.(history := s.history + 1).Without(i)
    case Drop(i) => DoDrop(s, i)
    case CreateSoloMachineClient(i, id) => DoCreateSoloMachineClient(s, i, id)
    case CreateTendermintClient(i, id, height) => DoCreateTendermintClient(s, i, id, height)
    case OpenInit(i, id) => DoOpenInit(s, i, id)
    case OpenTry(i, id) => DoOpenTry(s, i, id)
    case SignAck(i) => DoSignAck(s, i)
    case BroadcastAck(i, willing) => DoBroadcastAck(s, i, willing)
    case OpenConfirm(i) => DoOpenConfirm(s, i)
    case WriteDetails(i) => DoWriteDetails(s, i)
    case CommitConnect(i) => DoCommitConnect(s, i)
    case BlankDetails(i) => DoBlankDetails(s, i)
    case CloseInit(i) => DoCloseInit(s, i)
  }

  /** The state `chain add` commits: one key, both counters at the column defaults, nothing connected. The
      counterparty may already hold clients, connections and channels of others. */
  predicate Initial(s: State) {
    && s.row.sequence == 1 && s.row.packetSequence == 1 && s.row.connectionDetails.None?
    && |s.keys| == 1
    && s.history == 0
    && s.tally == Tally(0, 0, 0, 0)
    && s.peer.received == [] && s.peer.acknowledged == []
    && s.calls == map[]
  }

  predicate IsRun(s: State, events: seq<Event>)
    decreases |events|
  {
    events == [] || (Enabled(s, events[0]) && IsRun(Step(s, events[0]), events[1..]))
  }

  function Run(s: State, events: seq<Event>): State
    requires IsRun(s, events)
    decreases |events|
  {
    if events == [] then s else Run(Step(s, events[0]), events[1..])
  }
}
