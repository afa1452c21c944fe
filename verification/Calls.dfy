/** What the calls of the service do (solo-machine-core/src/service/ibc_service.rs), as functions of the state they
    start from and of what the world decides: which messages they send, what is committed, and what the counterparty has
    at the end. */
module Calls {
  import opened Wrappers
  import opened Height
  import opened Paths
  import opened Records
  import opened Counterparty
  import opened Machine
  import opened Database
  import opened Identifier

  /** What becomes of one signed message: whether its building succeeds (signer, account query, latest height), whether
      the counterparty is willing, whether its answer gets back, and whether the commit that follows succeeds. */
  datatype World = World(builds: bool, willing: bool, answers: bool, commits: bool)

  /** An acknowledgement that was committed: for which packet, the signed message, and the response. */
  datatype CommittedAck = CommittedAck(packet: Packet, message: Message, accepted: bool)

  function Messages(acks: seq<CommittedAck>): seq<Message> {
    seq(|acks|, k requires 0 <= k < |acks| => acks[k].message)
  }

  /** Two maps agree on every key but one. */
  ghost predicate SameBut<V>(a: map<string, V>, b: map<string, V>, key: string) {
    forall k | k != key :: (k in a <==> k in b) && (k in a ==> a[k] == b[k])
  }

  /** The history of the operations table with one more mint of a chain, if it was entered. */
  function Entered(mints: map<string, nat>, id: string, entered: bool): map<string, nat>
    requires entered ==> id in mints
  {
    if entered then mints[id := mints[id] + 1] else mints
  }

  /** Messages were added, all of them signed with this key. */
  predicate SignedBy(before: seq<Message>, after: seq<Message>, signer: string) {
    before <= after && forall m | m in after[|before|..] :: m.Signer() == signer
  }

  lemma WithRowTwice(t: Tables, id: string, a: Chain, b: Chain)
    ensures t.WithRow(id, a).WithRow(id, b) == t.WithRow(id, b)
    ensures id in t.chains ==> t.WithRow(id, t.chains[id]) == t
  {
  }

  lemma NothingAdvanced(t: Tables, id: string)
    requires id in t.chains
    ensures t.WithRow(id, t.chains[id].Advance(0)) == t
  {
    assert t.chains[id].Advance(0) == t.chains[id];
  }

  lemma SuffixStep<T>(xs: seq<T>, n: nat)
    requires n < |xs|
    ensures xs[n..] != [] && xs[n..][0] == xs[n] && xs[n..][1..] == xs[n + 1..]
  {
  }

  /** The signed packet of a mint, sent over the connected channel under the row's counters. */
  function PacketFor(chain: Chain, details: ConnectionDetails, signer: string): Message
    requires details.HasChannels() && chain.packetSequence >= 0
  {
    var source, n := details.tendermintChannelId.value, chain.packetSequence;
    RecvPacket(source, details.soloMachineChannelId.value, n,
               Proof(signer, chain.sequence, Key(PacketCommitment(chain.portId, source, n)), None))
  }

  /** The new key's header, signed with the old one, for the client that the row names. */
  function HeaderFor(chain: Chain, signer: string, newKey: string): Message
    requires chain.connectionDetails.Some?
  {
    UpdateClient(chain.connectionDetails.value.soloMachineClientId, signer, chain.sequence, newKey)
  }

  // ----- acknowledging packets -----

  /** There is a connected channel. */
  predicate CanAck(chain: Chain) {
    chain.connectionDetails.Some? && chain.connectionDetails.value.HasChannels()
  }

  /** The packet belongs to the connected channel. */
  predicate OnChannel(chain: Chain, details: ConnectionDetails, packet: Packet) {
    && packet.sourcePort == chain.portId
    && Some(packet.sourceChannel) == details.soloMachineChannelId
    && packet.destinationPort == chain.portId
    && Some(packet.destinationChannel) == details.tendermintChannelId
  }

  /** The signed acknowledgement of a packet. */
  function AckFor(chain: Chain, details: ConnectionDetails, signer: string, packet: Packet): Message
    requires details.HasChannels()
  {
    Acknowledgement(packet.sourceChannel, packet.destinationChannel, packet.sequence,
                    Proof(signer, chain.sequence,
                          Key(PacketAcknowledgement(chain.portId, details.tendermintChannelId.value, packet.sequence)),
                          None))
  }

  /** The packet is acknowledged: it is on the channel, the row can be counted up, and the building succeeds. */
  predicate AckSigned(chain: Chain, details: ConnectionDetails, packet: Packet, w: World) {
    OnChannel(chain, details, packet) && chain.NextSequence().Readable() && w.builds
  }

  /** The acknowledgement is committed. What the answer says does not matter. */
  predicate AckCommitted(chain: Chain, details: ConnectionDetails, packet: Packet, w: World) {
    AckSigned(chain, details, packet, w) && w.answers && w.commits
  }

  lemma SameMessages(acks: seq<CommittedAck>, others: seq<CommittedAck>, k: nat)
    requires k <= |acks| && k <= |others| && acks[..k] == others[..k]
    ensures Messages(acks)[..k] == Messages(others)[..k]
  {
    forall i | 0 <= i < k
      ensures acks[i] == others[i]
    {
      assert acks[i] == acks[..k][i] && others[i] == others[..k][i];
    }
  }

  predicate AllAccepted(acks: seq<CommittedAck>) {
    forall k | 0 <= k < |acks| :: acks[k].accepted
  }

  /** The counterparty after a list of messages. */
  function Delivered(peer: Peer, ms: seq<Message>, world: nat -> World): Peer {
    if ms == [] then peer
    else Delivered(peer, ms[..|ms| - 1], world).Deliver(ms[|ms| - 1], world(|ms| - 1).willing)
  }

  lemma DeliveredNext(peer: Peer, ms: seq<Message>, m: Message, world: nat -> World)
    ensures Delivered(peer, ms + [m], world) == Delivered(peer, ms, world).Deliver(m, world(|ms|).willing)
  {
    assert (ms + [m])[..|ms|] == ms;
  }

  /** One run of `process_packets`: what it starts from, and what the world decides about each packet. */
  datatype AckRun = AckRun(chain: Chain, details: ConnectionDetails, signer: string, packets: seq<Packet>, peer: Peer,
                           world: nat -> World)
  {
    /** The acknowledgement of the k-th packet is signed k sequences further. */
    function MessageAt(k: nat): Message
      requires details.HasChannels() && k < |packets|
    {
      AckFor(chain.Advance(k), details, signer, packets[k])
    }

    predicate SignedAt(k: nat)
      requires k < |packets|
    {
      AckSigned(chain.Advance(k), details, packets[k], world(k))
    }

    predicate CommittedAt(k: nat)
      requires k < |packets|
    {
      AckCommitted(chain.Advance(k), details, packets[k], world(k))
    }

    /** What is recorded of the k-th acknowledgement. */
    ghost predicate RecordedAt(acks: seq<CommittedAck>, k: nat)
      requires details.HasChannels() && k < |acks| <= |packets|
    {
      var before := Delivered(peer, Messages(acks)[..k], world);
      && CommittedAt(k)
      && acks[k] == CommittedAck(packets[k], MessageAt(k), world(k).willing && before.Accepts(MessageAt(k)))
    }

    /** These are committed: one acknowledgement after the other, all but the last accepted. */
    ghost predicate Commits(acks: seq<CommittedAck>)
      requires details.HasChannels()
    {
      && |acks| <= |packets|
      && (forall k: nat | k < |acks| :: RecordedAt(acks, k))
      && (forall k | 0 <= k < |acks| - 1 :: acks[k].accepted)
    }

    /** It ends there: the packets are used up, the last acknowledgement was refused, or the next one cannot be
        committed. */
    predicate EndsAfter(acks: seq<CommittedAck>) {
      |acks| >= |packets| || !AllAccepted(acks) || !CommittedAt(|acks|)
    }

    /** One more message was signed and sent, but not committed. */
    predicate LeavesOne(acks: seq<CommittedAck>) {
      |acks| < |packets| && AllAccepted(acks) && SignedAt(|acks|) && !CommittedAt(|acks|)
    }

    /** Everything that is sent. */
    function Sent(acks: seq<CommittedAck>): seq<Message>
      requires details.HasChannels()
    {
      if LeavesOne(acks) then Messages(acks) + [MessageAt(|acks|)] else Messages(acks)
    }

    lemma OneMore(acks: seq<CommittedAck>, ack: CommittedAck)
      requires details.HasChannels() && Commits(acks) && AllAccepted(acks) && |acks| < |packets| && CommittedAt(|acks|)
      requires var k := |acks|;
        ack == CommittedAck(packets[k], MessageAt(k),
                            world(k).willing && Delivered(peer, Messages(acks), world).Accepts(MessageAt(k)))
      ensures Commits(acks + [ack]) && Messages(acks + [ack]) == Messages(acks) + [ack.message]
      ensures AllAccepted(acks + [ack]) <==> ack.accepted
      ensures Delivered(peer, Messages(acks + [ack]), world) ==
        Delivered(peer, Messages(acks), world).Deliver(ack.message, world(|acks|).willing)
    {
      var more := acks + [ack];
      assert Messages(more) == Messages(acks) + [ack.message];
      DeliveredNext(peer, Messages(acks), ack.message, world);
      assert more[|acks|] == ack;
      forall k: nat | k < |more|
        ensures RecordedAt(more, k)
      {
        if k < |acks| {
          assert RecordedAt(acks, k);
          assert Messages(more)[..k] == Messages(acks)[..k];
        } else {
          assert Messages(more)[..k] == Messages(acks);
        }
      }
    }

    /** Where the run is after these: it has ended, or it is the next packet's turn. */
    ghost predicate IsAt(acks: seq<CommittedAck>, ended: bool)
      requires details.HasChannels()
    {
      Commits(acks) && if ended then EndsAfter(acks) else AllAccepted(acks) && chain.Advance(|acks|).Readable()
    }

    function SentBy(acks: seq<CommittedAck>, ended: bool): seq<Message>
      requires details.HasChannels()
    {
      if ended then Sent(acks) else Messages(acks)
    }

    /** What becomes of the next packet. */
    ghost predicate IsNext(acks: seq<CommittedAck>, ack: Option<CommittedAck>)
      requires details.HasChannels() && |acks| < |packets|
    {
      var k := |acks|;
      && (ack.Some? <==> CommittedAt(k))
      && (ack.Some? ==>
            ack.value == CommittedAck(packets[k], MessageAt(k),
                                      world(k).willing && Delivered(peer, Messages(acks), world).Accepts(MessageAt(k))))
    }

    function With(acks: seq<CommittedAck>, ack: Option<CommittedAck>): seq<CommittedAck> {
      if ack.Some? then acks + [ack.value] else acks
    }

    predicate EndsWith(ack: Option<CommittedAck>) {
      ack.None? || !ack.value.accepted
    }

    /** The next packet's turn. */
    lemma Turn(acks: seq<CommittedAck>, ack: Option<CommittedAck>)
      requires details.HasChannels() && IsAt(acks, false) && |acks| < |packets| && IsNext(acks, ack)
      ensures IsAt(With(acks, ack), EndsWith(ack))
      ensures SentBy(With(acks, ack), EndsWith(ack)) ==
        if SignedAt(|acks|) then Messages(acks) + [MessageAt(|acks|)] else Messages(acks)
    {
      if ack.Some? {
        OneMore(acks, ack.value);
      }
    }

    lemma TurnWent(acks: seq<CommittedAck>, ack: Option<CommittedAck>, before: seq<Message>, sent: seq<Message>,
                   after: seq<Message>)
      requires details.HasChannels() && IsAt(acks, false) && |acks| < |packets| && IsNext(acks, ack)
      requires sent == before + Messages(acks)
      requires after == if SignedAt(|acks|) then sent + [MessageAt(|acks|)] else sent
      ensures after == before + SentBy(With(acks, ack), EndsWith(ack))
    {
      Turn(acks, ack);
    }

    lemma TurnDelivered(acks: seq<CommittedAck>, ack: Option<CommittedAck>, id: string,
                        peers0: map<string, Peer>, peers: map<string, Peer>, after: map<string, Peer>)
      requires details.HasChannels() && IsAt(acks, false) && |acks| < |packets| && IsNext(acks, ack)
      requires peers == peers0[id := Delivered(peer, Messages(acks), world)]
      requires var m := MessageAt(|acks|);
        after == if SignedAt(|acks|) then peers[id := peers[id].Deliver(m, world(|acks|).willing)] else peers
      ensures after == peers0[id := Delivered(peer, SentBy(With(acks, ack), EndsWith(ack)), world)]
    {
      Turn(acks, ack);
      DeliveredNext(peer, Messages(acks), MessageAt(|acks|), world);
    }

    lemma Ends(acks: seq<CommittedAck>)
      requires details.HasChannels() && IsAt(acks, false) && |acks| == |packets|
      ensures IsAt(acks, true) && SentBy(acks, true) == SentBy(acks, false) && AllAccepted(acks)
    {
    }

    /** The acknowledgements are for the first packets of the list, signed at consecutive sequences by the signer of the
        call, and only the last one can have been refused. */
    lemma AcksArePrefix(acks: seq<CommittedAck>)
      requires details.HasChannels() && Commits(acks)
      ensures forall k | 0 <= k < |acks| ::
        && acks[k].packet == packets[k]
        && acks[k].message.Acknowledgement? && acks[k].message.packetSequence == packets[k].sequence
        && acks[k].message.SignedSequence() == chain.sequence + k && acks[k].message.Signer() == signer
        && (k < |acks| - 1 ==> acks[k].accepted)
    {
      forall k: nat | k < |acks|
        ensures acks[k].packet == packets[k] && acks[k].message == MessageAt(k)
      {
        assert RecordedAt(acks, k);
      }
    }

    /** Every message carries a proof of the call's signer. */
    lemma SentIsSigned(acks: seq<CommittedAck>, before: seq<Message>)
      requires details.HasChannels() && Commits(acks)
      ensures SignedBy(before, before + Sent(acks), signer)
    {
      AcksArePrefix(acks);
      assert (before + Sent(acks))[|before|..] == Sent(acks);
      assert forall m | m in Messages(acks) :: m.Signer() == signer;
    }

    /** When every broadcast is answered and every commit succeeds, the run ends exactly after the last packet, before
        one that is off the channel, after the first refused one (which is committed), or at the 32-bit limit. */
    lemma WhereItEnds(acks: seq<CommittedAck>)
      requires details.HasChannels() && Commits(acks) && chain.Readable()
      requires forall k: nat :: world(k).builds && world(k).answers && world(k).commits
      ensures EndsAfter(acks) <==>
        || |acks| == |packets|
        || !OnChannel(chain, details, packets[|acks|])
        || (acks != [] && !acks[|acks| - 1].accepted)
        || chain.sequence + |acks| + 1 > U32_MAX
    {
      assert AllAccepted(acks) <==> (acks != [] ==> acks[|acks| - 1].accepted);
    }

    /** Nothing else could have been committed. */
    lemma OneOutcome(acks: seq<CommittedAck>, others: seq<CommittedAck>)
      requires details.HasChannels() && Commits(acks) && EndsAfter(acks) && Commits(others) && EndsAfter(others)
      ensures acks == others
    {
      var n := if |acks| <= |others| then |acks| else |others|;
      SamePrefix(acks, others, n);
      AllCommitted(acks);
      AllCommitted(others);
      assert forall k | 0 <= k < n :: acks[k] == acks[..n][k] == others[..n][k] == others[k];
    }

    lemma AllCommitted(acks: seq<CommittedAck>)
      requires details.HasChannels() && Commits(acks)
      ensures forall k: nat | k < |acks| :: CommittedAt(k)
    {
      assert forall k: nat | k < |acks| :: RecordedAt(acks, k) ==> CommittedAt(k);
    }

    /** An acknowledgement that the counterparty refuses is committed all the same: the row is one sequence further, the
        counterparty is not, and that is the end. */
    lemma RefusedAckIsCommitted(acks: seq<CommittedAck>)
      requires details.HasChannels() && Commits(acks) && EndsAfter(acks)
      requires packets != [] && CommittedAt(0) && !(world(0).willing && peer.Accepts(MessageAt(0)))
      ensures acks == [CommittedAck(packets[0], MessageAt(0), false)]
      ensures Sent(acks) == [MessageAt(0)] && Delivered(peer, Sent(acks), world) == peer
      ensures chain.Advance(|acks|).sequence == chain.sequence + 1
    {
      assert acks != [];
      assert RecordedAt(acks, 0) && Messages(acks)[..0] == [];
      assert !acks[0].accepted && |acks| == 1;
      assert Sent(acks) == [MessageAt(0)];
      DeliveredNext(peer, [], MessageAt(0), world);
      assert [] + [MessageAt(0)] == [MessageAt(0)];
    }

    lemma {:induction false} SamePrefix(acks: seq<CommittedAck>, others: seq<CommittedAck>, n: nat)
      requires details.HasChannels() && Commits(acks) && Commits(others) && n <= |acks| && n <= |others|
      ensures acks[..n] == others[..n]
    {
      if n > 0 {
        SamePrefix(acks, others, n - 1);
        SameNext(acks, others, n - 1);
      }
    }

    lemma SameNext(acks: seq<CommittedAck>, others: seq<CommittedAck>, k: nat)
      requires details.HasChannels() && Commits(acks) && Commits(others) && k < |acks| && k < |others|
      requires acks[..k] == others[..k]
      ensures acks[..k + 1] == others[..k + 1]
    {
      SameMessages(acks, others, k);
      assert acks[k] == others[k] by {
        assert RecordedAt(acks, k) && RecordedAt(others, k);
      }
      assert acks[..k + 1] == acks[..k] + [acks[k]] && others[..k + 1] == others[..k] + [others[k]];
    }
  }

  // ----- connect -----

  /** What the world decides about a `connect`: the four messages it broadcasts, the identifiers that the counterparty
      gives to what it creates, the latest header (whether it can be had, and its height), and the random characters of
      the local identifiers. An event that cannot be sent fails the call like the next message that cannot be built. The
      only commit is the one at the end, so that of the two acknowledgements only the second one's `commits` matters. */
  datatype ConnectWorld = ConnectWorld(
    client: World, clientId: string,
    header: bool, blockHeight: nat, clientSample: string,
    connection: World, connectionId: string, connectionSample: string, connectionAck: World,
    channel: World, channelId: string, channelSample: string, channelAck: World)
  {
    predicate Draws() {
      IsDraw(clientSample) && IsDraw(connectionSample) && IsDraw(channelSample)
    }
  }

  /** One `connect`: the committed tables and the counterparty it starts from, and what the world decides. Every
      predicate says how far it gets. */
  datatype ConnectRun = ConnectRun(base: Tables, peer: Peer, id: string, signer: string, world: ConnectWorld)
  {
    /** Only a chain without connection details is connected. */
    predicate Starts() {
      id in base.chains && base.chains[id].Readable() && base.chains[id].connectionDetails.None?
    }

    function Row(): Chain
      requires Starts()
    {
      base.chains[id]
    }

    /** The height the client is stored with: the revision of the chain id and the latest block. */
    function At(): Height {
      Height(Version(id), world.blockHeight)
    }

    function Details(): ConnectionDetails {
      ConnectionDetails(world.clientId, "07-tendermint-" + world.clientSample,
                        world.connectionId, "connection-" + world.connectionSample,
                        Some(world.channelId), Some("channel-" + world.channelSample))
    }

    /** The counterparty creates the client, under an identifier that is new there. */
    predicate CreatesClient() {
      Starts() && world.client.builds && world.client.willing && world.clientId !in peer.clients
    }

    predicate GetsClient() {
      CreatesClient() && world.client.answers && IsId(world.clientId, CLIENT_MIN_LEN)
    }

    /** The client that follows the counterparty is stored with its first consensus state. */
    predicate StoresClient() {
      && GetsClient() && world.header
      && base.Lookup(ClientState(Details().tendermintClientId)).None?
      && base.Lookup(ConsensusState(Details().tendermintClientId, At())).None?
    }

    predicate CreatesConnection() {
      && StoresClient() && world.connection.builds && world.connection.willing
      && world.connectionId !in peer.connections
    }

    predicate TriesConnection() {
      && CreatesConnection() && world.connection.answers && IsId(world.connectionId, CONNECTION_MIN_LEN)
      && base.Lookup(Connection(Details().tendermintConnectionId)).None?
    }

    /** The connection acknowledgement is signed and sent. */
    predicate SignsConnection() {
      TriesConnection() && Row().NextSequence().Readable() && world.connectionAck.builds
    }

    /** A willing counterparty takes it. */
    predicate OpensConnection() {
      SignsConnection() && world.connectionAck.willing && world.connectionAck.answers
    }

    predicate CreatesChannel() {
      && OpensConnection() && world.channel.builds && world.channel.willing
      && world.channelId !in peer.channels
    }

    predicate TriesChannel() {
      && CreatesChannel() && world.channel.answers && IsId(world.channelId, CHANNEL_MIN_LEN)
      && base.Lookup(Channel(Row().portId, Details().tendermintChannelId.value)).None?
    }

    predicate SignsChannel() {
      TriesChannel() && Row().NextSequence().NextSequence().Readable() && world.channelAck.builds
    }

    predicate OpensChannel() {
      SignsChannel() && world.channelAck.willing && world.channelAck.answers
    }

    predicate Commits() {
      OpensChannel() && world.channelAck.commits
    }

    /** The proof of the local connection end, signed at the sequence that was read. */
    function ConnectionMessage(): Message
      requires Starts()
    {
      var d := Details();
      ConnectionOpenAck(d.soloMachineConnectionId, d.tendermintConnectionId,
        Proof(signer, Row().sequence, Key(Connection(d.tendermintConnectionId)),
              Some(ConnectionRecord(TryOpen, d.tendermintClientId, d.soloMachineClientId, d.soloMachineConnectionId))))
    }

    /** The proof of the local channel end, signed one sequence further. */
    function ChannelMessage(): Message
      requires Starts()
    {
      var d := Details();
      var port := Row().portId;
      ChannelOpenAck(port, d.soloMachineChannelId.value, d.tendermintChannelId.value,
        Proof(signer, Row().sequence + 1, Key(Channel(port, d.tendermintChannelId.value)),
              Some(ChannelRecord(TryOpen, port, d.soloMachineChannelId.value, [d.tendermintConnectionId]))))
    }

    function SentForConnection(): seq<Message> {
      if SignsConnection() then [ConnectionMessage()] else []
    }

    function SentForChannel(): seq<Message> {
      if SignsChannel() then [ChannelMessage()] else []
    }

    /** Everything that is sent. */
    function Sent(): seq<Message> {
      SentForConnection() + SentForChannel()
    }

    /** What `create_new_client` leaves at the counterparty: the client starts at the sequence that was read. */
    function AfterClients(p: Peer): (q: Peer)
      ensures q.connections == p.connections && q.channels == p.channels
    {
      if CreatesClient() then
        p.(clients := p.clients[world.clientId := Row().sequence], keys := p.keys[world.clientId := signer])
      else p
    }

    function WithConnection(p: Peer): Peer {
      if CreatesConnection() then
        p.(connections := p.connections[world.connectionId :=
          PeerConnection(Init, world.clientId, Details().tendermintClientId, None)])
      else p
    }

    /** What `create_connection` leaves at the counterparty. */
    function AfterConnection(p: Peer): (q: Peer)
      ensures q.channels == p.channels
    {
      if SignsConnection() then WithConnection(p).Deliver(ConnectionMessage(), world.connectionAck.willing)
      else WithConnection(p)
    }

    function WithChannel(p: Peer): Peer {
      if CreatesChannel() then
        p.(channels := p.channels[world.channelId :=
          PeerChannel(Init, Row().portId, world.connectionId, Row().portId, None)])
      else p
    }

    /** What `open_channel` leaves at the counterparty. */
    function AfterChannel(p: Peer): Peer {
      if SignsChannel() then WithChannel(p).Deliver(ChannelMessage(), world.channelAck.willing) else WithChannel(p)
    }

    /** The counterparty at the end. */
    function PeerAfter(): Peer {
      AfterChannel(AfterConnection(AfterClients(peer)))
    }

    /** The machine's view of the call agrees with the identifiers that the call has so far. */
    predicate Tracks(c: Connect)
      requires Starts()
    {
      && c.signer == signer && c.snapshot == Row()
      && (c.stage >= SOLO_CLIENT ==> c.clientId == world.clientId)
      && (c.stage >= TENDERMINT_CLIENT ==> c.tendermintClientId == Details().tendermintClientId && c.height == At())
      && (c.stage >= CONNECTION_INIT ==> c.connectionId == world.connectionId)
      && (c.stage >= CONNECTION_TRY ==> c.tendermintConnectionId == Details().tendermintConnectionId)
      && (c.stage >= CHANNEL_INIT ==> c.channelId == world.channelId)
      && (c.stage >= CHANNEL_TRY ==> Some(c.tendermintChannelId) == Details().tendermintChannelId)
    }

    /** The counterparty accepts the first acknowledgement if it is willing: the connection opens. */
    lemma OpensFirstEnd()
      requires OpensConnection()
      ensures AfterConnection(AfterClients(peer)) == peer.(
        clients := peer.clients[world.clientId := Row().sequence + 1],
        keys := peer.keys[world.clientId := signer],
        connections := peer.connections[world.connectionId :=
          PeerConnection(Open, world.clientId, Details().tendermintClientId, Some(Details().tendermintConnectionId))])
    {
      assert WithConnection(AfterClients(peer)).Accepts(ConnectionMessage());
    }

    /** And the second one: both ends at the counterparty are open and name the local ones, and the client is two
        sequences further, with the signer's key. */
    lemma OpensBothEnds()
      requires OpensChannel()
      ensures PeerAfter() == peer.(
        clients := peer.clients[world.clientId := Row().sequence + 2],
        keys := peer.keys[world.clientId := signer],
        connections := peer.connections[world.connectionId :=
          PeerConnection(Open, world.clientId, Details().tendermintClientId, Some(Details().tendermintConnectionId))],
        channels := peer.channels[world.channelId :=
          PeerChannel(Open, Row().portId, world.connectionId, Row().portId, Details().tendermintChannelId)])
    {
      OpensFirstEnd();
      assert WithChannel(AfterConnection(AfterClients(peer))).Accepts(ChannelMessage());
    }

    lemma SentIs(before: seq<Message>)
      ensures before + SentForConnection() == if SignsConnection() then before + [ConnectionMessage()] else before
      ensures before + SentForChannel() == if SignsChannel() then before + [ChannelMessage()] else before
      ensures !TriesChannel() ==> before + SentForChannel() == before
    {
    }

    lemma MessageOf(c: Connect)
      requires Starts() && Tracks(c) && c.stage == CHANNEL_TRY
      ensures ChannelMessage() ==
        ChannelOpenAck(Row().portId, c.channelId, c.tendermintChannelId,
          Proof(c.signer, Row().sequence + 1, Key(Channel(Row().portId, c.tendermintChannelId)),
                Some(ChannelRecord(TryOpen, Row().portId, c.channelId, [c.tendermintConnectionId]))))
    {
    }

    lemma ConnectionComposed(before: map<string, Peer>, begun: map<string, Peer>, after: map<string, Peer>)
      requires id in before && begun == before[id := WithConnection(before[id])]
      requires after == if SignsConnection()
                        then begun[id := begun[id].Deliver(ConnectionMessage(), world.connectionAck.willing)] else begun
      ensures after == before[id := AfterConnection(before[id])]
      ensures !TriesConnection() ==> !SignsConnection() && !OpensConnection()
    {
    }

    lemma ChannelComposed(before: map<string, Peer>, begun: map<string, Peer>, after: map<string, Peer>)
      requires id in before && begun == before[id := WithChannel(before[id])]
      requires after == if SignsChannel()
                        then begun[id := begun[id].Deliver(ChannelMessage(), world.channelAck.willing)] else begun
      ensures after == before[id := AfterChannel(before[id])]
      ensures !TriesChannel() ==> !SignsChannel() && !OpensChannel()
    {
    }

    lemma EndsComposed(before: map<string, Peer>, connected: map<string, Peer>, after: map<string, Peer>,
                       sent: seq<Message>, first: seq<Message>, second: seq<Message>)
      requires id in before && connected == before[id := AfterConnection(before[id])]
      requires first == sent + SentForConnection()
      requires if OpensConnection() then
                 && after == connected[id := AfterChannel(connected[id])]
                 && second == first + SentForChannel()
               else after == connected && second == first
      ensures after == before[id := AfterChannel(AfterConnection(before[id]))] && second == sent + Sent()
    {
    }

    lemma AllComposed(before: map<string, Peer>, created: map<string, Peer>, after: map<string, Peer>)
      requires id in before && before[id] == peer && created == before[id := AfterClients(peer)]
      requires after == if StoresClient() then created[id := AfterChannel(AfterConnection(created[id]))] else created
      ensures after == before[id := PeerAfter()] && (!StoresClient() ==> Sent() == [])
    {
      if !StoresClient() {
        assert PeerAfter() == AfterClients(peer);
      }
    }

    lemma NotStarted(peers: map<string, Peer>)
      requires !Starts() && id in peers && peers[id] == peer
      ensures !Commits() && Sent() == [] && peers[id := PeerAfter()] == peers
    {
      assert PeerAfter() == peer;
    }

    lemma SentIsSigned(before: seq<Message>)
      ensures SignedBy(before, before + Sent(), signer)
    {
      assert (before + Sent())[|before|..] == Sent();
    }
  }
}
