/** What every step of the machine keeps. */
module Invariant {
  import opened Wrappers
  import opened Height
  import opened Paths
  import opened Records
  import opened Counterparty
  import opened Machine

  /** The first n packet numbers: 1, 2, ..., n. */
  function Numbers(n: int): seq<int> {
    if n <= 0 then [] else Numbers(n - 1) + [n]
  }

  // ----- single calls -----

  /** A chain read from the committed row at some time: the row has not gone back since, an equal sequence means
      that nothing was committed in between, and connection details once seen are still there. */
  ghost predicate Seen(chain: Chain, row: Chain) {
    && chain.portId == row.portId
    && chain.sequence <= row.sequence && chain.packetSequence <= row.packetSequence
    && (chain.sequence == row.sequence ==> chain == row)
    && (chain.connectionDetails.Some? ==> chain.connectionDetails == row.connectionDetails)
    && chain.Readable()
  }

  /** A message signed for the connected client; one that is still current carries the current packet number. */
  ghost predicate MessageOk(row: Chain, m: Message) {
    && row.connectionDetails.Some?
    && row.connectionDetails.value.HasChannels()
    && m.SignedSequence() <= row.sequence
    && var d := row.connectionDetails.value;
    match m
    case RecvPacket(source, destination, n, proof) =>
      && 0 <= n <= row.packetSequence
      && source == d.tendermintChannelId.value
      && destination == d.soloMachineChannelId.value
      && proof.path == Key(PacketCommitment(row.portId, source, n))
      && (proof.sequence == row.sequence ==> n == row.packetSequence)
    case Acknowledgement(source, destination, n, proof) =>
      && n >= 0
      && source == d.soloMachineChannelId.value
      && destination == d.tendermintChannelId.value
      && proof.path == Key(PacketAcknowledgement(row.portId, destination, n))
    case UpdateClient(client, _, _, _) => client == d.soloMachineClientId
    case _ => false
  }

  ghost predicate ProvingOk(row: Chain, kind: Kind, chain: Chain, phase: Phase) {
    && (kind.Acks? && kind.details.Some? ==> kind.details == row.connectionDetails)
    && match phase
       case Ready => Seen(chain, row)
       case Signed(m) =>
         && MessageOk(row, m)
         && (m.RecvPacket? <==> kind.Mint?)
         && chain == Bumped(row, kind) && chain.Readable()
       case Adrift(m) => MessageOk(row, m) && (m.RecvPacket? <==> kind.Mint?)
       case Answered(_) => row.connectionDetails.Some? && chain == Bumped(row, kind) && chain.Readable()
       case Recording => true
  }

  /** The row as the open transaction of `connect` sees it. */
  ghost predicate ConnectChain(row: Chain, c: Connect) {
    if c.stage < CONNECTION_SIGNED then c.chain == c.snapshot
    else if c.stage < CHANNEL_SIGNED then c.chain == row.NextSequence() && c.chain.Readable()
    else
      && c.chain == (var n := row.NextSequence().NextSequence();
                     if c.stage < DETAILS_WRITTEN then n else n.(connectionDetails := Some(c.Details())))
      && c.chain.Readable()
  }

  ghost function ConnectionEnd(c: Connect): Record {
    ConnectionRecord(if c.stage < CONNECTION_CONFIRM then TryOpen else Open,
                     c.tendermintClientId, c.clientId, c.connectionId)
  }

  ghost function ChannelEnd(c: Connect): Record {
    ChannelRecord(if c.stage < CHANNEL_CONFIRM then TryOpen else Open,
                  c.snapshot.portId, c.channelId, [c.tendermintConnectionId])
  }

  /** The records the open transaction of `connect` has written, and no others. */
  ghost function Written(id: string, c: Connect): map<string, Record> {
    var clients := map[
      Key(ClientState(c.tendermintClientId)) := ClientRecord(id, c.height),
      Key(ConsensusState(c.tendermintClientId, c.height)) := ConsensusRecord(c.height)];
    if c.stage < TENDERMINT_CLIENT then map[]
    else if c.stage < CONNECTION_TRY then clients
    else if c.stage < CHANNEL_TRY then clients[c.ConnectionKey() := ConnectionEnd(c)]
    else clients[c.ConnectionKey() := ConnectionEnd(c)][c.ChannelKey() := ChannelEnd(c)]
  }

  /** The keys of the records are distinct. */
  ghost predicate KeysApart(c: Connect) {
    && (c.stage >= TENDERMINT_CLIENT ==>
          Key(ClientState(c.tendermintClientId)) != Key(ConsensusState(c.tendermintClientId, c.height)))
    && (c.stage >= CONNECTION_TRY ==>
          && c.ConnectionKey() != Key(ClientState(c.tendermintClientId))
          && c.ConnectionKey() != Key(ConsensusState(c.tendermintClientId, c.height)))
    && (c.stage >= CHANNEL_TRY ==>
          && c.ChannelKey() != Key(ClientState(c.tendermintClientId))
          && c.ChannelKey() != Key(ConsensusState(c.tendermintClientId, c.height))
          && c.ChannelKey() != c.ConnectionKey())
  }

  /** The counterparty's objects of this `connect` are as far as its own acknowledgements took them: nobody else's
      proof reaches them. */
  ghost predicate PeerEnds(peer: Peer, c: Connect) {
    && (c.stage >= SOLO_CLIENT ==>
          && c.clientId in peer.clients
          && peer.clients[c.clientId] == c.snapshot.sequence
             + (if c.stage >= CONNECTION_ACK then 1 else 0) + (if c.stage >= CHANNEL_ACK then 1 else 0)
          && c.clientId in peer.keys && peer.keys[c.clientId] == c.signer)
    && (c.stage >= CONNECTION_INIT ==>
          && c.connectionId in peer.connections
          && peer.connections[c.connectionId] ==
             (if c.stage < CONNECTION_ACK then PeerConnection(Init, c.clientId, c.tendermintClientId, None)
              else PeerConnection(Open, c.clientId, c.tendermintClientId, Some(c.tendermintConnectionId))))
    && (c.stage >= CHANNEL_INIT ==>
          && c.channelId in peer.channels
          && peer.channels[c.channelId] ==
             (var p := c.snapshot.portId;
              if c.stage < CHANNEL_ACK then PeerChannel(Init, p, c.connectionId, p, None)
              else PeerChannel(Open, p, c.connectionId, p, Some(c.tendermintChannelId))))
  }

  /** The signed proof is of the local end as the open transaction has it. */
  ghost predicate SignedOk(row: Chain, c: Connect) {
    && (c.stage == CONNECTION_SIGNED ==>
          c.proof == Proof(c.signer, c.snapshot.sequence, c.ConnectionKey(), Some(ConnectionEnd(c))))
    && (c.stage == CHANNEL_SIGNED ==> c.proof == Proof(c.signer, row.sequence + 1, c.ChannelKey(), Some(ChannelEnd(c))))
  }

  ghost predicate ConnectOk(id: string, row: Chain, peer: Peer, c: Connect) {
    && c.stage <= DETAILS_WRITTEN
    && Seen(c.snapshot, row) && c.snapshot.connectionDetails.None?
    && ConnectChain(row, c)
    && c.writes == Written(id, c) && KeysApart(c)
    && PeerEnds(peer, c)
    && SignedOk(row, c)
    // the second acknowledgement passes only if the row is still the one that was read
    && (c.stage >= CHANNEL_ACK ==> row == c.snapshot)
  }

  ghost predicate ClosingOk(row: Chain, chain: Chain, blanked: bool) {
    if blanked then
      && row.connectionDetails.Some?
      && chain == row.(connectionDetails := Some(row.connectionDetails.value.WithoutChannels()))
    else Seen(chain, row)
  }

  ghost predicate CallOk(id: string, row: Chain, peer: Peer, call: Call) {
    match call
    case Proving(kind, chain, phase) => ProvingOk(row, kind, chain, phase)
    case Connecting(c) => ConnectOk(id, row, peer, c)
    case Closing(chain, blanked) => ClosingOk(row, chain, blanked)
  }

  ghost predicate CallsOk(s: State) {
    forall i | i in s.calls :: CallOk(s.id, s.row, s.peer, s.calls[i])
  }

  // ----- calls together -----

  /** At most one open transaction has updated the row. */
  ghost predicate OneHolder(s: State) {
    forall i, j | i in s.calls && j in s.calls && s.calls[i].HoldsRow() && s.calls[j].HoldsRow() :: i == j
  }

  ghost predicate Apart(a: Connect, b: Connect) {
    && (a.stage >= SOLO_CLIENT && b.stage >= SOLO_CLIENT ==> a.clientId != b.clientId)
    && (a.stage >= CONNECTION_INIT && b.stage >= CONNECTION_INIT ==> a.connectionId != b.connectionId)
    && (a.stage >= CHANNEL_INIT && b.stage >= CHANNEL_INIT ==> a.channelId != b.channelId)
  }

  ghost predicate ApartFrom(d: ConnectionDetails, c: Connect) {
    && (c.stage >= SOLO_CLIENT ==> c.clientId != d.soloMachineClientId)
    && (c.stage >= CONNECTION_INIT ==> c.connectionId != d.soloMachineConnectionId)
    && (c.stage >= CHANNEL_INIT ==> Some(c.channelId) != d.soloMachineChannelId)
  }

  /** Running `connect`s own different objects on the counterparty, none of them the connected ones. */
  ghost predicate ConnectsApart(s: State) {
    && (forall i, j | i in s.calls && j in s.calls && i != j && s.calls[i].Connecting? && s.calls[j].Connecting? ::
          Apart(s.calls[i].connect, s.calls[j].connect))
    && (s.row.connectionDetails.Some? ==>
          forall i | i in s.calls && s.calls[i].Connecting? ::
            ApartFrom(s.row.connectionDetails.value, s.calls[i].connect))
  }

  // ----- the row and the connected client -----

  ghost predicate AnyInFlight(s: State) {
    exists i :: i in s.calls && s.calls[i].InFlight()
  }

  ghost predicate MintInFlight(s: State) {
    exists i :: i in s.calls && s.calls[i].InFlight() && s.calls[i].kind.Mint?
  }

  /** Local sequence + accepted but not committed = counterparty sequence + committed although rejected. */
  ghost predicate Conserved(s: State) {
    match s.row.connectionDetails
    case None => s.tally == Tally(0, 0, 0, 0)
    case Some(d) =>
      && d.soloMachineClientId in s.peer.clients && d.soloMachineClientId in s.peer.keys
      && s.row.sequence + (if AnyInFlight(s) then 1 else 0) + s.tally.lost ==
         s.peer.clients[d.soloMachineClientId] + s.tally.rejectedAcks
  }

  /** As long as no rejected acknowledgement was committed, the received packet numbers are 1, 2, 3, ...; the row's
      number is among them exactly when its mint was accepted and its commit is outstanding or lost. */
  ghost predicate Gapless(s: State) {
    && s.tally.lostMints <= s.tally.lost
    && (forall n | n in s.peer.received :: n <= s.row.packetSequence)
    && (s.tally.rejectedAcks == 0 ==>
          s.peer.received == Numbers(ReceivedUpTo(s)) && (AnyInFlight(s) ==> s.tally.lost == 0))
  }

  ghost function ReceivedUpTo(s: State): int {
    if s.tally.lostMints > 0 || MintInFlight(s) then s.row.packetSequence else s.row.packetSequence - 1
  }

  ghost function Connected(row: Chain): int {
    if row.connectionDetails.Some? then 1 else 0
  }

  ghost predicate Ledger(s: State) {
    && s.row.sequence == s.row.packetSequence + 2 * Connected(s.row) + (|s.keys| - 1) + s.tally.acks
    && |s.keys| >= 1
    && s.row.packetSequence >= 1
    && s.row.Readable()
  }

  ghost function Outstanding(s: State): set<nat> {
    set i | i in s.calls && s.calls[i].Proving? && s.calls[i].phase.Recording?
  }

  ghost predicate HistoryBounded(s: State) {
    s.history + |Outstanding(s)| <= s.row.packetSequence - 1
  }

  /** The recorded connection is open at the counterparty and names the recorded local ends. */
  ghost predicate Agreed(s: State) {
    s.row.connectionDetails.Some? ==>
      var d := s.row.connectionDetails.value;
      && d.HasChannels()
      && d.soloMachineConnectionId in s.peer.connections
      && s.peer.connections[d.soloMachineConnectionId] ==
         PeerConnection(Open, d.soloMachineClientId, d.tendermintClientId, Some(d.tendermintConnectionId))
      && d.soloMachineChannelId.value in s.peer.channels
      && s.peer.channels[d.soloMachineChannelId.value] ==
         PeerChannel(Open, s.row.portId, d.soloMachineConnectionId, s.row.portId, d.tendermintChannelId)
  }

  /** A key whose insertion is pending is not in the table yet. */
  ghost predicate PendingKeysNew(s: State) {
    forall i | i in s.calls && s.calls[i].HoldsRow() && s.calls[i].Proving? && s.calls[i].kind.UpdateSigner? ::
      s.calls[i].kind.newKey !in s.keys
  }

  ghost predicate Inv(s: State) {
    && CallsOk(s)
    && PendingKeysNew(s)
    && OneHolder(s)
    && ConnectsApart(s)
    && Conserved(s)
    && Gapless(s)
    && Ledger(s)
    && HistoryBounded(s)
    && Agreed(s)
  }

  // ----- steps -----

  /** Only call `i` differs. */
  ghost predicate OthersSame(s: State, t: State, i: nat) {
    forall j | j != i :: (j in s.calls <==> j in t.calls) && (j in s.calls ==> s.calls[j] == t.calls[j])
  }

  ghost predicate Counted(s: State, i: nat) {
    i in s.calls && (s.calls[i].InFlight() || (s.calls[i].Proving? && s.calls[i].phase.Recording?))
  }

  /** A step of a call that is neither in flight nor recording, before and after, leaves the counts alone. */
  lemma CountsSame(s: State, t: State, i: nat)
    requires OthersSame(s, t, i) && !Counted(s, i) && !Counted(t, i)
    ensures AnyInFlight(t) == AnyInFlight(s) && MintInFlight(t) == MintInFlight(s)
    ensures Outstanding(t) == Outstanding(s)
  {
    assert forall j :: Counted(s, j) <==> Counted(t, j);
    assert forall j | Counted(s, j) :: s.calls[j] == t.calls[j];
    assert forall j | j in s.calls && s.calls[j].InFlight() :: Counted(s, j);
    assert forall j | j in t.calls && t.calls[j].InFlight() :: Counted(t, j);
    assert forall j | j in Outstanding(s) :: Counted(s, j);
    assert forall j | j in Outstanding(t) :: Counted(t, j);
  }

  predicate OfConnect(e: Event) {
    e.CreateSoloMachineClient? || e.CreateTendermintClient? || e.OpenInit? || e.OpenTry? || e.SignAck? ||
    e.BroadcastAck? || e.OpenConfirm? || e.WriteDetails? || e.CommitConnect?
  }

  lemma ConnectStepTouchesOneCall(s: State, e: Event)
    requires Enabled(s, e) && OfConnect(e)
    ensures OthersSame(s, Step(s, e), e.call)
  {
  }

  lemma StepTouchesOneCall(s: State, e: Event)
    requires Enabled(s, e)
    ensures OthersSame(s, Step(s, e), e.call)
  {
    if OfConnect(e) {
      ConnectStepTouchesOneCall(s, e);
    }
  }

  lemma FlightSame(s: State, t: State, i: nat)
    requires OthersSame(s, t, i)
    requires !(i in s.calls && s.calls[i].InFlight()) && !(i in t.calls && t.calls[i].InFlight())
    ensures AnyInFlight(t) == AnyInFlight(s) && MintInFlight(t) == MintInFlight(s)
  {
    assert forall j | j in s.calls && s.calls[j].InFlight() :: j in t.calls && t.calls[j] == s.calls[j];
    assert forall j | j in t.calls && t.calls[j].InFlight() :: j in s.calls && t.calls[j] == s.calls[j];
  }

  lemma InitialInv(s: State)
    requires Initial(s)
    ensures Inv(s)
  {
    assert Outstanding(s) == {};
  }

  /** The calls that a start event adds. */
  ghost predicate Starts(s: State, call: Call) {
    match call
    case Proving(kind, chain, phase) =>
      chain == s.row && phase == Ready && (kind.Acks? ==> kind.details == s.row.connectionDetails)
    case Connecting(c) => c == NewConnect(s.row, c.signer) && s.row.connectionDetails.None?
    case Closing(chain, blanked) => chain == s.row && !blanked
  }

  lemma HolderWith(s: State, i: nat, call: Call)
    requires OneHolder(s)
    requires call.HoldsRow() ==> s.RowIsFree() || (i in s.calls && s.calls[i].HoldsRow())
    ensures OneHolder(s.With(i, call))
  {
  }

  /** The objects that `d` owns at the counterparty, `c` owned before. */
  ghost predicate Owns(c: Connect, d: Connect) {
    && (d.stage >= SOLO_CLIENT ==> c.stage >= SOLO_CLIENT && c.clientId == d.clientId)
    && (d.stage >= CONNECTION_INIT ==> c.stage >= CONNECTION_INIT && c.connectionId == d.connectionId)
    && (d.stage >= CHANNEL_INIT ==> c.stage >= CHANNEL_INIT && c.channelId == d.channelId)
  }

  lemma ApartWith(s: State, i: nat, call: Call)
    requires ConnectsApart(s)
    requires call.Connecting? ==>
      || call.connect.stage == STARTED
      || (i in s.calls && s.calls[i].Connecting? && Owns(s.calls[i].connect, call.connect))
    ensures ConnectsApart(s.With(i, call))
  {
    var t := s.With(i, call);
    forall j | j in t.calls && j != i && t.calls[j].Connecting? && call.Connecting?
      ensures Apart(t.calls[j].connect, call.connect) && Apart(call.connect, t.calls[j].connect)
    {
      if call.connect.stage > STARTED {
        assert Apart(s.calls[j].connect, s.calls[i].connect);
      }
    }
    if s.row.connectionDetails.Some? && call.Connecting? && call.connect.stage > STARTED {
      assert ApartFrom(s.row.connectionDetails.value, s.calls[i].connect);
    }
  }

  /** The invariant of everything but the calls depends on the calls only through the counts. */
  lemma CountedPartsWith(s: State, i: nat, call: Call)
    requires Conserved(s) && Gapless(s) && Ledger(s) && HistoryBounded(s) && Agreed(s)
    requires !Counted(s, i) && !Counted(s.With(i, call), i)
    ensures var t := s.With(i, call); Conserved(t) && Gapless(t) && Ledger(t) && HistoryBounded(t) && Agreed(t)
  {
    CountsSame(s, s.With(i, call), i);
  }

  lemma StartKeepsInv(s: State, i: nat, call: Call)
    requires Inv(s) && CanStart(s, i) && Starts(s, call)
    ensures Inv(s.With(i, call))
  {
    assert CallOk(s.id, s.row, s.peer, call);
    HolderWith(s, i, call);
    ApartWith(s, i, call);
    CountedPartsWith(s, i, call);
  }

  /** A step that changes only the call itself. */
  lemma LocalKeepsInv(s: State, i: nat, call: Call)
    requires Inv(s) && i in s.calls && !Counted(s, i) && !Counted(s.With(i, call), i)
    requires CallOk(s.id, s.row, s.peer, call)
    requires call.HoldsRow() ==> s.RowIsFree() || s.calls[i].HoldsRow()
    requires call.Connecting? ==> s.calls[i].Connecting? && Owns(s.calls[i].connect, call.connect)
    requires call.HoldsRow() && call.Proving? && call.kind.UpdateSigner? ==> call.kind.newKey !in s.keys
    ensures Inv(s.With(i, call))
  {
    HolderWith(s, i, call);
    ApartWith(s, i, call);
    CountedPartsWith(s, i, call);
  }

  lemma SignKeepsInv(s: State, i: nat, signer: string)
    requires Inv(s) && CanSign(s, i)
    ensures Inv(DoSign(s, i, signer))
  {
    var call := s.calls[i];
    assert CallOk(s.id, s.row, s.peer, call);
    LocalKeepsInv(s, i, DoSign(s, i, signer).calls[i]);
  }

  lemma TimeOutKeepsInv(s: State, i: nat)
    requires Inv(s) && CanBroadcast(s, i)
    ensures Inv(DoTimeOut(s, i))
  {
    assert CallOk(s.id, s.row, s.peer, s.calls[i]);
    LocalKeepsInv(s, i, DoTimeOut(s, i).calls[i]);
  }

  lemma CreateTendermintClientKeepsInv(s: State, i: nat, id: string, height: Height)
    requires Inv(s) && CanCreateTendermintClient(s, i, id, height)
    ensures Inv(DoCreateTendermintClient(s, i, id, height))
  {
    assert CallOk(s.id, s.row, s.peer, s.calls[i]);
    LocalKeepsInv(s, i, DoCreateTendermintClient(s, i, id, height).calls[i]);
  }

  lemma OpenTryKeepsInv(s: State, i: nat, id: string)
    requires Inv(s) && CanOpenTry(s, i, id)
    ensures Inv(DoOpenTry(s, i, id))
  {
    assert CallOk(s.id, s.row, s.peer, s.calls[i]);
    LocalKeepsInv(s, i, DoOpenTry(s, i, id).calls[i]);
  }

  lemma SignAckKeepsInv(s: State, i: nat)
    requires Inv(s) && CanSignAck(s, i)
    ensures Inv(DoSignAck(s, i))
  {
    assert CallOk(s.id, s.row, s.peer, s.calls[i]);
    LocalKeepsInv(s, i, DoSignAck(s, i).calls[i]);
  }

  lemma OpenConfirmKeepsInv(s: State, i: nat)
    requires Inv(s) && CanOpenConfirm(s, i)
    ensures Inv(DoOpenConfirm(s, i))
  {
    assert CallOk(s.id, s.row, s.peer, s.calls[i]);
    LocalKeepsInv(s, i, DoOpenConfirm(s, i).calls[i]);
  }

  lemma WriteDetailsKeepsInv(s: State, i: nat)
    requires Inv(s) && At(s, i, CHANNEL_CONFIRM)
    ensures Inv(DoWriteDetails(s, i))
  {
    assert CallOk(s.id, s.row, s.peer, s.calls[i]);
    LocalKeepsInv(s, i, DoWriteDetails(s, i).calls[i]);
  }

  lemma BlankDetailsKeepsInv(s: State, i: nat)
    requires Inv(s) && CanBlankDetails(s, i)
    ensures Inv(DoBlankDetails(s, i))
  {
    assert CallOk(s.id, s.row, s.peer, s.calls[i]);
    LocalKeepsInv(s, i, DoBlankDetails(s, i).calls[i]);
  }

  // ----- steps that reach the counterparty -----

  /** The counterparty has what it had, and received nothing. */
  ghost predicate Keeps(p: Peer, q: Peer) {
    && (forall id | id in p.clients :: id in q.clients && q.clients[id] == p.clients[id])
    && (forall id | id in p.clients && id in p.keys :: id in q.keys && q.keys[id] == p.keys[id])
    && (forall id | id in p.connections :: id in q.connections && q.connections[id] == p.connections[id])
    && (forall id | id in p.channels :: id in q.channels && q.channels[id] == p.channels[id])
    && q.received == p.received
  }

  /** A step of `connect` that leaves the row, its holder and the counts alone. */
  ghost predicate PeerStep(s: State, t: State, i: nat) {
    && OthersSame(s, t, i) && !Counted(s, i) && !Counted(t, i)
    && t == s.(peer := t.peer, calls := t.calls) && Keeps(s.peer, t.peer)
    && i in t.calls && i in s.calls && t.calls[i].Connecting?
    && (t.calls[i].HoldsRow() ==> s.calls[i].HoldsRow())
  }

  lemma PeerStepRow(s: State, t: State, i: nat)
    requires Inv(s) && PeerStep(s, t, i)
    ensures Conserved(t) && Gapless(t) && Ledger(t) && HistoryBounded(t) && Agreed(t)
  {
    CountsSame(s, t, i);
  }

  lemma PeerStepKeepsInv(s: State, t: State, i: nat)
    requires Inv(s) && PeerStep(s, t, i) && CallsOk(t) && ConnectsApart(t)
    ensures Inv(t)
  {
    PeerStepRow(s, t, i);
  }

  lemma CreateSoloMachineClientCalls(s: State, i: nat, id: string)
    requires Inv(s) && At(s, i, STARTED) && id !in s.peer.clients
    ensures CallsOk(DoCreateSoloMachineClient(s, i, id))
  {
    var t := DoCreateSoloMachineClient(s, i, id);
    assert CallOk(s.id, s.row, s.peer, s.calls[i]);
    forall j | j in t.calls
      ensures CallOk(t.id, t.row, t.peer, t.calls[j])
    {
      assert CallOk(s.id, s.row, s.peer, s.calls[j]);
    }
  }

  lemma CreateSoloMachineClientApart(s: State, i: nat, id: string)
    requires Inv(s) && At(s, i, STARTED) && id !in s.peer.clients
    ensures ConnectsApart(DoCreateSoloMachineClient(s, i, id))
  {
    assert forall j | j in s.calls :: CallOk(s.id, s.row, s.peer, s.calls[j]);
  }

  lemma CreateSoloMachineClientKeepsInv(s: State, i: nat, id: string)
    requires Inv(s) && At(s, i, STARTED) && id !in s.peer.clients
    ensures Inv(DoCreateSoloMachineClient(s, i, id))
  {
    CreateSoloMachineClientCalls(s, i, id);
    CreateSoloMachineClientApart(s, i, id);
    PeerStepKeepsInv(s, DoCreateSoloMachineClient(s, i, id), i);
  }

  lemma OpenInitOther(s: State, i: nat, id: string, j: nat)
    requires Inv(s) && CanOpenInit(s, i, id) && j in s.calls && j != i
    ensures CallOk(s.id, s.row, DoOpenInit(s, i, id).peer, s.calls[j])
  {
    assert CallOk(s.id, s.row, s.peer, s.calls[j]);
  }

  lemma OpenInitCalls(s: State, i: nat, id: string)
    requires Inv(s) && CanOpenInit(s, i, id)
    ensures CallsOk(DoOpenInit(s, i, id))
  {
    var t := DoOpenInit(s, i, id);
    assert CallOk(s.id, s.row, s.peer, s.calls[i]);
    forall j | j in t.calls && j != i
      ensures CallOk(t.id, t.row, t.peer, t.calls[j])
    {
      OpenInitOther(s, i, id, j);
    }
  }

  lemma OpenInitApart(s: State, i: nat, id: string)
    requires Inv(s) && CanOpenInit(s, i, id)
    ensures ConnectsApart(DoOpenInit(s, i, id))
  {
    var t := DoOpenInit(s, i, id);
    forall j | j in t.calls && j != i && t.calls[j].Connecting?
      ensures Apart(t.calls[i].connect, t.calls[j].connect) && Apart(t.calls[j].connect, t.calls[i].connect)
    {
      assert Apart(s.calls[i].connect, s.calls[j].connect);
      assert CallOk(s.id, s.row, s.peer, s.calls[j]);
    }
    if s.row.connectionDetails.Some? {
      assert ApartFrom(s.row.connectionDetails.value, s.calls[i].connect);
    }
  }

  lemma OpenInitKeepsInv(s: State, i: nat, id: string)
    requires Inv(s) && CanOpenInit(s, i, id)
    ensures Inv(DoOpenInit(s, i, id))
  {
    OpenInitCalls(s, i, id);
    OpenInitApart(s, i, id);
    PeerStepKeepsInv(s, DoOpenInit(s, i, id), i);
  }

  /** The verifier of a signed message is the connected client. */
  lemma VerifierIsConnected(s: State, m: Message)
    requires Agreed(s) && MessageOk(s.row, m)
    ensures s.peer.Verifier(m) == Some(s.row.connectionDetails.value.soloMachineClientId)
  {
  }

  /** An accepted proof was signed at the committed sequence with nothing lost, unless a rejected acknowledgement
      had been committed. */
  lemma AcceptedIsCurrent(s: State, i: nat, m: Message)
    requires Inv(s) && i in s.calls && s.calls[i].Offers(m)
    requires s.peer.InStep(m)
    ensures s.calls[i].phase.Signed? || s.tally.rejectedAcks == 0 ==> !AnyInFlight(s)
    ensures s.tally.rejectedAcks == 0 ==> s.tally.lost == 0 && m.SignedSequence() == s.row.sequence
    ensures s.tally.rejectedAcks == 0 && m.RecvPacket? ==> m.packetSequence == s.row.packetSequence
  {
    assert CallOk(s.id, s.row, s.peer, s.calls[i]);
    VerifierIsConnected(s, m);
  }

  /** A message for the connected client touches nothing that belongs to a running call. */
  lemma DeliveryKeepsCalls(s: State, m: Message, willing: bool)
    requires Inv(s) && MessageOk(s.row, m)
    ensures CallsOk(s.(peer := s.peer.Deliver(m, willing)))
  {
    VerifierIsConnected(s, m);
    forall j | j in s.calls
      ensures CallOk(s.id, s.row, s.peer.Deliver(m, willing), s.calls[j])
    {
      assert CallOk(s.id, s.row, s.peer, s.calls[j]);
    }
  }

  lemma BroadcastCalls(s: State, i: nat, willing: bool)
    requires Inv(s) && CanBroadcast(s, i)
    ensures CallsOk(DoBroadcast(s, i, willing))
  {
    assert CallOk(s.id, s.row, s.peer, s.calls[i]);
    DeliveryKeepsCalls(s, s.calls[i].phase.message, willing);
  }

  lemma ArriveRow(s: State, i: nat, willing: bool)
    requires Inv(s) && CanArrive(s, i)
    ensures var t := DoArrive(s, i, willing);
      Conserved(t) && Gapless(t) && Ledger(t) && HistoryBounded(t) && Agreed(t)
  {
    var t, m := DoArrive(s, i, willing), s.calls[i].phase.message;
    assert CallOk(s.id, s.row, s.peer, s.calls[i]);
    VerifierIsConnected(s, m);
    CountsSame(s, t, i);
    if s.peer.Accepts(m) {
      AcceptedIsCurrent(s, i, m);
    }
  }

  lemma ArriveKeepsInv(s: State, i: nat, willing: bool)
    requires Inv(s) && CanArrive(s, i)
    ensures Inv(DoArrive(s, i, willing))
  {
    assert CallOk(s.id, s.row, s.peer, s.calls[i]);
    DeliveryKeepsCalls(s, s.calls[i].phase.message, willing);
    ArriveRow(s, i, willing);
  }

  lemma BroadcastRow(s: State, i: nat, willing: bool)
    requires Inv(s) && CanBroadcast(s, i)
    ensures var t := DoBroadcast(s, i, willing);
      Conserved(t) && Gapless(t) && Ledger(t) && HistoryBounded(t) && Agreed(t)
  {
    var t := DoBroadcast(s, i, willing);
    var m := s.calls[i].phase.message;
    assert CallOk(s.id, s.row, s.peer, s.calls[i]);
    VerifierIsConnected(s, m);
    if t.calls[i].InFlight() {
      AcceptedIsCurrent(s, i, m);
      assert AnyInFlight(t);
      assert MintInFlight(t) <==> s.calls[i].kind.Mint?;
      assert Outstanding(t) == Outstanding(s);
    } else {
      CountsSame(s, t, i);
    }
  }

  lemma BroadcastKeepsInv(s: State, i: nat, willing: bool)
    requires Inv(s) && CanBroadcast(s, i)
    ensures Inv(DoBroadcast(s, i, willing))
  {
    BroadcastCalls(s, i, willing);
    BroadcastRow(s, i, willing);
  }

  lemma BroadcastAckSelf(s: State, i: nat, willing: bool)
    requires Inv(s) && CanBroadcastAck(s, i)
    ensures var t := DoBroadcastAck(s, i, willing); i in t.calls ==> CallOk(t.id, t.row, t.peer, t.calls[i])
  {
    assert CallOk(s.id, s.row, s.peer, s.calls[i]);
  }

  lemma BroadcastAckOther(s: State, i: nat, willing: bool, j: nat)
    requires Inv(s) && CanBroadcastAck(s, i) && j in s.calls && j != i
    ensures CallOk(s.id, s.row, DoBroadcastAck(s, i, willing).peer, s.calls[j])
  {
    assert CallOk(s.id, s.row, s.peer, s.calls[i]);
    assert CallOk(s.id, s.row, s.peer, s.calls[j]);
    if s.calls[j].Connecting? {
      assert Apart(s.calls[i].connect, s.calls[j].connect);
    }
  }

  lemma BroadcastAckCalls(s: State, i: nat, willing: bool)
    requires Inv(s) && CanBroadcastAck(s, i)
    ensures CallsOk(DoBroadcastAck(s, i, willing))
  {
    var t := DoBroadcastAck(s, i, willing);
    forall j | j in t.calls
      ensures CallOk(t.id, t.row, t.peer, t.calls[j])
    {
      if j == i {
        BroadcastAckSelf(s, i, willing);
      } else {
        BroadcastAckOther(s, i, willing, j);
      }
    }
  }

  /** An accepted acknowledgement touches nothing that is connected. */
  lemma BroadcastAckRow(s: State, i: nat)
    requires Inv(s) && CanBroadcastAck(s, i) && s.peer.Accepts(AckMessage(s.calls[i].connect))
    ensures var t := DoBroadcastAck(s, i, true);
      Conserved(t) && Gapless(t) && Ledger(t) && HistoryBounded(t) && Agreed(t)
  {
    var t := DoBroadcastAck(s, i, true);
    assert CallOk(s.id, s.row, s.peer, s.calls[i]);
    CountsSame(s, t, i);
    if s.row.connectionDetails.Some? {
      assert ApartFrom(s.row.connectionDetails.value, s.calls[i].connect);
    }
  }

  lemma BroadcastAckKeepsInv(s: State, i: nat, willing: bool)
    requires Inv(s) && CanBroadcastAck(s, i)
    ensures Inv(DoBroadcastAck(s, i, willing))
  {
    var t := DoBroadcastAck(s, i, willing);
    if willing && s.peer.Accepts(AckMessage(s.calls[i].connect)) {
      BroadcastAckCalls(s, i, willing);
      BroadcastAckRow(s, i);
      HolderWith(s, i, t.calls[i]);
      ApartWith(s, i, t.calls[i]);
    } else {
      RemoveKeepsInv(s, i);
      assert t == s.Without(i);
    }
  }

  // ----- steps that end a transaction -----

  lemma RemoveKeepsInv(s: State, i: nat)
    requires Inv(s) && i in s.calls && !Counted(s, i)
    ensures Inv(s.Without(i))
  {
    CountsSame(s, s.Without(i), i);
  }

  lemma DropInFlightKeepsInv(s: State, i: nat)
    requires Inv(s) && i in s.calls && s.calls[i].InFlight()
    ensures Inv(DoDrop(s, i))
  {
    var t := DoDrop(s, i);
    assert CallOk(s.id, s.row, s.peer, s.calls[i]);
    assert !AnyInFlight(t);
    assert Outstanding(t) == Outstanding(s);
  }

  lemma DropKeepsInv(s: State, i: nat)
    requires Inv(s) && i in s.calls
    ensures Inv(DoDrop(s, i))
  {
    var t := DoDrop(s, i);
    assert CallOk(s.id, s.row, s.peer, s.calls[i]);
    if s.calls[i].InFlight() {
      DropInFlightKeepsInv(s, i);
    } else if Counted(s, i) {
      FlightSame(s, t, i);
      assert Outstanding(t) == Outstanding(s) - {i};
    } else {
      RemoveKeepsInv(s, i);
    }
  }

  lemma RecordKeepsInv(s: State, i: nat)
    requires Inv(s) && CanRecord(s, i)
    ensures Inv(s.(history := s.history + 1).Without(i))
  {
    var t := s.(history := s.history + 1).Without(i);
    FlightSame(s, t, i);
    assert i in Outstanding(s);
    assert Outstanding(t) == Outstanding(s) - {i};
  }

  lemma CommitOther(s: State, i: nat, j: nat)
    requires Inv(s) && CanCommit(s, i) && j in s.calls && j != i
    ensures CallOk(s.id, DoCommit(s, i).row, s.peer, s.calls[j])
  {
    assert CallOk(s.id, s.row, s.peer, s.calls[i]);
    assert CallOk(s.id, s.row, s.peer, s.calls[j]);
  }

  lemma CommitCalls(s: State, i: nat)
    requires Inv(s) && CanCommit(s, i)
    ensures CallsOk(DoCommit(s, i))
  {
    var t := DoCommit(s, i);
    assert CallOk(s.id, s.row, s.peer, s.calls[i]);
    forall j | j in t.calls && j != i
      ensures CallOk(t.id, t.row, t.peer, t.calls[j])
    {
      CommitOther(s, i, j);
    }
  }

  lemma CommitCounts(s: State, i: nat)
    requires OneHolder(s) && CanCommit(s, i)
    ensures !AnyInFlight(DoCommit(s, i)) && !MintInFlight(DoCommit(s, i))
    ensures AnyInFlight(s) == s.calls[i].phase.accepted
    ensures MintInFlight(s) == (s.calls[i].phase.accepted && s.calls[i].kind.Mint?)
    ensures Outstanding(DoCommit(s, i)) == if s.calls[i].kind.Mint? then Outstanding(s) + {i} else Outstanding(s)
  {
  }

  lemma CommitRow(s: State, i: nat)
    requires Inv(s) && CanCommit(s, i)
    ensures var t := DoCommit(s, i); Conserved(t) && Gapless(t) && Ledger(t) && HistoryBounded(t) && Agreed(t)
  {
    assert CallOk(s.id, s.row, s.peer, s.calls[i]);
    CommitCounts(s, i);
  }

  lemma CommitKeepsInv(s: State, i: nat)
    requires Inv(s) && CanCommit(s, i)
    ensures Inv(DoCommit(s, i))
  {
    CommitCalls(s, i);
    CommitRow(s, i);
    assert CallOk(s.id, s.row, s.peer, s.calls[i]);
  }

  lemma CommitConnectCalls(s: State, i: nat)
    requires Inv(s) && At(s, i, DETAILS_WRITTEN)
    ensures CallsOk(DoCommitConnect(s, i))
  {
    var t := DoCommitConnect(s, i);
    assert CallOk(s.id, s.row, s.peer, s.calls[i]);
    forall j | j in t.calls
      ensures CallOk(t.id, t.row, t.peer, t.calls[j])
    {
      assert CallOk(s.id, s.row, s.peer, s.calls[j]);
    }
  }

  lemma CommitConnectRow(s: State, i: nat)
    requires Inv(s) && At(s, i, DETAILS_WRITTEN)
    ensures var t := DoCommitConnect(s, i); Conserved(t) && Gapless(t) && Ledger(t) && HistoryBounded(t) && Agreed(t)
  {
    assert CallOk(s.id, s.row, s.peer, s.calls[i]);
    assert !AnyInFlight(s);
    CountsSame(s, DoCommitConnect(s, i), i);
  }

  lemma CommitConnectKeepsInv(s: State, i: nat)
    requires Inv(s) && At(s, i, DETAILS_WRITTEN)
    ensures Inv(DoCommitConnect(s, i))
  {
    CommitConnectCalls(s, i);
    CommitConnectRow(s, i);
    assert CallOk(s.id, s.row, s.peer, s.calls[i]);
  }

  /** The re-read inside `close_channel` sees the blanked channel ids, so the counterparty is never asked. */
  lemma CloseInitNeverEnabled(s: State, i: nat)
    requires Inv(s)
    ensures !CanCloseInit(s, i)
  {
    if i in s.calls {
      assert CallOk(s.id, s.row, s.peer, s.calls[i]);
    }
  }

  lemma StartEventKeepsInv(s: State, e: Event)
    requires Inv(s) && Enabled(s, e) && CanStart(s, e.call)
    ensures Inv(Step(s, e))
  {
    match e
    case StartMint(i) => StartKeepsInv(s, i, Proving(Mint, s.row, Ready));
    case StartUpdateSigner(i, newKey) => StartKeepsInv(s, i, Proving(UpdateSigner(newKey), s.row, Ready));
    case StartBurn(i, packets) => StartKeepsInv(s, i, Proving(Acks(s.row.connectionDetails, packets), s.row, Ready));
    case StartConnect(i, signer) => StartKeepsInv(s, i, Connecting(NewConnect(s.row, signer)));
    case StartClose(i) => StartKeepsInv(s, i, Closing(s.row, false));
    case _ => assert false;
  }

  /** Steps of `connect` inside its open transaction. */
  predicate InTransaction(e: Event) {
    e.CreateTendermintClient? || e.OpenTry? || e.SignAck? || e.OpenConfirm? || e.WriteDetails?
  }

  lemma InsertKeepsInv(s: State, e: Event)
    requires Inv(s) && Enabled(s, e) && (e.CreateTendermintClient? || e.OpenTry?)
    ensures Inv(Step(s, e))
  {
    match e
    case CreateTendermintClient(i, id, height) => CreateTendermintClientKeepsInv(s, i, id, height);
    case OpenTry(i, id) => OpenTryKeepsInv(s, i, id);
    case _ => assert false;
  }

  lemma UpdateKeepsInv(s: State, e: Event)
    requires Inv(s) && Enabled(s, e) && (e.SignAck? || e.OpenConfirm? || e.WriteDetails?)
    ensures Inv(Step(s, e))
  {
    match e
    case SignAck(i) => SignAckKeepsInv(s, i);
    case OpenConfirm(i) => OpenConfirmKeepsInv(s, i);
    case WriteDetails(i) => WriteDetailsKeepsInv(s, i);
    case _ => assert false;
  }

  lemma InTransactionKeepsInv(s: State, e: Event)
    requires Inv(s) && Enabled(s, e) && InTransaction(e)
    ensures Inv(Step(s, e))
  {
    if e.CreateTendermintClient? || e.OpenTry? {
      InsertKeepsInv(s, e);
    } else {
      UpdateKeepsInv(s, e);
    }
  }

  lemma ConnectEventKeepsInv(s: State, e: Event)
    requires Inv(s) && Enabled(s, e) && OfConnect(e) && !InTransaction(e)
    ensures Inv(Step(s, e))
  {
    match e
    case CreateSoloMachineClient(i, id) => CreateSoloMachineClientKeepsInv(s, i, id);
    case OpenInit(i, id) => OpenInitKeepsInv(s, i, id);
    case BroadcastAck(i, willing) => BroadcastAckKeepsInv(s, i, willing);
    case CommitConnect(i) => CommitConnectKeepsInv(s, i);
    case _ => assert false;
  }

  /** Steps of a signed message. */
  predicate OfMessage(e: Event) {
    e.Sign? || e.Broadcast? || e.TimeOut? || e.Arrive?
  }

  lemma MessageEventKeepsInv(s: State, e: Event)
    requires Inv(s) && Enabled(s, e) && OfMessage(e)
    ensures Inv(Step(s, e))
  {
    match e
    case Sign(i, signer) => SignKeepsInv(s, i, signer);
    case Broadcast(i, willing) => BroadcastKeepsInv(s, i, willing);
    case TimeOut(i) => TimeOutKeepsInv(s, i);
    case Arrive(i, willing) => ArriveKeepsInv(s, i, willing);
    case _ => assert false;
  }

  lemma OtherEventKeepsInv(s: State, e: Event)
    requires Inv(s) && Enabled(s, e) && e.call in s.calls && !OfConnect(e) && !OfMessage(e)
    ensures Inv(Step(s, e))
  {
    if e.Commit? {
      CommitKeepsInv(s, e.call);
    } else if e.RecordMint? {
      RecordKeepsInv(s, e.call);
    } else if e.Drop? {
      DropKeepsInv(s, e.call);
    } else if e.BlankDetails? {
      BlankDetailsKeepsInv(s, e.call);
    } else {
      CloseInitNeverEnabled(s, e.call);
    }
  }

  /** Every step keeps the invariant. */
  lemma StepKeepsInv(s: State, e: Event)
    requires Inv(s) && Enabled(s, e)
    ensures Inv(Step(s, e))
  {
    if e.call !in s.calls {
      StartEventKeepsInv(s, e);
    } else if InTransaction(e) {
      InTransactionKeepsInv(s, e);
    } else if OfConnect(e) {
      ConnectEventKeepsInv(s, e);
    } else if OfMessage(e) {
      MessageEventKeepsInv(s, e);
    } else {
      OtherEventKeepsInv(s, e);
    }
  }

  lemma {:induction false} RunKeepsInv(s: State, events: seq<Event>)
    requires Inv(s) && IsRun(s, events)
    ensures Inv(Run(s, events))
    decreases |events|
  {
    if events == [] {
    } else {
      StepKeepsInv(s, events[0]);
      RunKeepsInv(Step(s, events[0]), events[1..]);
    }
  }
}
