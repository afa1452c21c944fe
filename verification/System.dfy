/** All chains together, over the one path-keyed `ibc_data` table they share
    (solo-machine-core/src/model/ibc.rs). */
module System {
  import opened Wrappers
  import opened Height
  import opened Paths
  import opened Records
  import opened Counterparty
  import opened Machine
  import opened Invariant
  import opened Guarantees

  datatype System = System(chains: map<string, State>, store: map<string, Record>)

  datatype SystemEvent =
    | AddChain(id: string, state: State)
    | OnChain(id: string, event: Event)

  function WritesOf(call: Call): map<string, Record> {
    if call.Connecting? then call.connect.writes else map[]
  }

  /** The records that the open transaction of call `i` has put into the table. */
  function WritesAt(s: State, i: nat): map<string, Record> {
    if i in s.calls then WritesOf(s.calls[i]) else map[]
  }

  /** A key is free for INSERT: not committed, and not inserted by any open transaction. */
  ghost predicate FreeKey(y: System, key: string) {
    && key !in y.store
    && forall id, i: nat | id in y.chains :: key !in WritesAt(y.chains[id], i)
  }

  /** The store paths a step inserts. */
  function Inserted(s: State, e: Event): set<StorePath> {
    match e
    case CreateTendermintClient(_, id, height) => {ClientState(id), ConsensusState(id, height)}
    case OpenTry(i, id) => if At(s, i, CONNECTION_INIT) then {Connection(id)} else {Channel(s.row.portId, id)}
    case _ => {}
  }

  /** Besides the call's own conditions, INSERT needs free keys, generated identifiers are well-formed, and
      `close_channel` needs the channel record. */
  ghost predicate SystemEnabled(y: System, e: SystemEvent) {
    match e
    case AddChain(id, state) =>
      id !in y.chains && state.id == id && Initial(state)
    case OnChain(id, event) =>
      && id in y.chains
      && Enabled(y.chains[id], event)
      && (forall p | p in Inserted(y.chains[id], event) :: p.Valid() && FreeKey(y, Key(p)))
      && (event.BlankDetails? ==> ClosedChannel(y, id, event.call) in y.store)
  }

  /** The key of the channel record that `close_channel` sets Closed. */
  ghost function ClosedChannel(y: System, id: string, i: nat): string
    requires id in y.chains && CanBlankDetails(y.chains[id], i)
  {
    var s := y.chains[id];
    Key(Channel(s.calls[i].chain.portId, s.calls[i].chain.connectionDetails.value.tendermintChannelId.value))
  }

  /** The records a commit adds to the store. Closing a channel would set one record Closed, but that commit is never
      reached (Guarantees.CloseChannelNeverCloses). */
  function Committed(s: State, e: Event): map<string, Record>
    requires Enabled(s, e)
  {
    if e.CommitConnect? then s.calls[e.call].connect.writes else map[]
  }

  function SystemStep(y: System, e: SystemEvent): System
    requires e.OnChain? ==> e.id in y.chains && Enabled(y.chains[e.id], e.event)
  {
    match e
    case AddChain(id, state) => y.(chains := y.chains[id := state])
    case OnChain(id, event) =>
      System(y.chains[id := Step(y.chains[id], event)], y.store + Committed(y.chains[id], event))
  }

  // ----- the invariant of the store -----

  ghost predicate ChainsOk(y: System) {
    forall id | id in y.chains :: y.chains[id].id == id && Inv(y.chains[id])
  }

  ghost predicate WritesUncommitted(y: System) {
    forall id, i: nat, key | id in y.chains && key in WritesAt(y.chains[id], i) :: key !in y.store
  }

  /** No key has been inserted by two open transactions. */
  ghost predicate WritesDisjoint(y: System) {
    forall id, i: nat, id', i': nat, key |
      id in y.chains && id' in y.chains && key in WritesAt(y.chains[id], i) && key in WritesAt(y.chains[id'], i') ::
      id == id' && i == i'
  }

  /** The keys of the records that connection details point to. */
  ghost function KeysOf(portId: string, d: ConnectionDetails): set<string>
    requires d.HasChannels()
  {
    {Key(ClientState(d.tendermintClientId)),
     Key(Connection(d.tendermintConnectionId)),
     Key(Channel(portId, d.tendermintChannelId.value))}
  }

  /** The recorded client exists with the consensus state of its height; the recorded connection is Open over it and
      names the counterparty's; the recorded channel is Open over that connection alone and names the
      counterparty's. */
  ghost predicate Recorded(store: map<string, Record>, id: string, portId: string, d: ConnectionDetails)
    requires d.HasChannels()
  {
    var client, connection, channel := Key(ClientState(d.tendermintClientId)),
      Key(Connection(d.tendermintConnectionId)), Key(Channel(portId, d.tendermintChannelId.value));
    && client in store && store[client].ClientRecord? && store[client].chainId == id
    && Key(ConsensusState(d.tendermintClientId, store[client].latestHeight)) in store
    && store[Key(ConsensusState(d.tendermintClientId, store[client].latestHeight))] ==
      ConsensusRecord(store[client].latestHeight)
    && connection in store
    && store[connection] ==
      ConnectionRecord(Open, d.tendermintClientId, d.soloMachineClientId, d.soloMachineConnectionId)
    && channel in store
    && store[channel] == ChannelRecord(Open, portId, d.soloMachineChannelId.value, [d.tendermintConnectionId])
  }

  ghost predicate Live(y: System, id: string) {
    && id in y.chains
    && y.chains[id].row.connectionDetails.Some?
    && y.chains[id].row.connectionDetails.value.HasChannels()
  }

  ghost predicate Integrity(y: System) {
    forall id | Live(y, id) :: Recorded(y.store, id, y.chains[id].row.portId, y.chains[id].row.connectionDetails.value)
  }

  ghost predicate NothingShared(y: System) {
    forall id, id' | Live(y, id) && Live(y, id') && id != id' ::
      KeysOf(y.chains[id].row.portId, y.chains[id].row.connectionDetails.value) !!
      KeysOf(y.chains[id'].row.portId, y.chains[id'].row.connectionDetails.value)
  }

  ghost predicate KindMatches(p: StorePath, record: Record) {
    match p
    case ClientState(_) => record.ClientRecord?
    case ConsensusState(_, _) => record.ConsensusRecord?
    case Connection(_) => record.ConnectionRecord?
    case Channel(_, _) => record.ChannelRecord?
    case _ => false
  }

  /** What a valid path finds is of the kind the path is for. */
  ghost predicate Typed(records: map<string, Record>) {
    forall p: StorePath | p.Valid() && Key(p) in records :: KindMatches(p, records[Key(p)])
  }

  ghost predicate AllTyped(y: System) {
    && Typed(y.store)
    && forall id, i: nat | id in y.chains :: Typed(WritesAt(y.chains[id], i))
  }

  ghost predicate SystemInv(y: System) {
    && ChainsOk(y)
    && WritesUncommitted(y)
    && WritesDisjoint(y)
    && Integrity(y)
    && NothingShared(y)
    && AllTyped(y)
  }

  // ----- how a step changes the writes of open transactions -----

  /** A record put under the key of a valid path of its kind keeps a map typed: by injectivity no other valid path has
      that key. */
  lemma TypedInsert(records: map<string, Record>, p: StorePath, record: Record)
    requires Typed(records) && p.Valid() && KindMatches(p, record)
    ensures Typed(records[Key(p) := record])
  {
    forall q: StorePath | q.Valid() && Key(q) in records[Key(p) := record]
      ensures KindMatches(q, records[Key(p) := record][Key(q)])
    {
      if Key(q) == Key(p) {
        KeyInjective(p, q);
      }
    }
  }

  /** An update in place that keeps the kind keeps a map typed. */
  lemma TypedUpdate(records: map<string, Record>, key: string, record: Record)
    requires Typed(records) && key in records
    requires forall p: StorePath :: KindMatches(p, records[key]) ==> KindMatches(p, record)
    ensures Typed(records[key := record])
  {
  }

  /** Call `i` alone changed, and its writes are typed and hold no key that was neither its own before nor
      inserted. */
  ghost predicate WritesFollow(s: State, t: State, i: nat, inserted: set<StorePath>) {
    && (Typed(WritesAt(s, i)) ==> Typed(WritesAt(t, i)))
    && (forall k | k in WritesAt(t, i) :: k in WritesAt(s, i) || exists p :: p in inserted && k == Key(p))
  }

  ghost predicate Follows(s: State, t: State, i: nat, inserted: set<StorePath>) {
    OthersSame(s, t, i) && WritesFollow(s, t, i, inserted)
  }

  lemma CreateTendermintClientWrites(s: State, i: nat, id: string, height: Height)
    requires CanCreateTendermintClient(s, i, id, height)
    requires ClientState(id).Valid() && ConsensusState(id, height).Valid()
    ensures WritesFollow(s, DoCreateTendermintClient(s, i, id, height), i,
                         {ClientState(id), ConsensusState(id, height)})
  {
    var writes := s.calls[i].connect.writes;
    var client, consensus := ClientState(id), ConsensusState(id, height);
    if Typed(writes) {
      TypedInsert(writes, client, ClientRecord(s.id, height));
      TypedInsert(writes[Key(client) := ClientRecord(s.id, height)], consensus, ConsensusRecord(height));
    }
  }

  lemma OpenTryWrites(s: State, i: nat, id: string)
    requires CanOpenTry(s, i, id) && CallOk(s.id, s.row, s.peer, s.calls[i])
    requires forall p | p in Inserted(s, OpenTry(i, id)) :: p.Valid()
    ensures WritesFollow(s, DoOpenTry(s, i, id), i, Inserted(s, OpenTry(i, id)))
  {
    var c := s.calls[i].connect;
    var p := if At(s, i, CONNECTION_INIT) then Connection(id) else Channel(s.row.portId, id);
    assert p in Inserted(s, OpenTry(i, id));
    if Typed(c.writes) {
      TypedInsert(c.writes, p, DoOpenTry(s, i, id).calls[i].connect.writes[Key(p)]);
    }
  }

  lemma OpenConfirmWrites(s: State, i: nat)
    requires CanOpenConfirm(s, i)
    ensures WritesFollow(s, DoOpenConfirm(s, i), i, {})
  {
    var c := s.calls[i].connect;
    var key := if c.stage == CONNECTION_ACK then c.ConnectionKey() else c.ChannelKey();
    if Typed(c.writes) {
      TypedUpdate(c.writes, key, c.writes[key].SetState(Open));
    }
  }

  lemma OtherWrites(s: State, e: Event)
    requires Enabled(s, e) && !e.CreateTendermintClient? && !e.OpenTry? && !e.OpenConfirm?
    ensures WritesFollow(s, Step(s, e), e.call, {})
  {
    assert WritesAt(Step(s, e), e.call) == WritesAt(s, e.call) || WritesAt(Step(s, e), e.call) == map[];
  }

  lemma StepFollows(s: State, e: Event)
    requires e.call in s.calls ==> CallOk(s.id, s.row, s.peer, s.calls[e.call])
    requires Enabled(s, e) && forall p | p in Inserted(s, e) :: p.Valid()
    ensures Follows(s, Step(s, e), e.call, Inserted(s, e))
  {
    StepTouchesOneCall(s, e);
    if e.CreateTendermintClient? {
      assert ClientState(e.id) in Inserted(s, e) && ConsensusState(e.id, e.height) in Inserted(s, e);
      CreateTendermintClientWrites(s, e.call, e.id, e.height);
    } else if e.OpenTry? {
      OpenTryWrites(s, e.call, e.id);
    } else if e.OpenConfirm? {
      OpenConfirmWrites(s, e.call);
    } else {
      OtherWrites(s, e);
    }
  }

  // ----- steps -----

  /** A step of one chain, seen from the shared table: chain `id` moves to `t` through its call `i`, the step inserts
      free keys, and commits either nothing or the writes of the call, which then is gone. */
  ghost predicate Moves(y: System, z: System, id: string, t: State, i: nat, inserted: set<StorePath>,
                        more: map<string, Record>) {
    && id in y.chains
    && z == System(y.chains[id := t], y.store + more)
    && Follows(y.chains[id], t, i, inserted)
    && (forall p | p in inserted :: FreeKey(y, Key(p)))
    && (more == map[] || (more == WritesAt(y.chains[id], i) && i !in t.calls))
  }

  /** Every key of an open transaction was there before, or was free and belongs to the call that took the step. */
  lemma WritesAfter(y: System, z: System, id: string, t: State, i: nat, inserted: set<StorePath>,
                    more: map<string, Record>,
                    a: string, j: nat, key: string)
    requires Moves(y, z, id, t, i, inserted, more)
    requires a in z.chains && key in WritesAt(z.chains[a], j)
    ensures a in y.chains && (key in WritesAt(y.chains[a], j) || (a == id && j == i && FreeKey(y, key)))
  {
  }

  lemma DisjointAfter(y: System, z: System, id: string, t: State, i: nat, inserted: set<StorePath>,
                      more: map<string, Record>)
    requires Moves(y, z, id, t, i, inserted, more) && WritesDisjoint(y)
    ensures WritesDisjoint(z)
  {
    forall a, j: nat, b, k: nat, key |
        a in z.chains && b in z.chains && key in WritesAt(z.chains[a], j) && key in WritesAt(z.chains[b], k)
      ensures a == b && j == k
    {
      WritesAfter(y, z, id, t, i, inserted, more, a, j, key);
      WritesAfter(y, z, id, t, i, inserted, more, b, k, key);
    }
  }

  lemma UncommittedAfter(y: System, z: System, id: string, t: State, i: nat, inserted: set<StorePath>,
                         more: map<string, Record>)
    requires Moves(y, z, id, t, i, inserted, more) && WritesDisjoint(y) && WritesUncommitted(y)
    ensures WritesUncommitted(z)
  {
    forall a, j: nat, key | a in z.chains && key in WritesAt(z.chains[a], j)
      ensures key !in z.store
    {
      WritesAfter(y, z, id, t, i, inserted, more, a, j, key);
    }
  }

  lemma TypedAfter(y: System, z: System, id: string, t: State, i: nat, inserted: set<StorePath>,
                   more: map<string, Record>)
    requires Moves(y, z, id, t, i, inserted, more) && AllTyped(y)
    ensures AllTyped(z)
  {
    forall j: nat
      ensures Typed(WritesAt(t, j))
    {
      assert Typed(WritesAt(y.chains[id], j));
      assert j != i ==> WritesAt(t, j) == WritesAt(y.chains[id], j);
    }
    assert Typed(more);
  }

  /** The records of a committing `connect` are those its details point to. */
  lemma CommitRecords(s: State, i: nat)
    requires At(s, i, DETAILS_WRITTEN) && CallOk(s.id, s.row, s.peer, s.calls[i])
    ensures var d := s.calls[i].connect.Details();
      && Recorded(s.calls[i].connect.writes, s.id, s.row.portId, d)
      && KeysOf(s.row.portId, d) <= s.calls[i].connect.writes.Keys
  {
  }

  lemma RecordedInMore(store: map<string, Record>, more: map<string, Record>, id: string, portId: string,
                       d: ConnectionDetails)
    requires d.HasChannels() && store.Keys !! more.Keys
    ensures Recorded(store, id, portId, d) ==> Recorded(store + more, id, portId, d) && KeysOf(portId, d) <= store.Keys
    ensures Recorded(more, id, portId, d) ==> Recorded(store + more, id, portId, d)
  {
  }

  /** The chain that moves keeps its details, or takes those of the records it commits. */
  ghost predicate DetailsFollow(s: State, t: State, more: map<string, Record>) {
    && t.row.portId == s.row.portId
    && (t.row.connectionDetails == s.row.connectionDetails
        || (t.row.connectionDetails.Some? && t.row.connectionDetails.value.HasChannels()
            && Recorded(more, s.id, t.row.portId, t.row.connectionDetails.value)
            && KeysOf(t.row.portId, t.row.connectionDetails.value) <= more.Keys))
  }

  lemma IntegrityAfter(y: System, z: System, id: string, t: State, more: map<string, Record>)
    requires id in y.chains && y.chains[id].id == id && z == System(y.chains[id := t], y.store + more)
    requires Integrity(y) && NothingShared(y) && more.Keys !! y.store.Keys
    requires DetailsFollow(y.chains[id], t, more)
    ensures Integrity(z) && NothingShared(z)
  {
    forall a | Live(z, a)
      ensures Recorded(z.store, a, z.chains[a].row.portId, z.chains[a].row.connectionDetails.value)
      ensures Live(y, a) && z.chains[a].row.connectionDetails == y.chains[a].row.connectionDetails ==>
        KeysOf(z.chains[a].row.portId, z.chains[a].row.connectionDetails.value) <= y.store.Keys
    {
      RecordedInMore(y.store, more, a, z.chains[a].row.portId, z.chains[a].row.connectionDetails.value);
    }
  }

  lemma StepDetailsFollow(s: State, e: Event)
    requires Inv(s) && Enabled(s, e)
    ensures DetailsFollow(s, Step(s, e), Committed(s, e))
  {
    if e.CommitConnect? {
      assert CallOk(s.id, s.row, s.peer, s.calls[e.call]);
      CommitRecords(s, e.call);
    } else if e.Commit? {
      assert CallOk(s.id, s.row, s.peer, s.calls[e.call]);
    } else {
      OnlyCommitsChangeTheRow(s, e);
    }
  }

  lemma StepMoves(y: System, id: string, e: Event)
    requires SystemInv(y) && SystemEnabled(y, OnChain(id, e))
    ensures var s, t := y.chains[id], Step(y.chains[id], e);
      && Inv(s) && Inv(t) && t.id == s.id == id
      && Moves(y, SystemStep(y, OnChain(id, e)), id, t, e.call, Inserted(s, e), Committed(s, e))
      && DetailsFollow(s, t, Committed(s, e))
      && Committed(s, e).Keys !! y.store.Keys
  {
    var s := y.chains[id];
    StepKeepsInv(s, e);
    StepDetailsFollow(s, e);
    if e.call in s.calls {
      assert CallOk(s.id, s.row, s.peer, s.calls[e.call]);
    }
    StepFollows(s, e);
    StepKeepsId(s, e);
  }

  lemma StepKeepsId(s: State, e: Event)
    requires Enabled(s, e)
    ensures Step(s, e).id == s.id
    ensures Committed(s, e) == map[] || (Committed(s, e) == WritesAt(s, e.call) && e.call !in Step(s, e).calls)
  {
  }

  lemma AddChainWrites(y: System, id: string, state: State)
    requires WritesUncommitted(y) && WritesDisjoint(y) && AllTyped(y) && id !in y.chains && state.calls == map[]
    ensures var z := y.(chains := y.chains[id := state]); WritesUncommitted(z) && WritesDisjoint(z) && AllTyped(z)
  {
    assert forall i: nat :: WritesAt(state, i) == map[];
  }

  lemma AddChainRecords(y: System, id: string, state: State)
    requires Integrity(y) && NothingShared(y) && id !in y.chains && state.row.connectionDetails.None?
    ensures var z := y.(chains := y.chains[id := state]); Integrity(z) && NothingShared(z)
  {
    var z := y.(chains := y.chains[id := state]);
    assert forall a | Live(z, a) :: Live(y, a) && z.chains[a] == y.chains[a];
  }

  lemma AddChainKeepsInv(y: System, id: string, state: State)
    requires SystemInv(y) && id !in y.chains && state.id == id && Initial(state)
    ensures SystemInv(y.(chains := y.chains[id := state]))
  {
    InitialInv(state);
    AddChainWrites(y, id, state);
    AddChainRecords(y, id, state);
  }

  lemma MoveKeepsInv(y: System, z: System, id: string, t: State, i: nat, inserted: set<StorePath>,
                     more: map<string, Record>)
    requires SystemInv(y) && Moves(y, z, id, t, i, inserted, more) && Inv(t) && t.id == y.chains[id].id == id
    requires DetailsFollow(y.chains[id], t, more) && more.Keys !! y.store.Keys
    ensures SystemInv(z)
  {
    DisjointAfter(y, z, id, t, i, inserted, more);
    UncommittedAfter(y, z, id, t, i, inserted, more);
    TypedAfter(y, z, id, t, i, inserted, more);
    IntegrityAfter(y, z, id, t, more);
  }

  lemma OnChainKeepsInv(y: System, id: string, e: Event)
    requires SystemInv(y) && SystemEnabled(y, OnChain(id, e))
    ensures SystemInv(SystemStep(y, OnChain(id, e)))
  {
    var s, t := y.chains[id], Step(y.chains[id], e);
    StepMoves(y, id, e);
    MoveKeepsInv(y, SystemStep(y, OnChain(id, e)), id, t, e.call, Inserted(s, e), Committed(s, e));
  }

  /** Every step of every chain keeps the invariant of the shared table. */
  lemma SystemStepKeepsInv(y: System, e: SystemEvent)
    requires SystemInv(y) && SystemEnabled(y, e)
    ensures SystemInv(SystemStep(y, e))
  {
    match e
    case AddChain(id, state) => AddChainKeepsInv(y, id, state);
    case OnChain(id, event) => OnChainKeepsInv(y, id, event);
  }

  ghost predicate IsSystemRun(y: System, events: seq<SystemEvent>)
    decreases |events|
  {
    events == [] || (SystemEnabled(y, events[0]) && IsSystemRun(SystemStep(y, events[0]), events[1..]))
  }

  ghost function SystemRun(y: System, events: seq<SystemEvent>): System
    requires IsSystemRun(y, events)
    decreases |events|
  {
    if events == [] then y else SystemRun(SystemStep(y, events[0]), events[1..])
  }

  const EMPTY := System(map[], map[])

  lemma {:induction false} SystemRunKeepsInv(y: System, events: seq<SystemEvent>)
    requires SystemInv(y) && IsSystemRun(y, events)
    ensures SystemInv(SystemRun(y, events))
    decreases |events|
  {
    if events == [] {
    } else {
      SystemStepKeepsInv(y, events[0]);
      SystemRunKeepsInv(SystemStep(y, events[0]), events[1..]);
    }
  }

  ghost predicate AllReachable(y: System) {
    forall id | id in y.chains :: Reachable(y.chains[id])
  }

  lemma {:induction false} SystemRunStaysReachable(y: System, events: seq<SystemEvent>)
    requires AllReachable(y) && IsSystemRun(y, events)
    ensures AllReachable(SystemRun(y, events))
    decreases |events|
  {
    if events == [] {
    } else {
      match events[0] {
        case AddChain(id, state) => InitialIsReachable(state);
        case OnChain(id, event) => StepStaysReachable(y.chains[id], event);
      }
      SystemRunStaysReachable(SystemStep(y, events[0]), events[1..]);
    }
  }

  /** Every chain of every state reached from the empty database is in a reachable state of its own, so that whatever
      holds of reachable states holds of it. */
  lemma ChainsAreReachable(events: seq<SystemEvent>, id: string)
    requires IsSystemRun(EMPTY, events) && id in SystemRun(EMPTY, events).chains
    ensures Reachable(SystemRun(EMPTY, events).chains[id])
  {
    SystemRunStaysReachable(EMPTY, events);
  }

  /** In every state reached from the empty database, by calls on any number of chains interleaved in any way, the
      records that a connected chain points to are there, open and naming each other; they agree with the open ends
      at that chain's counterparty; and no two chains share one. */
  lemma StoreIntegrity(events: seq<SystemEvent>, id: string)
    requires IsSystemRun(EMPTY, events)
    requires var y := SystemRun(EMPTY, events); id in y.chains && y.chains[id].row.connectionDetails.Some?
    ensures var y := SystemRun(EMPTY, events);
      && Live(y, id)
      && var s, d := y.chains[id], y.chains[id].row.connectionDetails.value;
      && Recorded(y.store, id, s.row.portId, d)
      && d.soloMachineConnectionId in s.peer.connections
      && s.peer.connections[d.soloMachineConnectionId] ==
         PeerConnection(Open, d.soloMachineClientId, d.tendermintClientId, Some(d.tendermintConnectionId))
      && d.soloMachineChannelId.value in s.peer.channels
      && s.peer.channels[d.soloMachineChannelId.value] ==
         PeerChannel(Open, s.row.portId, d.soloMachineConnectionId, s.row.portId, d.tendermintChannelId)
      && (forall other | Live(y, other) && other != id ::
            KeysOf(y.chains[other].row.portId, y.chains[other].row.connectionDetails.value) !! KeysOf(s.row.portId, d))
  {
    SystemRunKeepsInv(EMPTY, events);
  }

  lemma MovesFrame(y: System, z: System, id: string, t: State, i: nat, inserted: set<StorePath>,
                   more: map<string, Record>)
    requires Moves(y, z, id, t, i, inserted, more) && more.Keys !! y.store.Keys
    ensures forall other | other in y.chains && other != id :: other in z.chains && z.chains[other] == y.chains[other]
    ensures forall key | key in y.store :: key in z.store && z.store[key] == y.store[key]
  {
  }

  /** A step on one chain leaves every other chain alone, and no step ever changes or removes a committed record. */
  lemma StepsDoNotInterfere(y: System, e: SystemEvent)
    requires SystemInv(y) && SystemEnabled(y, e)
    ensures forall other | other in y.chains && other != e.id ::
      other in SystemStep(y, e).chains && SystemStep(y, e).chains[other] == y.chains[other]
    ensures forall key | key in y.store :: key in SystemStep(y, e).store && SystemStep(y, e).store[key] == y.store[key]
  {
    match e
    case AddChain(id, state) =>
    case OnChain(id, event) =>
      StepMoves(y, id, event);
      MovesFrame(y, SystemStep(y, e), id, Step(y.chains[id], event), event.call, Inserted(y.chains[id], event),
                 Committed(y.chains[id], event));
  }

  /** A failure of a call at any point leaves the committed store and the chain's row and keys unchanged. */
  lemma AbortChangesNothing(y: System, id: string, i: nat)
    requires id in y.chains && i in y.chains[id].calls
    ensures SystemEnabled(y, OnChain(id, Drop(i)))
    ensures var z := SystemStep(y, OnChain(id, Drop(i)));
      z.store == y.store && z.chains[id].row == y.chains[id].row && z.chains[id].keys == y.chains[id].keys
  {
    assert Inserted(y.chains[id], Drop(i)) == {};
    assert y.store + map[] == y.store;
  }
}
