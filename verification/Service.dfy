/** The calls of the service (solo-machine-core/src/service/ibc_service.rs), each executed from start to end on the
    database and the counterparty. What the world decides (the counterparty's mood, lost answers, failing commits,
    random characters) is passed in as parameters. The contract of every call says exactly what it sends, what it
    commits and when it succeeds, and that what it does is a run of the machine with this call alone, so that everything
    proved about runs holds of it. */
module Service {
  import opened Wrappers
  import opened Height
  import opened Paths
  import opened Records
  import opened Counterparty
  import opened Machine
  import opened Sequential
  import opened Database
  import opened Handshake
  import opened TransactionBuilder
  import opened Identifier
  import opened Events
  import opened Calls

  /** No answer stands for a failed or timed-out broadcast, whatever the counterparty did with the message. */
  datatype Response = NoAnswer | Answer(ok: bool)

  class IbcService {
    var tables: Tables
    var peers: map<string, Peer>
    var mints: map<string, nat>       // mint entries of the operations table
    ghost var tallies: map<string, Tally>
    ghost var sent: seq<Message>      // every proof ever broadcast, oldest first

    /** Every chain has its counterparty and its counts, keys belong to chains, and the shared store is intact. */
    ghost predicate Valid()
      reads this
    {
      && (forall id | id in tables.chains :: id in peers && id in mints && id in tallies)
      && (forall id | id in tables.chainKeys :: id in tables.chains)
      && Intact(tables)
    }

    /** The machine's view of one chain between calls. */
    ghost function StateOf(id: string): State
      requires Valid() && id in tables.chains
      reads this
    {
      State(id, tables.chains[id], tables.KeysOf(id), mints[id], tallies[id], peers[id], map[])
    }

    constructor ()
      ensures Valid() && tables == Tables(map[], map[], map[])
    {
      tables := Tables(map[], map[], map[]);
      peers, mints, tallies := map[], map[], map[];
      sent := [];
    }

    /** Sends a proof to the counterparty. */
    method Broadcast(id: string, m: Message, w: World) returns (response: Response)
      requires id in peers
      modifies this`peers, this`sent
      ensures sent == old(sent) + [m]
      ensures peers == old(peers)[id := old(peers[id]).Deliver(m, w.willing)]
      ensures response == if w.answers then Answer(w.willing && old(peers[id]).Accepts(m)) else NoAnswer
    {
      var accepted := w.willing && peers[id].Accepts(m);
      peers := peers[id := peers[id].Deliver(m, w.willing)];
      sent := sent + [m];
      response := if w.answers then Answer(accepted) else NoAnswer;
    }

    /** The machine's view of one chain while `call` runs. */
    ghost function StateDuring(id: string, call: Call): State
      requires Valid() && id in tables.chains
      reads this
    {
      During(StateOf(id), call)
    }

    /** The call gives up, and its open transaction is dropped. */
    ghost method Abandon(start: State, id: string, call: Call)
      requires Valid() && id in tables.chains && ReachesAlone(start, StateDuring(id, call))
      modifies this`tallies
      ensures Valid() && ReachesAlone(start, StateOf(id))
      ensures tallies == old(tallies)[id := old(tallies[id]).AfterDrop(call)]
    {
      AloneDrop(start, StateOf(id), call);
      tallies := tallies[id := tallies[id].AfterDrop(call)];
    }

    /** Broadcasts a signed message of the running call. */
    method Submit(ghost start: State, id: string, ghost kind: Kind, ghost chain: Chain, m: Message, w: World)
      returns (response: Response)
      requires Valid() && id in tables.chains && ReachesAlone(start, StateDuring(id, Proving(kind, chain, Signed(m))))
      modifies this`peers, this`sent
      ensures Valid() && sent == old(sent) + [m]
      ensures peers == old(peers)[id := old(peers[id]).Deliver(m, w.willing)]
      ensures response == if w.answers then Answer(w.willing && old(peers[id]).Accepts(m)) else NoAnswer
      ensures var accepted := w.willing && old(peers[id]).Accepts(m);
        ReachesAlone(start, StateDuring(id, Proving(kind, chain, Answered(accepted))))
    {
      ghost var s := StateOf(id);
      response := Broadcast(id, m, w);
      AloneBroadcast(start, s, kind, chain, m, w.willing);
      assert StateOf(id) == s.(peer := s.peer.Deliver(m, w.willing));
    }

    // ----- mint -----

    /** A mint that gets as far as signing its packet. */
    ghost predicate MintSigns(id: string, w: World)
      reads this
    {
      && id in tables.chains && tables.chains[id].Readable()
      && tables.chains[id].connectionDetails.Some? && tables.chains[id].connectionDetails.value.HasChannels()
      && Bumped(tables.chains[id], Kind.Mint).Readable()
      && w.builds
    }

    /** Commits an accepted mint. */
    method CommitMint(ghost start: State, id: string, tx: Transaction, ghost chain: Chain)
      requires Valid() && id in tables.chains
      requires ReachesAlone(start, StateDuring(id, Proving(Kind.Mint, chain, Answered(true))))
      requires chain == Bumped(tables.chains[id], Kind.Mint) && tx.view == tables.WithRow(id, chain)
      modifies this`tables
      ensures Valid() && tables == tx.view && ReachesAlone(start, StateDuring(id, Proving(Kind.Mint, chain, Recording)))
    {
      ghost var s := StateOf(id);
      AloneCommitMint(start, s, chain);
      CountingKeepsIntact(tables, id, chain);
      tables := tx.view;
      assert StateOf(id) == s.(row := chain);
    }

    /** Enters a committed mint into the history, unless the response reports no success or the entry fails. */
    method EnterMint(ghost start: State, id: string, ghost chain: Chain, recorded: bool)
      requires Valid() && id in tables.chains
      requires ReachesAlone(start, StateDuring(id, Proving(Kind.Mint, chain, Recording)))
      modifies this`mints, this`tallies
      ensures Valid() && SameBut(tallies, old(tallies), id) && mints == Entered(old(mints), id, recorded)
      ensures ReachesAlone(start, StateOf(id))
    {
      ghost var s := StateOf(id);
      if recorded {
        mints := Entered(mints, id, true);
        AloneRecordMint(start, s, chain);
        assert StateOf(id) == s.(history := s.history + 1);
      } else {
        Abandon(start, id, Proving(Kind.Mint, chain, Recording));
      }
    }

    method FinishMint(ghost start: State, id: string, tx: Transaction, ghost chain: Chain, commits: bool,
                      recorded: bool)
      requires Valid() && id in tables.chains
      requires ReachesAlone(start, StateDuring(id, Proving(Kind.Mint, chain, Answered(true))))
      requires chain == Bumped(tables.chains[id], Kind.Mint) && tx.view == tables.WithRow(id, chain)
      modifies this`tables, this`mints, this`tallies
      ensures Valid() && id in tables.chains && SameBut(tallies, old(tallies), id)
      ensures tables == if commits then tx.view else old(tables)
      ensures mints == Entered(old(mints), id, commits && recorded)
      ensures ReachesAlone(start, StateOf(id))
    {
      if commits {
        CommitMint(start, id, tx, chain);
        EnterMint(start, id, chain, recorded);
      } else {
        Abandon(start, id, Proving(Kind.Mint, chain, Answered(true)));
      }
    }

    /** Builds and signs the mint's message from the row that was read. */
    method PrepareMint(id: string, signer: string, tx: Transaction, chain: Chain, w: World)
      returns (built: Option<Built>)
      requires Valid() && id in tables.chains && tables.chains[id].Readable() && tx.view == tables
      requires chain == tables.chains[id]
      modifies tx
      ensures built.Some? <==> MintSigns(id, w)
      ensures built.Some? ==>
        && built.value == Built(PacketFor(chain, chain.connectionDetails.value, signer), Bumped(chain, Kind.Mint))
        && tx.view == tables.WithRow(id, built.value.chain)
        && ReachesAlone(StateOf(id),
                        StateDuring(id, Proving(Kind.Mint, built.value.chain, Signed(built.value.message))))
    {
      built := MsgTokenSend(tx, id, signer, chain);
      if built.Some? {
        AloneBeginAndSign(StateOf(id), StartMint(0), Kind.Mint, signer);
      }
      if !w.builds {
        built := None;
      }
    }

    /** Broadcasts, checks the response, commits. */
    method SubmitMint(ghost start: State, id: string, tx: Transaction, ghost chain: Chain, m: Message, w: World,
                      recorded: bool, announced: bool)
      returns (ok: bool)
      requires Valid() && id in tables.chains
      requires ReachesAlone(start, StateDuring(id, Proving(Kind.Mint, chain, Signed(m))))
      requires chain == Bumped(tables.chains[id], Kind.Mint) && tx.view == tables.WithRow(id, chain)
      modifies this`tables, this`peers, this`mints, this`tallies, this`sent
      ensures Valid() && SameBut(tallies, old(tallies), id) && id in tables.chains && ReachesAlone(start, StateOf(id))
      ensures sent == old(sent) + [m] && peers == old(peers)[id := old(peers[id]).Deliver(m, w.willing)]
      ensures var committed := w.willing && old(peers[id]).Accepts(m) && w.answers && w.commits;
        && tables == (if committed then tx.view else old(tables))
        && mints == Entered(old(mints), id, committed && recorded)
        && ok == (committed && recorded && announced)
    {
      var response := Submit(start, id, Kind.Mint, chain, m, w);
      if response.NoAnswer? || !response.ok {
        Abandon(start, id, Proving(Kind.Mint, chain, Answered(w.willing && old(peers[id]).Accepts(m))));
        return false;
      }
      FinishMint(start, id, tx, chain, w.commits, recorded);
      return w.commits && recorded && announced;
    }

    /** And is committed: the counterparty accepts the packet, its answer gets back, and the commit succeeds. */
    ghost predicate MintCommits(id: string, signer: string, w: World)
      requires Valid()
      reads this
    {
      && MintSigns(id, w) && w.willing && w.answers && w.commits
      && peers[id].Accepts(PacketFor(tables.chains[id], tables.chains[id].connectionDetails.value, signer))
    }

    /** Reads the row, signs a packet, broadcasts it, and commits if it was accepted; the history entry comes last. */
    method Mint(id: string, signer: string, w: World, recorded: bool, announced: bool) returns (ok: bool)
      requires Valid()
      modifies this`tables, this`peers, this`mints, this`tallies, this`sent
      ensures Valid() && SameBut(tallies, old(tallies), id)
      ensures id in old(tables.chains) ==> id in tables.chains && ReachesAlone(old(StateOf(id)), StateOf(id))
      ensures !old(MintSigns(id, w)) ==> sent == old(sent) && peers == old(peers)
      ensures old(MintSigns(id, w)) ==>
        var m := PacketFor(old(tables.chains[id]), old(tables.chains[id].connectionDetails.value), signer);
        sent == old(sent) + [m] && peers == old(peers)[id := old(peers[id]).Deliver(m, w.willing)]
      ensures tables == if old(MintCommits(id, signer, w))
                        then old(tables).WithRow(id, Bumped(old(tables.chains[id]), Kind.Mint)) else old(tables)
      ensures mints == Entered(old(mints), id, old(MintCommits(id, signer, w)) && recorded)
      ensures ok == (old(MintCommits(id, signer, w)) && recorded && announced)
    {
      ok := false;
      // the row is read outside the transaction
      if id !in tables.chains {
        return;
      }
      ghost var start := StateOf(id);
      AloneStart(start);
      var chain := tables.chains[id];
      if !chain.Readable() {
        return;
      }
      var tx := new Transaction.Begin(tables);
      var built := PrepareMint(id, signer, tx, chain, w);
      if built.None? {
        return;
      }
      ok := SubmitMint(start, id, tx, built.value.chain, built.value.message, w, recorded, announced);
    }

    // ----- update_signer -----

    /** An update that gets as far as signing its header. */
    ghost predicate UpdateSigns(id: string, newKey: string, w: World)
      reads this
    {
      && id in tables.chains && tables.chains[id].Readable() && newKey !in tables.KeysOf(id)
      && tables.chains[id].connectionDetails.Some?
      && tables.chains[id].NextSequence().Readable()
      && w.builds
    }

    /** Inserts the new key and signs the update in the same transaction. */
    method PrepareUpdate(id: string, signer: string, tx: Transaction, newKey: string, w: World)
      returns (built: Option<Built>)
      requires Valid() && id in tables.chains && tx.view == tables
      modifies tx
      ensures built.Some? <==> UpdateSigns(id, newKey, w)
      ensures built.Some? ==>
        var row := tables.chains[id];
        && built.value.chain == row.NextSequence()
        && built.value.message == HeaderFor(row, signer, newKey)
        && tx.view == tables.WithRow(id, built.value.chain).WithKey(id, newKey)
        && ReachesAlone(StateOf(id), StateDuring(id, Updating(newKey, built.value.chain, Signed(built.value.message))))
    {
      var chain := tx.GetChain(id);
      if chain.None? {
        return None;
      }
      var inserted := tx.AddChainKey(id, newKey);
      if !inserted {
        return None;
      }
      built := MsgUpdateSoloMachineClient(tx, id, signer, chain.value, newKey);
      if built.Some? {
        AloneBeginAndSign(StateOf(id), StartUpdateSigner(0, newKey), Kind.UpdateSigner(newKey), signer);
      }
      if !w.builds {
        built := None;
      }
    }

    static ghost function Updating(newKey: string, chain: Chain, phase: Phase): Call {
      Proving(Kind.UpdateSigner(newKey), chain, phase)
    }

    /** Commits an accepted update. */
    method FinishUpdate(ghost start: State, id: string, tx: Transaction, ghost newKey: string, ghost chain: Chain,
                        commits: bool, announced: bool)
      returns (ok: bool)
      requires Valid() && id in tables.chains
      requires ReachesAlone(start, StateDuring(id, Updating(newKey, chain, Answered(true))))
      requires chain == tables.chains[id].NextSequence() && tx.view == tables.WithRow(id, chain).WithKey(id, newKey)
      modifies this`tables, this`tallies
      ensures Valid() && SameBut(tallies, old(tallies), id)
      ensures tables == (if commits then tx.view else old(tables)) && ok == (commits && announced)
      ensures ReachesAlone(start, StateOf(id))
    {
      ghost var s := StateOf(id);
      if !commits {
        Abandon(start, id, Updating(newKey, chain, Answered(true)));
        return false;
      }
      AloneCommitSigner(start, s, newKey, chain);
      CountingKeepsIntact(tables, id, chain);
      tables := tx.view;
      assert StateOf(id) == s.(row := chain, keys := s.keys + {newKey});
      // the signer's own key is read once more, and the event is sent
      return announced;
    }

    /** Broadcasts, checks the response, commits. */
    method SubmitUpdate(ghost start: State, id: string, tx: Transaction, ghost newKey: string, ghost chain: Chain,
                        m: Message, w: World, announced: bool)
      returns (ok: bool)
      requires Valid() && id in tables.chains
      requires ReachesAlone(start, StateDuring(id, Updating(newKey, chain, Signed(m))))
      requires chain == tables.chains[id].NextSequence() && tx.view == tables.WithRow(id, chain).WithKey(id, newKey)
      modifies this`tables, this`peers, this`tallies, this`sent
      ensures Valid() && SameBut(tallies, old(tallies), id) && id in tables.chains && ReachesAlone(start, StateOf(id))
      ensures sent == old(sent) + [m] && peers == old(peers)[id := old(peers[id]).Deliver(m, w.willing)]
      ensures var committed := w.willing && old(peers[id]).Accepts(m) && w.answers && w.commits;
        tables == (if committed then tx.view else old(tables)) && ok == (committed && announced)
    {
      var response := Submit(start, id, Kind.UpdateSigner(newKey), chain, m, w);
      if response.NoAnswer? || !response.ok {
        Abandon(start, id, Updating(newKey, chain, Answered(w.willing && old(peers[id]).Accepts(m))));
        return false;
      }
      ok := FinishUpdate(start, id, tx, newKey, chain, w.commits, announced);
    }

    /** And is committed: the counterparty accepts the header, its answer gets back, and the commit succeeds. */
    ghost predicate UpdateCommits(id: string, signer: string, newKey: string, w: World)
      requires Valid()
      reads this
    {
      && UpdateSigns(id, newKey, w) && w.willing && w.answers && w.commits
      && peers[id].Accepts(HeaderFor(tables.chains[id], signer, newKey))
    }

    /** Logs the new key, signs the update with the old one, broadcasts it, and commits if it was accepted. The call can
        still fail after the commit. */
    method UpdateSigner(id: string, signer: string, newKey: string, w: World, announced: bool) returns (ok: bool)
      requires Valid()
      modifies this`tables, this`peers, this`tallies, this`sent
      ensures Valid() && SameBut(tallies, old(tallies), id)
      ensures id in old(tables.chains) ==> id in tables.chains && ReachesAlone(old(StateOf(id)), StateOf(id))
      ensures !old(UpdateSigns(id, newKey, w)) ==> sent == old(sent) && peers == old(peers)
      ensures old(UpdateSigns(id, newKey, w)) ==>
        var m := HeaderFor(old(tables.chains[id]), signer, newKey);
        sent == old(sent) + [m] && peers == old(peers)[id := old(peers[id]).Deliver(m, w.willing)]
      ensures tables == if old(UpdateCommits(id, signer, newKey, w))
                        then old(tables).WithRow(id, old(tables.chains[id]).NextSequence()).WithKey(id, newKey)
                        else old(tables)
      ensures ok == (old(UpdateCommits(id, signer, newKey, w)) && announced)
      ensures old(UpdateCommits(id, signer, newKey, w)) ==>
        var client := old(tables.chains[id].connectionDetails.value.soloMachineClientId);
        && client in old(peers[id].keys) && old(peers[id].keys)[client] == signer
        && client in peers[id].keys && peers[id].keys[client] == newKey
    {
      ok := false;
      if id !in tables.chains {
        return;
      }
      ghost var start := StateOf(id);
      AloneStart(start);
      var tx := new Transaction.Begin(tables);
      var built := PrepareUpdate(id, signer, tx, newKey, w);
      if built.None? {
        return;
      }
      ok := SubmitUpdate(start, id, tx, newKey, built.value.chain, built.value.message, w, announced);
    }

    // ----- burn and the acknowledgement of its packets -----

    static ghost function Acking(details: ConnectionDetails, rest: seq<Packet>, chain: Chain, phase: Phase): Call {
      Proving(Acks(Some(details), rest), chain, phase)
    }

    /** Signs the acknowledgement of one packet. */
    method PrepareAck(ghost start: State, id: string, signer: string, tx: Transaction, details: ConnectionDetails,
                      ghost rest: seq<Packet>, packet: Packet, chain: Chain, w: World)
      returns (built: Option<Built>)
      requires Valid() && id in tables.chains && tables.chains[id] == chain && chain.Readable() && tx.view == tables
      requires chain.connectionDetails == Some(details) && details.HasChannels() && OnChannel(chain, details, packet)
      requires rest != [] && rest[0] == packet
      requires ReachesAlone(start, StateDuring(id, Acking(details, rest, chain, Ready)))
      modifies tx
      ensures built.Some? <==> AckSigned(chain, details, packet, w)
      ensures built.Some? ==>
        && built.value == Built(AckFor(chain, details, signer, packet), chain.NextSequence())
        && tx.view == tables.WithRow(id, built.value.chain)
        && ReachesAlone(start, StateDuring(id, Acking(details, rest, built.value.chain, Signed(built.value.message))))
    {
      built := MsgTokenReceiveAck(tx, id, signer, chain, packet);
      if built.Some? {
        AloneSign(start, StateOf(id), Acks(Some(details), rest), signer);
      }
      if !w.builds {
        built := None;
      }
    }

    /** Commits an acknowledgement, whatever the response was. */
    method CommitAck(ghost start: State, id: string, tx: Transaction, ghost details: ConnectionDetails,
                     ghost rest: seq<Packet>, ghost chain: Chain, ghost accepted: bool)
      requires Valid() && id in tables.chains && rest != []
      requires chain == tables.chains[id].NextSequence() && tx.view == tables.WithRow(id, chain)
      requires ReachesAlone(start, StateDuring(id, Acking(details, rest, chain, Answered(accepted))))
      modifies this`tables, this`tallies
      ensures Valid() && tables == tx.view && SameBut(tallies, old(tallies), id)
      ensures accepted ==> ReachesAlone(start, StateDuring(id, Acking(details, rest[1..], chain, Ready)))
      ensures !accepted ==> ReachesAlone(start, StateOf(id))
    {
      ghost var s := StateOf(id);
      AloneCommitAck(start, s, Some(details), rest, chain, accepted);
      CountingKeepsIntact(tables, id, chain);
      tables := tx.view;
      ghost var tally := s.tally.(acks := s.tally.acks + 1);
      tallies := tallies[id := if accepted then tally else tally.(rejectedAcks := s.tally.rejectedAcks + 1)];
      assert accepted ==> StateOf(id) == s.(row := chain, tally := tally);
      assert !accepted ==> StateOf(id) == s.(row := chain, tally := tally.(rejectedAcks := s.tally.rejectedAcks + 1));
    }

    /** One iteration: sign, broadcast, commit. The answer is looked at after the commit, so that a refused
        acknowledgement is committed like an accepted one. */
    method AckPacket(ghost start: State, id: string, signer: string, details: ConnectionDetails,
                     ghost rest: seq<Packet>, packet: Packet, chain: Chain, w: World)
      returns (ack: Option<CommittedAck>)
      requires Valid() && id in tables.chains && tables.chains[id] == chain && chain.Readable()
      requires chain.connectionDetails == Some(details) && details.HasChannels()
      requires rest != [] && rest[0] == packet
      requires ReachesAlone(start, StateDuring(id, Acking(details, rest, chain, Ready)))
      modifies this`tables, this`peers, this`tallies, this`sent
      ensures Valid() && SameBut(tallies, old(tallies), id) && id in tables.chains
      ensures var m := AckFor(chain, details, signer, packet);
        && sent == (if AckSigned(chain, details, packet, w) then old(sent) + [m] else old(sent))
        && peers == (if AckSigned(chain, details, packet, w) then old(peers)[id := old(peers[id]).Deliver(m, w.willing)]
                     else old(peers))
        && (ack.Some? ==> ack.value == CommittedAck(packet, m, w.willing && old(peers[id]).Accepts(m)))
      ensures ack.Some? <==> AckCommitted(chain, details, packet, w)
      ensures tables == if ack.Some? then old(tables).WithRow(id, chain.NextSequence()) else old(tables)
      ensures if ack.Some? && ack.value.accepted then
                ReachesAlone(start, StateDuring(id, Acking(details, rest[1..], chain.NextSequence(), Ready)))
              else ReachesAlone(start, StateOf(id))
    {
      if OnChannel(chain, details, packet) {
        var tx := new Transaction.Begin(tables);
        var built := PrepareAck(start, id, signer, tx, details, rest, packet, chain, w);
        if built.Some? {
          ack := SubmitAck(start, id, tx, details, rest, built.value.chain, packet, built.value.message, w);
          return;
        }
      }
      Abandon(start, id, Acking(details, rest, chain, Ready));
      ack := None;
    }

    /** Broadcasts, commits, and only then looks at the response. */
    method SubmitAck(ghost start: State, id: string, tx: Transaction, ghost details: ConnectionDetails,
                     ghost rest: seq<Packet>, ghost chain: Chain, packet: Packet, m: Message, w: World)
      returns (ack: Option<CommittedAck>)
      requires Valid() && id in tables.chains && rest != []
      requires ReachesAlone(start, StateDuring(id, Acking(details, rest, chain, Signed(m))))
      requires chain == tables.chains[id].NextSequence() && tx.view == tables.WithRow(id, chain)
      modifies this`tables, this`peers, this`tallies, this`sent
      ensures Valid() && SameBut(tallies, old(tallies), id) && id in tables.chains
      ensures sent == old(sent) + [m] && peers == old(peers)[id := old(peers[id]).Deliver(m, w.willing)]
      ensures ack == if w.answers && w.commits
                     then Some(CommittedAck(packet, m, w.willing && old(peers[id]).Accepts(m))) else None
      ensures tables == if ack.Some? then tx.view else old(tables)
      ensures if ack.Some? && ack.value.accepted then
                ReachesAlone(start, StateDuring(id, Acking(details, rest[1..], chain, Ready)))
              else ReachesAlone(start, StateOf(id))
    {
      ghost var accepted := w.willing && peers[id].Accepts(m);
      var response := Submit(start, id, Acks(Some(details), rest), chain, m, w);
      if response.NoAnswer? || !w.commits {
        Abandon(start, id, Acking(details, rest, chain, Answered(accepted)));
        return None;
      }
      CommitAck(start, id, tx, details, rest, chain, accepted);
      return Some(CommittedAck(packet, m, response.ok));
    }

    /** How far the run over the packets is: `acks` are committed. Either it has ended, or it is the next packet's
        turn. */
    ghost predicate Acknowledging(start: State, id: string, base: Tables, before: seq<Message>,
                                  peers0: map<string, Peer>, run: AckRun, acks: seq<CommittedAck>, ended: bool)
      requires run.details.HasChannels()
      reads this
    {
      && Valid() && id in tables.chains && tables == base.WithRow(id, run.chain.Advance(|acks|))
      && run.IsAt(acks, ended)
      && sent == before + run.SentBy(acks, ended)
      && peers == peers0[id := Delivered(run.peer, run.SentBy(acks, ended), run.world)]
      && if ended then ReachesAlone(start, StateOf(id))
         else ReachesAlone(start,
                StateDuring(id, Acking(run.details, run.packets[|acks|..], run.chain.Advance(|acks|), Ready)))
    }

    /** One more packet. */
    method AckNext(ghost start: State, id: string, ghost base: Tables, ghost before: seq<Message>,
                   ghost peers0: map<string, Peer>, run: AckRun, acks: seq<CommittedAck>)
      returns (more: seq<CommittedAck>, ended: bool)
      requires run.details.HasChannels() && run.chain.connectionDetails == Some(run.details)
      requires Acknowledging(start, id, base, before, peers0, run, acks, false) && |acks| < |run.packets|
      modifies this`tables, this`peers, this`tallies, this`sent
      ensures Acknowledging(start, id, base, before, peers0, run, more, ended) && SameBut(tallies, old(tallies), id)
      ensures ended || |more| == |acks| + 1
      ensures ended ==> |more| < |run.packets| || !AllAccepted(more)
    {
      var n := |acks|;
      SuffixStep(run.packets, n);
      var current := run.chain.Advance(n);
      assert current.NextSequence() == run.chain.Advance(n + 1);
      var ack := AckPacket(start, id, run.signer, run.details, run.packets[n..], run.packets[n], current, run.world(n));
      more := if ack.Some? then acks + [ack.value] else acks;
      ended := ack.None? || !ack.value.accepted;
      assert tables == base.WithRow(id, run.chain.Advance(|more|)) by {
        WithRowTwice(base, id, current, current.NextSequence());
      }
      assert run.IsAt(more, ended) by {
        run.Turn(acks, ack);
      }
      run.TurnWent(acks, ack, before, old(sent), sent);
      assert peers == peers0[id := Delivered(run.peer, run.SentBy(more, ended), run.world)] by {
        run.TurnDelivered(acks, ack, id, peers0, old(peers), peers);
      }
    }

    /** The loop over the packets. */
    method AckPackets(ghost start: State, id: string, run: AckRun) returns (ended: bool, acks: seq<CommittedAck>)
      requires run.details.HasChannels() && run.chain.connectionDetails == Some(run.details)
      requires Acknowledging(start, id, tables, sent, peers, run, [], false)
      modifies this`tables, this`peers, this`tallies, this`sent
      ensures Acknowledging(start, id, old(tables), old(sent), old(peers), run, acks, ended)
      ensures SameBut(tallies, old(tallies), id)
      ensures if ended then |acks| < |run.packets| || !AllAccepted(acks) else |acks| == |run.packets|
    {
      acks, ended := [], false;
      while !ended && |acks| < |run.packets|
        invariant Acknowledging(start, id, old(tables), old(sent), old(peers), run, acks, ended)
        invariant SameBut(tallies, old(tallies), id) && (ended ==> |acks| < |run.packets| || !AllAccepted(acks))
        decreases !ended, |run.packets| - |acks|
      {
        acks, ended := AckNext(start, id, old(tables), old(sent), old(peers), run, acks);
      }
    }

    ghost method EndAcknowledging(start: State, id: string, base: Tables, before: seq<Message>,
                                  peers0: map<string, Peer>, run: AckRun, acks: seq<CommittedAck>)
      requires run.details.HasChannels() && |acks| == |run.packets|
      requires Acknowledging(start, id, base, before, peers0, run, acks, false)
      modifies this`tallies
      ensures Acknowledging(start, id, base, before, peers0, run, acks, true) && AllAccepted(acks)
      ensures SameBut(tallies, old(tallies), id)
    {
      run.Ends(acks);
      Abandon(start, id, Acking(run.details, run.packets[|acks|..], run.chain.Advance(|acks|), Ready));
    }

    /** The loop, and the end of the call after it; it is done when all packets are acknowledged. */
    method AckAll(ghost start: State, id: string, run: AckRun) returns (done: bool, acks: seq<CommittedAck>)
      requires run.details.HasChannels() && run.chain.connectionDetails == Some(run.details)
      requires Acknowledging(start, id, tables, sent, peers, run, [], false)
      modifies this`tables, this`peers, this`tallies, this`sent
      ensures Acknowledging(start, id, old(tables), old(sent), old(peers), run, acks, true)
      ensures SameBut(tallies, old(tallies), id) && (done <==> |acks| == |run.packets| && AllAccepted(acks))
    {
      var ended;
      ended, acks := AckPackets(start, id, run);
      if !ended {
        EndAcknowledging(start, id, old(tables), old(sent), old(peers), run, acks);
      }
      done := !ended;
    }

    lemma BeginAcknowledging(start: State, id: string, run: AckRun)
      requires Valid() && id in tables.chains && tables.chains[id] == run.chain && run.chain.Readable()
      requires run.details.HasChannels() && run.peer == peers[id]
      requires ReachesAlone(start, StateDuring(id, Acking(run.details, run.packets, run.chain, Ready)))
      ensures Acknowledging(start, id, tables, sent, peers, run, [], false)
    {
      NothingAdvanced(tables, id);
      assert run.chain.Advance(0) == run.chain && run.packets[0..] == run.packets;
      assert sent == sent + Messages([]) && peers == peers[id := peers[id]];
    }

    /** What acknowledging the packets does: without channels, nothing. */
    ghost predicate Acknowledges(base: Tables, before: seq<Message>, peers0: map<string, Peer>, id: string,
                                 signer: string, packets: seq<Packet>, world: nat -> World, acks: seq<CommittedAck>)
      requires id in base.chains && id in peers0
      reads this
    {
      var chain := base.chains[id];
      if CanAck(chain) then
        var run := AckRun(chain, chain.connectionDetails.value, signer, packets, peers0[id], world);
        && run.Commits(acks) && run.EndsAfter(acks)
        && tables == base.WithRow(id, chain.Advance(|acks|))
        && sent == before + run.Sent(acks)
        && peers == peers0[id := Delivered(run.peer, run.Sent(acks), world)]
      else
        acks == [] && tables == base && sent == before && peers == peers0
    }

    /** Acknowledges the packets in order, one transaction each. */
    method ProcessPackets(ghost start: State, id: string, signer: string, chain: Chain, packets: seq<Packet>,
                          world: nat -> World)
      returns (done: bool, acks: seq<CommittedAck>)
      requires Valid() && id in tables.chains && tables.chains[id] == chain && chain.Readable()
      requires ReachesAlone(start, StateDuring(id, Proving(Acks(chain.connectionDetails, packets), chain, Ready)))
      modifies this`tables, this`peers, this`tallies, this`sent
      ensures Valid() && SameBut(tallies, old(tallies), id) && id in tables.chains && ReachesAlone(start, StateOf(id))
      ensures Acknowledges(old(tables), old(sent), old(peers), id, signer, packets, world, acks)
      ensures done <==> CanAck(chain) && |acks| == |packets| && AllAccepted(acks)
      ensures SignedBy(old(sent), sent, signer)
    {
      if !CanAck(chain) {
        Abandon(start, id, Proving(Acks(chain.connectionDetails, packets), chain, Ready));
        return false, [];
      }
      var run := AckRun(chain, chain.connectionDetails.value, signer, packets, peers[id], world);
      BeginAcknowledging(start, id, run);
      done, acks := AckAll(start, id, run);
      run.SentIsSigned(acks, old(sent));
    }

    /** A transfer back that is granted, entered into the history, and reported in readable events. */
    ghost predicate BurnStarts(id: string, events: seq<AbciEvent>, transferred: bool)
      reads this
    {
      && id in tables.chains && tables.chains[id].Readable()
      && tables.chains[id].connectionDetails.Some?
      && tables.chains[id].connectionDetails.value.soloMachineChannelId.Some?
      && transferred && PacketsIn(events).Ok?
    }

    /** Transfers back. The transfer carries no proof; its outcome and the events of its response are parameters. */
    method Transfer(id: string, chain: Chain, events: seq<AbciEvent>, transferred: bool)
      returns (packets: Option<seq<Packet>>)
      requires Valid() && id in tables.chains && tables.chains[id] == chain
      ensures packets.Some? <==> BurnStarts(id, events, transferred)
      ensures packets.Some? ==>
        && PacketsIn(events) == Ok(packets.value)
        && ReachesAlone(StateOf(id),
                        StateDuring(id, Proving(Acks(chain.connectionDetails, packets.value), chain, Ready)))
    {
      packets := None;
      if !chain.Readable() || chain.connectionDetails.None? ||
         chain.connectionDetails.value.soloMachineChannelId.None? || !transferred {
        return;
      }
      var extracted := ExtractPackets(events);
      if extracted.Err? {
        return;
      }
      packets := Some(extracted.value);
      ghost var s := StateOf(id);
      AloneStart(s);
      AloneBegin(s, s, StartBurn(0, extracted.value),
                 Proving(Acks(chain.connectionDetails, extracted.value), chain, Ready));
    }

    /** Transfers back, then acknowledges the packets that the response reports. Failed acknowledgements are only
        reported as an event, and do not fail the call unless the event cannot be sent. */
    method Burn(id: string, signer: string, events: seq<AbciEvent>, transferred: bool, world: nat -> World,
                announced: bool)
      returns (ok: bool, acks: seq<CommittedAck>)
      requires Valid()
      modifies this`tables, this`peers, this`tallies, this`sent
      ensures Valid() && SameBut(tallies, old(tallies), id)
      ensures id in old(tables.chains) ==> id in tables.chains && ReachesAlone(old(StateOf(id)), StateOf(id))
      ensures !old(BurnStarts(id, events, transferred)) ==>
        !ok && acks == [] && tables == old(tables) && sent == old(sent) && peers == old(peers)
      ensures old(BurnStarts(id, events, transferred)) ==>
        var packets := PacketsIn(events).value;
        && Acknowledges(old(tables), old(sent), old(peers), id, signer, packets, world, acks)
        && (ok <==> announced || (CanAck(old(tables.chains[id])) && |acks| == |packets| && AllAccepted(acks)))
      ensures SignedBy(old(sent), sent, signer)
    {
      ok, acks := false, [];
      if id !in tables.chains {
        return;
      }
      ghost var start := StateOf(id);
      var chain := tables.chains[id];
      var packets := Transfer(id, chain, events, transferred);
      if packets.None? {
        AloneStart(start);
        return;
      }
      var done;
      done, acks := ProcessPackets(start, id, signer, chain, packets.value, world);
      return done || announced, acks;
    }

    // ----- connect -----

    /** The running `connect` has come as far as `c` says. */
    ghost predicate InConnect(start: State, id: string, tx: Transaction, c: Connect)
      reads this, tx
    {
      Valid() && id in tables.chains && InHandshake(start, StateOf(id), tables, c, tx.view)
    }

    lemma MayFail(start: State, id: string, tx: Transaction, c: Connect)
      requires InConnect(start, id, tx, c)
      ensures ReachesAlone(start, StateOf(id))
    {
      GiveUp(start, StateOf(id), c);
      assert Idle(StateOf(id)) == StateOf(id);
    }

    /** The counterparty creates a client, under an identifier that is new there, at the sequence that was read. */
    method CreateSoloMachineClient(ghost start: State, id: string, signer: string, ghost tx: Transaction, chain: Chain,
                                   w: World, given: string, ghost c: Connect)
      returns (client: Option<string>)
      requires InConnect(start, id, tx, c) && c.stage == STARTED && c.chain == chain && c.signer == signer
      modifies this`peers
      ensures Valid() && id in tables.chains
      ensures var created, peer := w.builds && w.willing && given !in old(peers[id].clients), old(peers[id]);
        && peers == (if created then old(peers)[id := peer.(clients := peer.clients[given := chain.sequence],
                                                            keys := peer.keys[given := signer])]
                     else old(peers))
        && (client.Some? <==> created && w.answers && IsId(given, CLIENT_MIN_LEN))
      ensures client.Some? ==> client.value == given && InConnect(start, id, tx, c.ClientCreated(given))
      ensures client.None? ==> ReachesAlone(start, StateOf(id))
    {
      client := None;
      MayFail(start, id, tx, c);
      if !w.builds || !w.willing || given in peers[id].clients {
        // not sent, or refused
        return;
      }
      ghost var s := StateOf(id);
      SoloClientStep(start, s, tables, c, tx.view, given);
      peers := peers[id := peers[id].(clients := peers[id].clients[given := chain.sequence],
                                      keys := peers[id].keys[given := signer])];
      assert StateOf(id) == s.(peer := peers[id]);
      MayFail(start, id, tx, c.ClientCreated(given));
      ParseIdAccepts(given, CLIENT_MIN_LEN);
      if w.answers && ParseId(given, CLIENT_MIN_LEN).Ok? {
        client := Some(given);
      }
    }

    /** Stores the client that follows the counterparty, and its first consensus state, at the latest height. */
    method CreateTendermintClient(ghost start: State, id: string, tx: Transaction, header: bool, blockHeight: nat,
                                  sample: string, ghost c: Connect)
      returns (client: Option<string>)
      requires InConnect(start, id, tx, c) && c.stage == SOLO_CLIENT && IsDraw(sample)
      modifies tx
      ensures var name, at := "07-tendermint-" + sample, Height(Version(id), blockHeight);
        && (client.Some? <==>
              && header
              && old(tx.view).Lookup(ClientState(name)).None? && old(tx.view).Lookup(ConsensusState(name, at)).None?)
        && (client.Some? ==>
              && client.value == name
              && c.CanStoreClient(name, at) && InConnect(start, id, tx, c.ClientStored(id, name, at)))
      ensures client.None? ==> ReachesAlone(start, StateOf(id))
    {
      client := None;
      MayFail(start, id, tx, c);
      if !header {
        return;
      }
      var latestHeight := Height(Version(id), blockHeight);
      ghost var view := tx.view;
      GeneratedIds(sample);
      var generated := Generate("07-tendermint", sample);
      KindsApart(generated.value, latestHeight, "", "", "");
      var added := tx.Add(ClientState(generated.value), ClientRecord(id, latestHeight));
      if !added {
        return;
      }
      added := tx.Add(ConsensusState(generated.value, latestHeight), ConsensusRecord(latestHeight));
      if !added {
        return;
      }
      TendermintClientStep(start, StateOf(id), tables, c, view, generated.value, latestHeight);
      client := Some(generated.value);
    }

    /** The counterparty opens its end of the connection over the new client. */
    method ConnectionOpenInit(ghost start: State, id: string, ghost tx: Transaction, soloMachineClientId: string,
                              tendermintClientId: string, w: World, given: string, ghost c: Connect)
      returns (connection: Option<string>)
      requires InConnect(start, id, tx, c) && c.stage == TENDERMINT_CLIENT
      requires soloMachineClientId == c.clientId && tendermintClientId == c.tendermintClientId
      modifies this`peers
      ensures Valid() && id in tables.chains
      ensures var created, peer := w.builds && w.willing && given !in old(peers[id].connections), old(peers[id]);
        var end := PeerConnection(Init, soloMachineClientId, tendermintClientId, None);
        && peers == (if created then old(peers)[id := peer.(connections := peer.connections[given := end])]
                     else old(peers))
        && (connection.Some? <==> created && w.answers && IsId(given, CONNECTION_MIN_LEN))
      ensures connection.Some? ==> connection.value == given && InConnect(start, id, tx, c.EndOpened(given))
      ensures connection.None? ==> ReachesAlone(start, StateOf(id))
    {
      connection := None;
      MayFail(start, id, tx, c);
      if !w.builds || !w.willing || given in peers[id].connections {
        // not sent, or refused
        return;
      }
      ghost var s := StateOf(id);
      OpenInitStep(start, s, tables, c, tx.view, given);
      var end := PeerConnection(Init, soloMachineClientId, tendermintClientId, None);
      peers := peers[id := peers[id].(connections := peers[id].connections[given := end])];
      assert StateOf(id) == s.(peer := peers[id]);
      MayFail(start, id, tx, c.EndOpened(given));
      ParseIdAccepts(given, CONNECTION_MIN_LEN);
      if w.answers && ParseId(given, CONNECTION_MIN_LEN).Ok? {
        connection := Some(given);
      }
    }

    /** Inserts the local end of the connection in state TryOpen. */
    method ConnectionOpenTry(ghost start: State, id: string, tx: Transaction, tendermintClientId: string,
                             soloMachineClientId: string, soloMachineConnectionId: string, sample: string,
                             ghost c: Connect)
      returns (connection: Option<string>)
      requires InConnect(start, id, tx, c) && c.stage == CONNECTION_INIT && tendermintClientId == c.tendermintClientId
      requires soloMachineClientId == c.clientId && soloMachineConnectionId == c.connectionId && IsDraw(sample)
      modifies tx
      ensures connection.Some? <==> tables.Lookup(Connection("connection-" + sample)).None?
      ensures connection.Some? ==>
        && connection.value == "connection-" + sample && Key(c.TryPath(connection.value)) !in c.writes
        && InConnect(start, id, tx, c.EndTried(connection.value))
      ensures connection.None? ==> ReachesAlone(start, StateOf(id))
    {
      connection := None;
      MayFail(start, id, tx, c);
      ghost var view := tx.view;
      GeneratedIds(sample);
      var generated := Generate("connection", sample);
      TryIsNew(tables, id, c, view, generated.value);
      var end := ConnectionRecord(TryOpen, tendermintClientId, soloMachineClientId, soloMachineConnectionId);
      var added := tx.Add(Connection(generated.value), end);
      if !added {
        return;
      }
      OpenTryStep(start, StateOf(id), tables, c, view, generated.value);
      connection := Some(generated.value);
    }

    /** Broadcasts a signed acknowledgement of the handshake: a willing counterparty takes it. */
    method SubmitProof(ghost start: State, id: string, ghost tx: Transaction, m: Message, w: World, ghost c: Connect)
      returns (ok: bool)
      requires InConnect(start, id, tx, c) && (c.stage == CONNECTION_SIGNED || c.stage == CHANNEL_SIGNED)
      requires m == AckMessage(c)
      modifies this`peers, this`sent
      ensures Valid() && id in tables.chains && sent == old(sent) + [m]
      ensures peers == old(peers)[id := old(peers[id]).Deliver(m, w.willing)]
      ensures ok <==> w.willing && w.answers
      ensures ok ==> InConnect(start, id, tx, c.(stage := c.stage + 1))
      ensures !ok ==> ReachesAlone(start, StateOf(id))
    {
      ghost var s := StateOf(id);
      BroadcastStep(start, s, tables, c, tx.view, w.willing);
      var response := Broadcast(id, m, w);
      assert StateOf(id) == s.(peer := s.peer.Deliver(m, w.willing));
      assert Idle(StateOf(id)) == StateOf(id);
      ok := response.Answer? && response.ok;
    }

    /** Signs the local end and has the counterparty confirm the connection; the sequence goes up by one. */
    method ConnectionOpenAck(ghost start: State, id: string, signer: string, tx: Transaction, chain: Chain,
                             soloMachineConnectionId: string, tendermintClientId: string,
                             tendermintConnectionId: string, w: World, ghost c: Connect)
      returns (next: Option<Chain>)
      requires InConnect(start, id, tx, c) && c.stage == CONNECTION_TRY && chain == c.chain && signer == c.signer
      requires soloMachineConnectionId == c.connectionId && tendermintClientId == c.tendermintClientId
      requires tendermintConnectionId == c.tendermintConnectionId
      modifies tx, this`peers, this`sent
      ensures Valid() && id in tables.chains
      ensures var signed := chain.NextSequence().Readable() && w.builds;
        var m := Counterparty.ConnectionOpenAck(soloMachineConnectionId, tendermintConnectionId,
          Proof(signer, chain.sequence, Key(Connection(tendermintConnectionId)),
                Some(ConnectionRecord(TryOpen, tendermintClientId, c.clientId, soloMachineConnectionId))));
        && sent == (if signed then old(sent) + [m] else old(sent))
        && peers == (if signed then old(peers)[id := old(peers[id]).Deliver(m, w.willing)] else old(peers))
        && (next.Some? <==> signed && w.willing && w.answers)
      ensures next.Some? ==>
        && next.value == chain.NextSequence() && c.AckKey() in c.writes
        && InConnect(start, id, tx, c.AckSigned(next.value).(stage := CONNECTION_ACK))
      ensures next.None? ==> ReachesAlone(start, StateOf(id))
    {
      next := None;
      MayFail(start, id, tx, c);
      ghost var view := tx.view;
      SignLooksUp(start, id, tx, c);
      var built := MsgConnectionOpenAck(tx, id, signer, chain, soloMachineConnectionId, tendermintClientId,
                                        tendermintConnectionId);
      if built.None? || !w.builds {
        return;
      }
      SignStep(start, StateOf(id), tables, c, view);
      var ok := SubmitProof(start, id, tx, built.value.message, w, c.AckSigned(built.value.chain));
      if ok {
        next := Some(built.value.chain);
      }
    }

    /** What the builders of the acknowledgements find in the open transaction. */
    lemma SignLooksUp(start: State, id: string, tx: Transaction, c: Connect)
      requires InConnect(start, id, tx, c) && (c.stage == CONNECTION_TRY || c.stage == CHANNEL_TRY)
      ensures id in tx.view.chains && tx.view.chains[id] == c.chain
      ensures tx.view.Lookup(ClientState(c.tendermintClientId)).Some?
      ensures c.stage == CONNECTION_TRY ==>
        tx.view.Lookup(Connection(c.tendermintConnectionId)) ==
          Some(ConnectionRecord(TryOpen, c.tendermintClientId, c.clientId, c.connectionId))
      ensures c.stage == CHANNEL_TRY ==>
        tx.view.Lookup(Channel(c.chain.portId, c.tendermintChannelId)) ==
          Some(ChannelRecord(TryOpen, c.chain.portId, c.channelId, [c.tendermintConnectionId]))
    {
    }

    /** Reads the local end of the connection back, sets it Open and updates it. */
    method ConnectionOpenConfirm(ghost start: State, id: string, tx: Transaction, connectionId: string,
                                 ghost c: Connect)
      returns (ok: bool)
      requires InConnect(start, id, tx, c) && c.stage == CONNECTION_ACK && connectionId == c.tendermintConnectionId
      modifies tx
      ensures ok && c.CanConfirm() && InConnect(start, id, tx, c.Confirmed())
    {
      ok := false;
      ghost var view := tx.view;
      ConfirmStep(start, StateOf(id), tables, c, view);
      var connection := tx.Get(Connection(connectionId));
      if connection.None? || !connection.value.ConnectionRecord? {
        assert false;
        return;
      }
      ok := tx.Update(Connection(connectionId), connection.value.SetState(Open));
    }

    /** The counterparty opens its end of the channel over the new connection. */
    method ChannelOpenInit(ghost start: State, id: string, ghost tx: Transaction, chain: Chain,
                           soloMachineConnectionId: string, w: World, given: string, ghost c: Connect)
      returns (channel: Option<string>)
      requires InConnect(start, id, tx, c) && c.stage == CONNECTION_CONFIRM
      requires chain == c.chain && soloMachineConnectionId == c.connectionId
      modifies this`peers
      ensures Valid() && id in tables.chains
      ensures var created, peer := w.builds && w.willing && given !in old(peers[id].channels), old(peers[id]);
        var end := PeerChannel(Init, chain.portId, soloMachineConnectionId, chain.portId, None);
        && peers == (if created then old(peers)[id := peer.(channels := peer.channels[given := end])] else old(peers))
        && (channel.Some? <==> created && w.answers && IsId(given, CHANNEL_MIN_LEN))
      ensures channel.Some? ==> channel.value == given && InConnect(start, id, tx, c.EndOpened(given))
      ensures channel.None? ==> ReachesAlone(start, StateOf(id))
    {
      channel := None;
      MayFail(start, id, tx, c);
      if !w.builds || !w.willing || given in peers[id].channels {
        // not sent, or refused
        return;
      }
      ghost var s := StateOf(id);
      OpenInitStep(start, s, tables, c, tx.view, given);
      var end := PeerChannel(Init, chain.portId, soloMachineConnectionId, chain.portId, None);
      peers := peers[id := peers[id].(channels := peers[id].channels[given := end])];
      assert StateOf(id) == s.(peer := peers[id]);
      MayFail(start, id, tx, c.EndOpened(given));
      ParseIdAccepts(given, CHANNEL_MIN_LEN);
      if w.answers && ParseId(given, CHANNEL_MIN_LEN).Ok? {
        channel := Some(given);
      }
    }

    /** Inserts the local end of the channel in state TryOpen. */
    method ChannelOpenTry(ghost start: State, id: string, tx: Transaction, portId: string, soloMachineChannelId: string,
                          tendermintConnectionId: string, sample: string, ghost c: Connect)
      returns (channel: Option<string>)
      requires InConnect(start, id, tx, c) && c.stage == CHANNEL_INIT && portId == c.chain.portId
      requires soloMachineChannelId == c.channelId && tendermintConnectionId == c.tendermintConnectionId
      requires IsDraw(sample)
      modifies tx
      ensures channel.Some? <==> tables.Lookup(Channel(portId, "channel-" + sample)).None?
      ensures channel.Some? ==>
        && channel.value == "channel-" + sample && Key(c.TryPath(channel.value)) !in c.writes
        && InConnect(start, id, tx, c.EndTried(channel.value))
      ensures channel.None? ==> ReachesAlone(start, StateOf(id))
    {
      channel := None;
      MayFail(start, id, tx, c);
      ghost var view := tx.view;
      GeneratedIds(sample);
      var generated := Generate("channel", sample);
      TryIsNew(tables, id, c, view, generated.value);
      var end := ChannelRecord(TryOpen, portId, soloMachineChannelId, [tendermintConnectionId]);
      var added := tx.Add(Channel(portId, generated.value), end);
      if !added {
        return;
      }
      OpenTryStep(start, StateOf(id), tables, c, view, generated.value);
      channel := Some(generated.value);
    }

    /** Signs the local end and has the counterparty confirm the channel; the sequence goes up by one. */
    method ChannelOpenAck(ghost start: State, id: string, signer: string, tx: Transaction, chain: Chain,
                          soloMachineChannelId: string, tendermintChannelId: string, w: World, ghost c: Connect)
      returns (next: Option<Chain>)
      requires InConnect(start, id, tx, c) && c.stage == CHANNEL_TRY && chain == c.chain && signer == c.signer
      requires soloMachineChannelId == c.channelId && tendermintChannelId == c.tendermintChannelId
      modifies tx, this`peers, this`sent
      ensures Valid() && id in tables.chains
      ensures var signed := chain.NextSequence().Readable() && w.builds;
        var m := Counterparty.ChannelOpenAck(chain.portId, soloMachineChannelId, tendermintChannelId,
          Proof(signer, chain.sequence, Key(Channel(chain.portId, tendermintChannelId)),
                Some(ChannelRecord(TryOpen, chain.portId, soloMachineChannelId, [c.tendermintConnectionId]))));
        && sent == (if signed then old(sent) + [m] else old(sent))
        && peers == (if signed then old(peers)[id := old(peers[id]).Deliver(m, w.willing)] else old(peers))
        && (next.Some? <==> signed && w.willing && w.answers)
      ensures next.Some? ==>
        && next.value == chain.NextSequence() && c.AckKey() in c.writes
        && InConnect(start, id, tx, c.AckSigned(next.value).(stage := CHANNEL_ACK))
      ensures next.None? ==> ReachesAlone(start, StateOf(id))
    {
      next := None;
      MayFail(start, id, tx, c);
      ghost var view := tx.view;
      SignLooksUp(start, id, tx, c);
      var built := MsgChannelOpenAck(tx, id, signer, chain, soloMachineChannelId, tendermintChannelId);
      if built.None? || !w.builds {
        return;
      }
      SignStep(start, StateOf(id), tables, c, view);
      var ok := SubmitProof(start, id, tx, built.value.message, w, c.AckSigned(built.value.chain));
      if ok {
        next := Some(built.value.chain);
      }
    }

    /** Reads the local end of the channel back, sets it Open and updates it. */
    method ChannelOpenConfirm(ghost start: State, id: string, tx: Transaction, portId: string, channelId: string,
                              ghost c: Connect)
      returns (ok: bool)
      requires InConnect(start, id, tx, c) && c.stage == CHANNEL_ACK
      requires portId == c.snapshot.portId && channelId == c.tendermintChannelId
      modifies tx
      ensures ok && c.CanConfirm() && InConnect(start, id, tx, c.Confirmed())
    {
      ok := false;
      ghost var view := tx.view;
      ConfirmStep(start, StateOf(id), tables, c, view);
      var channel := tx.Get(Channel(portId, channelId));
      if channel.None? || !channel.value.ChannelRecord? {
        assert false;
        return;
      }
      ok := tx.Update(Channel(portId, channelId), channel.value.SetState(Open));
    }

    /** The call runs as `run` says, and has come as far as `c`. */
    ghost predicate InRun(start: State, run: ConnectRun, tx: Transaction, c: Connect)
      reads this, tx
    {
      run.Starts() && run.world.Draws() && tables == run.base && InConnect(start, run.id, tx, c) && run.Tracks(c)
    }

    /** Both clients exist. */
    method CreateNewClient(ghost start: State, run: ConnectRun, tx: Transaction, chain: Chain, ghost c: Connect)
      returns (clients: Option<(string, string)>, ghost d: Connect)
      requires InRun(start, run, tx, c) && c.stage == STARTED && c.chain == chain
      requires peers[run.id].clients == run.peer.clients
      modifies tx, this`peers
      ensures Valid() && run.id in tables.chains && peers == old(peers)[run.id := run.AfterClients(old(peers[run.id]))]
      ensures clients.Some? <==> run.StoresClient()
      ensures clients.Some? ==>
        && InRun(start, run, tx, d) && d.stage == TENDERMINT_CLIENT && d.chain == chain
        && clients.value == (d.clientId, d.tendermintClientId)
      ensures clients.None? ==> ReachesAlone(start, StateOf(run.id))
    {
      clients, d := None, c;
      ghost var view := tx.view;
      assert view.ibcData == tables.ibcData;
      var solo := CreateSoloMachineClient(start, run.id, run.signer, tx, chain, run.world.client, run.world.clientId,
                                          d);
      if solo.None? {
        return;
      }
      d := d.ClientCreated(solo.value);
      var tendermint := CreateTendermintClient(start, run.id, tx, run.world.header, run.world.blockHeight,
                                               run.world.clientSample, d);
      if tendermint.None? {
        return;
      }
      d := d.ClientStored(run.id, tendermint.value, run.At());
      clients := Some((solo.value, tendermint.value));
    }

    /** The connection ends in state Init and TryOpen. */
    method BeginConnection(ghost start: State, run: ConnectRun, tx: Transaction, soloMachineClientId: string,
                           tendermintClientId: string, ghost c: Connect)
      returns (connections: Option<(string, string)>, ghost d: Connect)
      requires InRun(start, run, tx, c) && c.stage == TENDERMINT_CLIENT && run.StoresClient()
      requires soloMachineClientId == c.clientId && tendermintClientId == c.tendermintClientId
      requires peers[run.id].connections == run.peer.connections
      modifies tx, this`peers
      ensures Valid() && run.id in tables.chains
      ensures peers == old(peers)[run.id := run.WithConnection(old(peers[run.id]))]
      ensures connections.Some? <==> run.TriesConnection()
      ensures connections.Some? ==>
        && InRun(start, run, tx, d) && d.stage == CONNECTION_TRY && d.chain == c.chain
        && connections.value == (d.connectionId, d.tendermintConnectionId)
      ensures connections.None? ==> ReachesAlone(start, StateOf(run.id))
    {
      connections, d := None, c;
      var solo := ConnectionOpenInit(start, run.id, tx, soloMachineClientId, tendermintClientId, run.world.connection,
                                     run.world.connectionId, d);
      if solo.None? {
        return;
      }
      d := d.EndOpened(solo.value);
      var tendermint := ConnectionOpenTry(start, run.id, tx, tendermintClientId, soloMachineClientId, solo.value,
                                          run.world.connectionSample, d);
      if tendermint.None? {
        return;
      }
      d := d.EndTried(tendermint.value);
      connections := Some((solo.value, tendermint.value));
    }

    /** Both connection ends open, after a proof of the local one. */
    method ProveConnection(ghost start: State, run: ConnectRun, tx: Transaction, chain: Chain,
                           soloMachineConnectionId: string, tendermintClientId: string,
                           tendermintConnectionId: string, ghost c: Connect)
      returns (next: Option<Chain>, ghost d: Connect)
      requires InRun(start, run, tx, c) && c.stage == CONNECTION_TRY && c.chain == chain && run.TriesConnection()
      requires soloMachineConnectionId == c.connectionId && tendermintConnectionId == c.tendermintConnectionId
      requires tendermintClientId == c.tendermintClientId
      modifies tx, this`peers, this`sent
      ensures Valid() && run.id in tables.chains
      ensures var m := run.ConnectionMessage();
        && sent == old(sent) + run.SentForConnection()
        && peers == (if run.SignsConnection()
                     then old(peers)[run.id := old(peers[run.id]).Deliver(m, run.world.connectionAck.willing)]
                     else old(peers))
      ensures next.Some? <==> run.OpensConnection()
      ensures next.Some? ==>
        && InRun(start, run, tx, d) && d.stage == CONNECTION_CONFIRM && d.chain == next.value == chain.NextSequence()
      ensures next.None? ==> ReachesAlone(start, StateOf(run.id))
    {
      d := c;
      next := ConnectionOpenAck(start, run.id, run.signer, tx, chain, soloMachineConnectionId, tendermintClientId,
                                tendermintConnectionId, run.world.connectionAck, d);
      if next.Some? {
        d := d.AckSigned(next.value).(stage := CONNECTION_ACK);
        var confirmed := ConnectionOpenConfirm(start, run.id, tx, tendermintConnectionId, d);
        d := d.Confirmed();
      }
    }

    /** Both connection ends open; the sequence is one further. */
    method CreateConnection(ghost start: State, run: ConnectRun, tx: Transaction, chain: Chain,
                            soloMachineClientId: string, tendermintClientId: string, ghost c: Connect)
      returns (connections: Option<(string, string)>, next: Chain, ghost d: Connect)
      requires InRun(start, run, tx, c) && c.stage == TENDERMINT_CLIENT && c.chain == chain && run.StoresClient()
      requires soloMachineClientId == c.clientId && tendermintClientId == c.tendermintClientId
      requires peers[run.id].connections == run.peer.connections
      modifies tx, this`peers, this`sent
      ensures Valid() && run.id in tables.chains
      ensures peers == old(peers)[run.id := run.AfterConnection(old(peers[run.id]))]
      ensures sent == old(sent) + run.SentForConnection()
      ensures connections.Some? <==> run.OpensConnection()
      ensures connections.Some? ==>
        && InRun(start, run, tx, d) && d.stage == CONNECTION_CONFIRM && d.chain == next == chain.NextSequence()
        && connections.value == (d.connectionId, d.tendermintConnectionId)
      ensures connections.None? ==> ReachesAlone(start, StateOf(run.id))
    {
      next := chain;
      connections, d := BeginConnection(start, run, tx, soloMachineClientId, tendermintClientId, c);
      ghost var begun := peers;
      if connections.Some? {
        var proved;
        proved, d := ProveConnection(start, run, tx, chain, connections.value.0, tendermintClientId,
                                     connections.value.1, d);
        if proved.Some? {
          next := proved.value;
        } else {
          connections := None;
        }
      }
      run.ConnectionComposed(old(peers), begun, peers);
    }

    /** The channel ends in state Init and TryOpen. */
    method BeginChannel(ghost start: State, run: ConnectRun, tx: Transaction, chain: Chain,
                        soloMachineConnectionId: string, tendermintConnectionId: string, ghost c: Connect)
      returns (channels: Option<(string, string)>, ghost d: Connect)
      requires InRun(start, run, tx, c) && c.stage == CONNECTION_CONFIRM && c.chain == chain && run.OpensConnection()
      requires soloMachineConnectionId == c.connectionId && tendermintConnectionId == c.tendermintConnectionId
      requires peers[run.id].channels == run.peer.channels
      modifies tx, this`peers
      ensures Valid() && run.id in tables.chains && peers == old(peers)[run.id := run.WithChannel(old(peers[run.id]))]
      ensures channels.Some? <==> run.TriesChannel()
      ensures channels.Some? ==>
        && InRun(start, run, tx, d) && d.stage == CHANNEL_TRY && d.chain == c.chain
        && channels.value == (d.channelId, d.tendermintChannelId)
      ensures channels.None? ==> ReachesAlone(start, StateOf(run.id))
    {
      channels, d := None, c;
      var solo := ChannelOpenInit(start, run.id, tx, chain, soloMachineConnectionId, run.world.channel,
                                  run.world.channelId, d);
      if solo.None? {
        return;
      }
      d := d.EndOpened(solo.value);
      var tendermint := ChannelOpenTry(start, run.id, tx, chain.portId, solo.value, tendermintConnectionId,
                                       run.world.channelSample, d);
      if tendermint.None? {
        return;
      }
      d := d.EndTried(tendermint.value);
      channels := Some((solo.value, tendermint.value));
    }

    /** Both channel ends open, after a proof of the local one. */
    method ProveChannel(ghost start: State, run: ConnectRun, tx: Transaction, chain: Chain,
                        soloMachineChannelId: string, tendermintChannelId: string, ghost c: Connect)
      returns (ok: bool, ghost d: Connect)
      requires InRun(start, run, tx, c) && c.stage == CHANNEL_TRY && c.chain == chain && run.TriesChannel()
      requires soloMachineChannelId == c.channelId && tendermintChannelId == c.tendermintChannelId
      modifies tx, this`peers, this`sent
      ensures Valid() && run.id in tables.chains
      ensures var m := run.ChannelMessage();
        && sent == old(sent) + run.SentForChannel()
        && peers == (if run.SignsChannel()
                     then old(peers)[run.id := old(peers[run.id]).Deliver(m, run.world.channelAck.willing)]
                     else old(peers))
      ensures ok <==> run.OpensChannel()
      ensures ok ==>
        && InRun(start, run, tx, d) && d.stage == CHANNEL_CONFIRM
      ensures !ok ==> ReachesAlone(start, StateOf(run.id))
    {
      d := c;
      assert chain == run.Row().NextSequence();
      run.MessageOf(c);
      run.SentIs(sent);
      var counted := ChannelOpenAck(start, run.id, run.signer, tx, chain, soloMachineChannelId, tendermintChannelId,
                                    run.world.channelAck, d);
      ok := counted.Some?;
      if ok {
        d := d.AckSigned(counted.value).(stage := CHANNEL_ACK);
        ok := ChannelOpenConfirm(start, run.id, tx, counted.value.portId, tendermintChannelId, d);
        d := d.Confirmed();
      }
    }

    /** Both channel ends open; the sequence is one further. */
    method OpenChannel(ghost start: State, run: ConnectRun, tx: Transaction, chain: Chain,
                       soloMachineConnectionId: string, tendermintConnectionId: string, ghost c: Connect)
      returns (channels: Option<(string, string)>, ghost d: Connect)
      requires InRun(start, run, tx, c) && c.stage == CONNECTION_CONFIRM && c.chain == chain && run.OpensConnection()
      requires soloMachineConnectionId == c.connectionId && tendermintConnectionId == c.tendermintConnectionId
      requires peers[run.id].channels == run.peer.channels
      modifies tx, this`peers, this`sent
      ensures Valid() && run.id in tables.chains
      ensures peers == old(peers)[run.id := run.AfterChannel(old(peers[run.id]))]
      ensures sent == old(sent) + run.SentForChannel()
      ensures channels.Some? <==> run.OpensChannel()
      ensures channels.Some? ==>
        && InRun(start, run, tx, d) && d.stage == CHANNEL_CONFIRM
        && channels.value == (d.channelId, d.tendermintChannelId)
      ensures channels.None? ==> ReachesAlone(start, StateOf(run.id))
    {
      channels, d := BeginChannel(start, run, tx, chain, soloMachineConnectionId, tendermintConnectionId, c);
      ghost var begun := peers;
      run.SentIs(sent);
      if channels.Some? {
        var ok;
        ok, d := ProveChannel(start, run, tx, chain, channels.value.0, channels.value.1, d);
        if !ok {
          channels := None;
        }
      }
      run.ChannelComposed(old(peers), begun, peers);
    }

    /** Writes the connection details and commits. */
    method CommitConnection(ghost start: State, id: string, tx: Transaction, details: ConnectionDetails, commits: bool,
                            ghost c: Connect)
      returns (ok: bool)
      requires InConnect(start, id, tx, c) && c.stage == CHANNEL_CONFIRM && details == c.Details()
      modifies tx, this`tables
      ensures Valid() && id in tables.chains && ReachesAlone(start, StateOf(id)) && ok == commits
      ensures if ok then Established(old(tables), tables, id, details, c.height) else tables == old(tables)
      ensures ok ==>
        && c.clientId in peers[id].keys && peers[id].keys[c.clientId] == c.signer
        && c.clientId in peers[id].clients && peers[id].clients[c.clientId] == tables.chains[id].sequence
    {
      ghost var s := StateOf(id);
      FinishSteps(start, s, tables, c, tx.view);
      assert Idle(s) == s;
      var written := tx.AddConnectionDetails(id, details);
      if !commits {
        return false;
      }
      EstablishedKeepsIntact(tables, tx.view, id, details, c.height);
      tables := tx.view;
      assert StateOf(id) == Idle(s.(row := c.DetailsWritten().chain));
      return true;
    }

    /** Connection and channel. */
    method OpenEnds(ghost start: State, run: ConnectRun, tx: Transaction, chain: Chain, soloMachineClientId: string,
                    tendermintClientId: string, ghost c: Connect)
      returns (details: Option<ConnectionDetails>, ghost d: Connect)
      requires InRun(start, run, tx, c) && c.stage == TENDERMINT_CLIENT && c.chain == chain && run.StoresClient()
      requires soloMachineClientId == c.clientId && tendermintClientId == c.tendermintClientId
      requires peers[run.id].connections == run.peer.connections && peers[run.id].channels == run.peer.channels
      modifies tx, this`peers, this`sent
      ensures Valid() && run.id in tables.chains && sent == old(sent) + run.Sent()
      ensures peers == old(peers)[run.id := run.AfterChannel(run.AfterConnection(old(peers[run.id])))]
      ensures details.Some? <==> run.OpensChannel()
      ensures details.Some? ==>
        && InConnect(start, run.id, tx, d) && d.stage == CHANNEL_CONFIRM && d.height == run.At()
        && d.clientId == run.world.clientId && d.signer == run.signer
        && details.value == d.Details() == run.Details()
      ensures details.None? ==> ReachesAlone(start, StateOf(run.id))
    {
      details := None;
      var connections, next, channels;
      connections, next, d := CreateConnection(start, run, tx, chain, soloMachineClientId, tendermintClientId, c);
      ghost var connected, first := peers, sent;
      if connections.None? {
        run.EndsComposed(old(peers), connected, peers, old(sent), first, sent);
        return;
      }
      channels, d := OpenChannel(start, run, tx, next, connections.value.0, connections.value.1, d);
      run.EndsComposed(old(peers), connected, peers, old(sent), first, sent);
      if channels.Some? {
        details := Some(ConnectionDetails(soloMachineClientId, tendermintClientId,
                                          connections.value.0, connections.value.1,
                                          Some(channels.value.0), Some(channels.value.1)));
      }
    }

    /** Connection, channel and commit. */
    method Complete(ghost start: State, run: ConnectRun, tx: Transaction, chain: Chain, soloMachineClientId: string,
                    tendermintClientId: string, ghost c: Connect)
      returns (ok: bool)
      requires InRun(start, run, tx, c) && c.stage == TENDERMINT_CLIENT && c.chain == chain && run.StoresClient()
      requires soloMachineClientId == c.clientId && tendermintClientId == c.tendermintClientId
      requires peers[run.id].connections == run.peer.connections && peers[run.id].channels == run.peer.channels
      modifies tx, this`tables, this`peers, this`sent
      ensures Valid() && run.id in tables.chains && ReachesAlone(start, StateOf(run.id))
      ensures ok <==> run.Commits()
      ensures if ok then Established(old(tables), tables, run.id, run.Details(), run.At()) else tables == old(tables)
      ensures sent == old(sent) + run.Sent()
      ensures peers == old(peers)[run.id := run.AfterChannel(run.AfterConnection(old(peers[run.id])))]
      ensures ok ==>
        var client := run.world.clientId;
        && client in peers[run.id].keys && peers[run.id].keys[client] == run.signer
        && client in peers[run.id].clients && peers[run.id].clients[client] == tables.chains[run.id].sequence
    {
      var details;
      ghost var d;
      details, d := OpenEnds(start, run, tx, chain, soloMachineClientId, tendermintClientId, c);
      ok := details.Some?;
      if ok {
        ok := CommitConnection(start, run.id, tx, details.value, run.world.channelAck.commits, d);
      }
    }

    /** The stages of a `connect` on a chain without connection details. */
    method Establish(ghost start: State, run: ConnectRun, tx: Transaction, chain: Chain) returns (ok: bool)
      requires run.Starts() && run.world.Draws() && chain == run.Row() && tables == run.base && run.id in peers
      requires peers[run.id] == run.peer
      requires InConnect(start, run.id, tx, NewConnect(chain, run.signer))
      modifies tx, this`tables, this`peers, this`sent
      ensures Valid() && run.id in tables.chains && ReachesAlone(start, StateOf(run.id))
      ensures ok <==> run.Commits()
      ensures if ok then Established(old(tables), tables, run.id, run.Details(), run.At()) else tables == old(tables)
      ensures sent == old(sent) + run.Sent() && peers == old(peers)[run.id := run.PeerAfter()]
      ensures ok ==>
        var client := run.world.clientId;
        && client in peers[run.id].keys && peers[run.id].keys[client] == run.signer
        && client in peers[run.id].clients && peers[run.id].clients[client] == tables.chains[run.id].sequence
    {
      ok := false;
      var clients;
      ghost var c;
      clients, c := CreateNewClient(start, run, tx, chain, NewConnect(chain, run.signer));
      ghost var created := peers;
      if clients.Some? {
        ok := Complete(start, run, tx, chain, clients.value.0, clients.value.1, c);
      }
      run.AllComposed(old(peers), created, peers);
    }

    /** Only a chain without connection details can be connected: with details, the call ends in an error, or in the
        unfinished reconnection, whatever `force` says. Either nothing is committed, or everything that `Established`
        says, with the client at the latest height. */
    method Connect(id: string, signer: string, world: ConnectWorld, force: bool) returns (ok: bool)
      requires Valid() && world.Draws()
      modifies this`tables, this`peers, this`sent
      ensures Valid() && (id !in old(tables.chains) ==> !ok && tables == old(tables) && peers == old(peers))
      ensures id in old(tables.chains) ==> id in tables.chains && ReachesAlone(old(StateOf(id)), StateOf(id))
      ensures id in old(tables.chains) ==>
        var run := ConnectRun(old(tables), old(peers[id]), id, signer, world);
        && (ok <==> run.Commits())
        && (if ok then Established(old(tables), tables, id, run.Details(), run.At()) else tables == old(tables))
        && sent == old(sent) + run.Sent() && peers == old(peers)[id := run.PeerAfter()]
      ensures ok ==>
        var client, at := "07-tendermint-" + world.clientSample, Height(Version(id), world.blockHeight);
        && tables.Lookup(ClientState(client)) == Some(ClientRecord(id, at))
        && tables.Lookup(ConsensusState(client, at)) == Some(ConsensusRecord(at))
        && world.clientId in peers[id].keys && peers[id].keys[world.clientId] == signer
        && world.clientId in peers[id].clients && peers[id].clients[world.clientId] == tables.chains[id].sequence
      ensures SignedBy(old(sent), sent, signer)
    {
      ok := false;
      if id !in tables.chains {
        return;
      }
      ghost var start := StateOf(id);
      AloneStart(start);
      var run := ConnectRun(tables, peers[id], id, signer, world);
      run.SentIsSigned(sent);
      var tx := new Transaction.Begin(tables);
      var chain := tx.GetChain(id);
      if chain.None? || chain.value.connectionDetails.Some? {
        run.NotStarted(peers);
        return;
      }
      BeginHandshake(start, tables, signer);
      ok := Establish(start, run, tx, chain.value);
    }

    // ----- close_channel -----

    /** Takes the channel ids out of the row and sets the local channel end Closed, inside the transaction. */
    method CloseChannelConfirm(id: string, tx: Transaction, portId: string, channelId: string,
                               details: ConnectionDetails)
      returns (ok: bool)
      modifies tx
      ensures ok <==>
        && old(tx.view).Lookup(Channel(portId, channelId)).Some?
        && old(tx.view).Lookup(Channel(portId, channelId)).value.ChannelRecord?
        && id in old(tx.view.chains)
      ensures ok ==>
        var closed := old(tx.view).Lookup(Channel(portId, channelId)).value;
        tx.view ==
          old(tx.view).(ibcData := old(tx.view).ibcData[Key(Channel(portId, channelId)) := closed.SetState(Closed)])
                      .WithRow(id, old(tx.view.chains[id]).(connectionDetails := Some(details)))
    {
      var channel := tx.Get(Channel(portId, channelId));
      if channel.None? || !channel.value.ChannelRecord? {
        return false;
      }
      ok := tx.Update(Channel(portId, channelId), channel.value.SetState(Closed));
      if ok {
        ok := tx.AddConnectionDetails(id, details);
      }
    }

    /** The counterparty with one channel closed, if it has it. */
    static function WithClosed(peer: Peer, channel: string): Peer {
      if channel in peer.channels then
        peer.(channels := peer.channels[channel := peer.channels[channel].(state := EndState.Closed)])
      else peer
    }

    /** Reads the row again, in the same transaction, and asks the counterparty to close the channel it names; gives
        back the channel that the response names. Without a channel in the row the counterparty is not asked. */
    method ChannelCloseInit(id: string, tx: Transaction, w: World, named: string) returns (closed: Option<string>)
      requires Valid() && id in tables.chains
      modifies this`peers
      ensures Valid()
      ensures var asked := id in tx.view.chains && tx.view.chains[id].Readable()
                && tx.view.chains[id].connectionDetails.Some?
                && tx.view.chains[id].connectionDetails.value.soloMachineChannelId.Some? && w.builds;
        && closed == (if asked && w.willing && w.answers then Some(named) else None)
        && peers == if asked && w.willing then
             old(peers)[id := WithClosed(old(peers[id]),
                                         tx.view.chains[id].connectionDetails.value.soloMachineChannelId.value)]
                    else old(peers)
    {
      closed := None;
      var chain := tx.GetChain(id);
      if chain.None? || chain.value.connectionDetails.None? ||
         chain.value.connectionDetails.value.soloMachineChannelId.None? || !w.builds {
        return;
      }
      if w.willing {
        peers := peers[id := WithClosed(peers[id], chain.value.connectionDetails.value.soloMachineChannelId.value)];
        if w.answers {
          closed := Some(named);
        }
      }
    }

    /** Never gets anywhere: the row is read again after the channel ids were taken out of it, so that the call fails
        before it asks the counterparty, and its transaction is dropped. */
    method CloseChannel(id: string, w: World, named: string) returns (ok: bool)
      requires Valid()
      modifies this`peers
      ensures !ok && Valid() && peers == old(peers)
    {
      ok := false;
      if id !in tables.chains {
        return;
      }
      var tx := new Transaction.Begin(tables);
      var chain := tx.GetChain(id);
      if chain.None? || chain.value.connectionDetails.None? || !chain.value.connectionDetails.value.HasChannels() {
        // with one channel id alone the call panics
        return;
      }
      var details := chain.value.connectionDetails.value;
      var confirmed := CloseChannelConfirm(id, tx, chain.value.portId, details.tendermintChannelId.value,
                                           details.WithoutChannels());
      if !confirmed {
        return;
      }
      var closed := ChannelCloseInit(id, tx, w, named);
      if closed.Some? {
        // the closed channel would be compared with the expected one, and the transaction committed
        assert false;
      }
    }

    // ----- chain_service::add -----

    method CommitChain(id: string, tx: Transaction, ghost publicKey: string, counterparty: Peer)
      requires Valid() && counterparty.received == [] && counterparty.acknowledged == []
      requires id !in tables.chains && id in tx.view.chains
      requires tx.view == tables.WithRow(id, Chain(tx.view.chains[id].portId, 1, 1, None)).WithKey(id, publicKey)
      modifies this`tables, this`peers, this`mints, this`tallies
      ensures Valid() && tables == tx.view && peers == old(peers)[id := counterparty]
      ensures Initial(StateOf(id)) && tables.KeysOf(id) == {publicKey}
      ensures mints == old(mints)[id := 0] && SameBut(tallies, old(tallies), id)
    {
      NewChainKeepsIntact(tables, id, tx.view.chains[id]);
      tables := tx.view;
      peers, mints, tallies := peers[id := counterparty], mints[id := 0], tallies[id := Tally(0, 0, 0, 0)];
      assert tables.KeysOf(id) == {publicKey};
    }

    /** Adds a chain with its first key, or nothing; the call can still fail after the commit. The counterparty has not
        received anything from this solo machine, but may serve others. */
    method AddChain(network: string, portId: string, publicKey: string, counterparty: Peer, commits: bool,
                    announced: bool)
      returns (ok: bool)
      requires Valid() && counterparty.received == [] && counterparty.acknowledged == []
      modifies this
      ensures Valid() && sent == old(sent) && SameBut(tallies, old(tallies), network)
      ensures var added := ParseChainId(network).Ok? && network !in old(tables.chains) && commits;
        && (ok <==> added && announced)
        && (added ==>
              && tables == old(tables).WithRow(network, Chain(portId, 1, 1, None)).WithKey(network, publicKey)
              && peers == old(peers)[network := counterparty] && mints == old(mints)[network := 0]
              && Initial(StateOf(network)) && tables.KeysOf(network) == {publicKey})
        && (!added ==>
              tables == old(tables) && peers == old(peers) && mints == old(mints) && tallies == old(tallies))
    {
      ok := false;
      if ParseChainId(network).Err? {
        return;
      }
      var tx := new Transaction.Begin(tables);
      var added := tx.AddChain(network, portId);
      if !added {
        return;
      }
      // no key belongs to a chain that is not there
      added := tx.AddChainKey(network, publicKey);
      if !added || !commits {
        return;
      }
      CommitChain(network, tx, publicKey, counterparty);
      return announced;
    }
  }
}
