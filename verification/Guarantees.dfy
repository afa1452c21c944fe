/** What holds in every state that a run from a newly added chain reaches. */
module Guarantees {
  import opened Wrappers
  import opened Records
  import opened Counterparty
  import opened Machine
  import opened Invariant

  ghost predicate Reachable(s: State) {
    exists start: State, events: seq<Event> :: Initial(start) && IsRun(start, events) && Run(start, events) == s
  }

  lemma RunOne(s: State, e: Event)
    requires Enabled(s, e)
    ensures IsRun(s, [e]) && Run(s, [e]) == Step(s, e)
  {
    var one, next := [e], Step(s, e);
    assert one[0] == e && one[1..] == [];
    assert IsRun(next, []) && Run(next, []) == next;
    assert IsRun(s, one);
    assert Run(s, one) == Run(next, one[1..]);
  }

  lemma {:induction false} RunAppend(s: State, events: seq<Event>, more: seq<Event>)
    requires IsRun(s, events) && IsRun(Run(s, events), more)
    ensures IsRun(s, events + more) && Run(s, events + more) == Run(Run(s, events), more)
    decreases |events|
  {
    var all := events + more;
    if events == [] {
      assert all == more;
    } else {
      assert all[1..] == events[1..] + more && all[0] == events[0];
      RunAppend(Step(s, events[0]), events[1..], more);
    }
  }

  lemma ReachableInv(s: State)
    requires Reachable(s)
    ensures Inv(s)
  {
    var start: State, events: seq<Event> :| Initial(start) && IsRun(start, events) && Run(start, events) == s;
    InitialInv(start);
    RunKeepsInv(start, events);
  }

  lemma InitialIsReachable(s: State)
    requires Initial(s)
    ensures Reachable(s)
  {
    assert IsRun(s, []) && Run(s, []) == s;
  }

  lemma StepStaysReachable(s: State, e: Event)
    requires Reachable(s) && Enabled(s, e)
    ensures Reachable(Step(s, e))
  {
    var start: State, events: seq<Event> :| Initial(start) && IsRun(start, events) && Run(start, events) == s;
    RunOne(s, e);
    RunAppend(start, events, [e]);
  }

  // ----- sequences -----

  ghost function AcceptedNotCommitted(s: State): set<nat> {
    set i | i in s.calls && s.calls[i].InFlight()
  }

  /** Committed local sequence + accepted broadcasts that are not (yet) committed = counterparty sequence +
      acknowledgements committed although rejected; for any interleaving and in spite of stale reads. */
  lemma SequenceConservation(s: State)
    requires Reachable(s) && s.row.connectionDetails.Some?
    ensures s.row.connectionDetails.value.soloMachineClientId in s.peer.clients
    ensures s.row.sequence + |AcceptedNotCommitted(s)| + s.tally.lost ==
            s.peer.clients[s.row.connectionDetails.value.soloMachineClientId] + s.tally.rejectedAcks
  {
    ReachableInv(s);
    if AnyInFlight(s) {
      var i :| i in s.calls && s.calls[i].InFlight();
      assert AcceptedNotCommitted(s) == {i};
    } else {
      assert AcceptedNotCommitted(s) == {};
    }
  }

  lemma {:induction false} NumbersAt(n: nat)
    ensures |Numbers(n)| == n && forall k | 0 <= k < n :: Numbers(n)[k] == k + 1
  {
    if n == 0 {
    } else {
      NumbersAt(n - 1);
    }
  }

  /** Without a committed rejected acknowledgement the received packet numbers are 1, 2, 3, ...; they end right before
      the row's number, or with it exactly when its mint was accepted and its commit is outstanding or lost. */
  lemma PacketsAreReceivedInOrder(s: State)
    requires Reachable(s) && s.tally.rejectedAcks == 0
    ensures forall k | 0 <= k < |s.peer.received| :: s.peer.received[k] == k + 1
    ensures s.row.packetSequence - 1 <= |s.peer.received| <= s.row.packetSequence
    ensures |s.peer.received| == s.row.packetSequence <==> s.tally.lostMints > 0 || MintInFlight(s)
  {
    ReachableInv(s);
    NumbersAt(s.row.packetSequence - 1);
    NumbersAt(s.row.packetSequence);
  }

  // ----- the ledger -----

  /** The two counters, the connection, the key table and the acknowledgements add up; the counters stay within 32
      bits; the mint history is bounded by the packet counter. */
  lemma LedgerBalances(s: State)
    requires Reachable(s)
    ensures s.row.sequence == s.row.packetSequence + 2 * Connected(s.row) + (|s.keys| - 1) + s.tally.acks
    ensures 1 <= s.row.packetSequence <= s.row.sequence <= U32_MAX
    ensures s.history <= s.row.packetSequence - 1
  {
    ReachableInv(s);
  }

  // ----- connecting -----

  /** Open local ends of a running `connect` have open counterparts, and the two ends name each other. */
  lemma HandshakeAgreement(s: State, i: nat)
    requires Reachable(s) && i in s.calls && s.calls[i].Connecting?
    ensures var c := s.calls[i].connect;
      (c.ConnectionKey() in c.writes && c.writes[c.ConnectionKey()].ConnectionRecord?
       && c.writes[c.ConnectionKey()].state == Open ==>
        && var local := c.writes[c.ConnectionKey()];
        && local.counterpartyConnectionId in s.peer.connections
        && s.peer.connections[local.counterpartyConnectionId] ==
           PeerConnection(Open, local.counterpartyClientId, local.clientId, Some(c.tendermintConnectionId)))
    ensures var c := s.calls[i].connect;
      (c.ChannelKey() in c.writes && c.writes[c.ChannelKey()].ChannelRecord?
       && c.writes[c.ChannelKey()].state == Open ==>
        && var local := c.writes[c.ChannelKey()];
        && local.counterpartyChannelId in s.peer.channels
        && s.peer.channels[local.counterpartyChannelId] ==
           PeerChannel(Open, local.counterpartyPortId, c.connectionId, s.row.portId, Some(c.tendermintChannelId)))
  {
    ReachableInv(s);
    assert CallOk(s.id, s.row, s.peer, s.calls[i]);
  }

  /** A `connect` that commits finds the row exactly as it read it, unconnected; it advances the sequence by two, and
      the client it records is at the new sequence, whatever became of clients abandoned by other attempts. */
  lemma ConnectCommits(s: State, i: nat)
    requires Reachable(s) && Enabled(s, CommitConnect(i))
    ensures var t := Step(s, CommitConnect(i));
      && s.row == s.calls[i].connect.snapshot
      && s.row.connectionDetails.None?
      && t.row == s.row.(sequence := s.row.sequence + 2, connectionDetails := t.row.connectionDetails)
      && t.row.connectionDetails.Some? && t.row.connectionDetails.value.HasChannels()
      && var d := t.row.connectionDetails.value;
      && d.soloMachineClientId in t.peer.clients
      && t.peer.clients[d.soloMachineClientId] == t.row.sequence
  {
    ReachableInv(s);
    assert CallOk(s.id, s.row, s.peer, s.calls[i]);
  }

  lemma ConnectKeepsRow(s: State, e: Event)
    requires Enabled(s, e) && OfConnect(e) && !e.CommitConnect?
    ensures Step(s, e).row == s.row && Step(s, e).keys == s.keys
  {
  }

  /** Only a commit changes what is committed. */
  lemma OnlyCommitsChangeTheRow(s: State, e: Event)
    requires Inv(s) && Enabled(s, e) && !e.Commit? && !e.CommitConnect?
    ensures Step(s, e).row == s.row && Step(s, e).keys == s.keys
  {
    if OfConnect(e) {
      ConnectKeepsRow(s, e);
    } else if e.CloseInit? {
      CloseInitNeverEnabled(s, e.call);
    }
  }

  lemma StepKeepsDetails(s: State, e: Event)
    requires Inv(s) && Enabled(s, e)
    ensures s.row.connectionDetails.Some? ==> Step(s, e).row.connectionDetails == s.row.connectionDetails
    ensures Step(s, e).row.connectionDetails.Some? ==> Step(s, e).row.connectionDetails.value.HasChannels()
  {
    StepKeepsInv(s, e);
    if e.Commit? || e.CommitConnect? {
      assert CallOk(s.id, s.row, s.peer, s.calls[e.call]);
    } else {
      OnlyCommitsChangeTheRow(s, e);
    }
  }

  /** Connection details are set at most once: whatever runs afterwards, `close_channel` included, they stay as they
      are, with both channel ids present. */
  lemma {:induction false} DetailsAreSetOnce(s: State, events: seq<Event>)
    requires Inv(s) && IsRun(s, events)
    ensures s.row.connectionDetails.Some? ==> Run(s, events).row.connectionDetails == s.row.connectionDetails
    ensures Run(s, events).row.connectionDetails.Some? ==> Run(s, events).row.connectionDetails.value.HasChannels()
    decreases |events|
  {
    if events == [] {
    } else {
      StepKeepsInv(s, events[0]);
      StepKeepsDetails(s, events[0]);
      DetailsAreSetOnce(Step(s, events[0]), events[1..]);
    }
  }

  /** No run contains a `close_channel` that gets as far as asking the counterparty. */
  lemma {:induction false} CloseChannelNeverCloses(s: State, events: seq<Event>)
    requires Inv(s) && IsRun(s, events)
    ensures forall k | 0 <= k < |events| :: !events[k].CloseInit?
    decreases |events|
  {
    if events == [] {
    } else {
      if events[0].CloseInit? {
        CloseInitNeverEnabled(s, events[0].call);
      }
      StepKeepsInv(s, events[0]);
      CloseChannelNeverCloses(Step(s, events[0]), events[1..]);
    }
  }
}
