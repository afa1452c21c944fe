/** Packet numbers: when a mint is signed with a number that the counterparty has received before. */
module Packets {
  import opened Wrappers
  import opened Height
  import opened Records
  import opened Counterparty
  import opened Machine
  import opened Invariant
  import opened Guarantees
  import opened Sequential

  /** Call `i` offers a packet that passes the client although its number was received before. The counterparty
      refuses it for its receipt. */
  ghost predicate Repeats(s: State, i: nat) {
    && i in s.calls && s.calls[i].Proving? && (s.calls[i].phase.Signed? || s.calls[i].phase.Adrift?)
    && var m := s.calls[i].phase.message;
    && m.RecvPacket? && s.peer.PassesClient(m) && m.packetSequence in s.peer.received
  }

  lemma NextNumber(n: int)
    requires n >= 1
    ensures n == |Numbers(n - 1)| + 1 && n !in Numbers(n - 1)
  {
    NumbersAt(n - 1);
  }

  /** Without a committed rejected acknowledgement, every packet that passes the client carries the number after the
      last received one: no receipt is ever needed to refuse it. */
  lemma PassingPacketIsNext(s: State, i: nat, m: Message)
    requires Reachable(s) && s.tally.rejectedAcks == 0
    requires i in s.calls && s.calls[i].Offers(m) && m.RecvPacket? && s.peer.PassesClient(m)
    ensures m.packetSequence == |s.peer.received| + 1 && s.peer.Accepts(m) && !Repeats(s, i)
  {
    ReachableInv(s);
    AcceptedIsCurrent(s, i, m);
    assert !MintInFlight(s);
    NextNumber(s.row.packetSequence);
  }

  // ----- runs -----

  ghost predicate Reaches(s: State, t: State) {
    exists events: seq<Event> :: IsRun(s, events) && Run(s, events) == t
  }

  lemma StepReaches(s: State, t: State, e: Event)
    requires Reaches(s, t) && Enabled(t, e)
    ensures Reaches(s, Step(t, e))
  {
    var events: seq<Event> :| IsRun(s, events) && Run(s, events) == t;
    RunOne(t, e);
    RunAppend(s, events, [e]);
  }

  /** The packet that makes the acknowledgement below well-formed. */
  function NextPacket(s: State): Packet
    requires s.row.connectionDetails.Some? && s.row.connectionDetails.value.HasChannels()
  {
    var d := s.row.connectionDetails.value;
    Packet(1, s.row.portId, d.soloMachineChannelId.value, s.row.portId, d.tendermintChannelId.value, [],
           Some(Height(0, 1)), 0)
  }

  lemma ReachesTwo(s: State, t: State, e: Event, f: Event)
    requires Reaches(s, t) && Enabled(t, e) && Enabled(Step(t, e), f)
    ensures Reaches(s, Step(Step(t, e), f))
  {
    StepReaches(s, t, e);
    StepReaches(s, Step(t, e), f);
  }

  lemma SignedAck(s: State, t: State) returns (u: State)
    requires Reaches(s, t) && 1 !in t.calls && t.RowIsFree()
    requires t.row.Readable() && t.row.NextSequence().Readable()
    requires t.row.connectionDetails.Some? && t.row.connectionDetails.value.HasChannels()
    ensures Reaches(s, u) && 1 in u.calls && u == t.With(1, u.calls[1])
    ensures u.calls[1].Proving? && u.calls[1].chain == t.row.NextSequence() && u.calls[1].phase.Signed?
    ensures u.calls[1].kind == Acks(t.row.connectionDetails, [NextPacket(t)])
  {
    ReachesTwo(s, t, StartBurn(1, [NextPacket(t)]), Sign(1, ""));
    u := Step(Step(t, StartBurn(1, [NextPacket(t)])), Sign(1, ""));
  }

  /** Call 1 acknowledges one packet; the counterparty refuses and the transaction is committed all the same. */
  lemma RejectedAck(s: State, t: State) returns (u: State)
    requires Reaches(s, t) && 1 !in t.calls && t.RowIsFree()
    requires t.row.Readable() && t.row.NextSequence().Readable()
    requires t.row.connectionDetails.Some? && t.row.connectionDetails.value.HasChannels()
    ensures Reaches(s, u)
    ensures u ==
      t.(row := t.row.NextSequence(),
         tally := t.tally.(rejectedAcks := t.tally.rejectedAcks + 1, acks := t.tally.acks + 1))
  {
    var signed := SignedAck(s, t);
    ReachesTwo(s, signed, Broadcast(1, false), Commit(1));
    u := Step(Step(signed, Broadcast(1, false)), Commit(1));
    assert u.calls == t.calls;
  }

  /** A delivery that the counterparty accepts, and the commit that follows. */
  lemma AcceptedAndCommitted(s: State, t: State, i: nat) returns (u: State)
    requires Reaches(s, t) && i in t.calls && t.calls[i].Proving? && t.calls[i].kind == Mint && t.calls[i].phase.Signed?
    requires t.peer.Accepts(t.calls[i].phase.message)
    ensures Reaches(s, u)
    ensures u == t.(row := t.calls[i].chain, peer := t.peer.Apply(t.calls[i].phase.message))
                  .With(i, Proving(Mint, t.calls[i].chain, Recording))
  {
    ReachesTwo(s, t, Broadcast(i, true), Commit(i));
    u := Step(Step(t, Broadcast(i, true)), Commit(i));
    assert u.calls == t.calls[i := Proving(Mint, t.calls[i].chain, Recording)];
  }

  /** The mint of call i runs from its signature to its commit and is accepted. */
  lemma AcceptedMint(s: State, t: State, i: nat) returns (u: State)
    requires Reaches(s, t) && t.RowIsFree() && Agreed(t) && t.row.connectionDetails.Some?
    requires i in t.calls && t.calls[i].Proving? && t.calls[i].kind.Mint? && t.calls[i].phase.Ready?
    requires t.calls[i].chain.connectionDetails == t.row.connectionDetails && t.calls[i].chain.portId == t.row.portId
    requires t.calls[i].chain.packetSequence >= 0 && Bumped(t.row, Mint).Readable()
    requires Client(t) in t.peer.clients && t.peer.clients[Client(t)] == t.calls[i].chain.sequence
    requires Client(t) in t.peer.keys && t.calls[i].chain.packetSequence !in t.peer.received
    ensures Reaches(s, u)
    ensures
      u == t.(row := Bumped(t.row, Mint),
              peer := t.peer.(clients := t.peer.clients[Client(t) := t.peer.clients[Client(t)] + 1],
                              received := t.peer.received + [t.calls[i].chain.packetSequence]))
            .With(i, Proving(Mint, Bumped(t.row, Mint), Recording))
  {
    var sign := Sign(i, t.peer.keys[Client(t)]);
    var signed := Step(t, sign);
    StepReaches(s, t, sign);
    u := AcceptedAndCommitted(s, signed, i);
    assert u.calls == t.calls[i := Proving(Mint, Bumped(t.row, Mint), Recording)];
  }

  lemma RunKeepsReachedInv(s: State, t: State)
    requires Inv(s) && Reaches(s, t)
    ensures Inv(t)
  {
    var events: seq<Event> :| IsRun(s, events) && Run(s, events) == t;
    RunKeepsInv(s, events);
  }

  /** A connected chain with no call running. */
  ghost predicate Quiet(s: State) {
    Inv(s) && s.calls == map[] && s.row.connectionDetails.Some?
  }

  // ----- repetitions that can be reached -----

  /** A mint that reads the row, a refused and committed acknowledgement, and another mint that reads the row. */
  lemma MintsAroundRejectedAck(s: State, t: State) returns (u: State)
    requires Reaches(s, t) && t.calls == map[] && t.row.Readable() && t.row.NextSequence().Readable()
    requires t.row.connectionDetails.Some? && t.row.connectionDetails.value.HasChannels()
    ensures Reaches(s, u)
    ensures u == t.(row := t.row.NextSequence(),
                    tally := t.tally.(rejectedAcks := t.tally.rejectedAcks + 1, acks := t.tally.acks + 1),
                    calls := map[0 := Proving(Mint, t.row, Ready), 2 := Proving(Mint, t.row.NextSequence(), Ready)])
  {
    StepReaches(s, t, StartMint(0));
    var refused := RejectedAck(s, Step(t, StartMint(0)));
    StepReaches(s, refused, StartMint(2));
    u := Step(refused, StartMint(2));
    assert u.calls == map[0 := Proving(Mint, t.row, Ready), 2 := Proving(Mint, t.row.NextSequence(), Ready)];
  }

  /** A mint of a received number that reads the row at the client's sequence and signs. */
  lemma SignRepeats(s: State, t: State, i: nat) returns (u: State)
    requires Reaches(s, t) && t.RowIsFree() && Agreed(t) && t.row.connectionDetails.Some?
    requires i in t.calls && t.calls[i].Proving? && t.calls[i].kind.Mint? && t.calls[i].phase.Ready?
    requires t.calls[i].chain.connectionDetails == t.row.connectionDetails && t.calls[i].chain.portId == t.row.portId
    requires t.calls[i].chain.packetSequence >= 0 && Bumped(t.row, Mint).Readable()
    requires Client(t) in t.peer.clients && t.peer.clients[Client(t)] == t.calls[i].chain.sequence
    requires Client(t) in t.peer.keys && t.calls[i].chain.packetSequence in t.peer.received
    ensures Reaches(s, u) && Repeats(u, i) && u.tally == t.tally && u.peer == t.peer
    ensures u.calls[i].phase.message.packetSequence == t.calls[i].chain.packetSequence
  {
    StepReaches(s, t, Sign(i, t.peer.keys[Client(t)]));
    u := Step(t, Sign(i, t.peer.keys[Client(t)]));
  }

  /** When the client is in step and the next number was received before, the next mint repeats it. */
  lemma NextMintRepeats(s: State, t: State) returns (u: State)
    requires Reaches(s, t) && Quiet(t) && t.row.sequence + 1 <= U32_MAX
    requires Gap(t) == 0 && t.row.packetSequence in t.peer.received
    ensures Reaches(s, u) && Repeats(u, 0) && u.tally == t.tally
  {
    GapBetweenCalls(t);
    StepReaches(s, t, StartMint(0));
    u := SignRepeats(s, Step(t, StartMint(0)), 0);
  }

  /** When the client is in step and the next number is new, two mints that read the row before and after a refused and
      committed acknowledgement carry the same number: the first is accepted, the second repeats it. */
  lemma RejectedAckRepeats(s: State, t: State) returns (u: State)
    requires Reaches(s, t) && Quiet(t) && t.row.sequence + 3 <= U32_MAX
    requires Gap(t) == 0 && t.row.packetSequence !in t.peer.received
    ensures Reaches(s, u) && Repeats(u, 2)
    ensures u.tally.rejectedAcks == t.tally.rejectedAcks + 1 && u.tally.lost == t.tally.lost
    ensures u.peer.received == t.peer.received + [t.row.packetSequence]
    ensures u.calls[2].phase.message.packetSequence == t.row.packetSequence
  {
    GapBetweenCalls(t);
    var both := MintsAroundRejectedAck(s, t);
    var once := AcceptedMint(s, both, 0);
    u := SignRepeats(s, once, 2);
  }

  /** Refused and committed acknowledgements use up the lead that lost broadcasts gave the client. */
  lemma {:induction false} CatchUp(s: State, t: State) returns (u: State)
    requires Inv(s) && Reaches(s, t) && Quiet(t) && Gap(t) <= 0 && t.peer.clients[Client(t)] <= U32_MAX
    ensures Reaches(s, u) && Quiet(u) && Gap(u) == 0
    ensures u.peer == t.peer && u.row == t.row.(sequence := t.peer.clients[Client(t)])
    decreases -Gap(t)
  {
    if Gap(t) == 0 {
      u := t;
    } else {
      var next := RejectedAck(s, t);
      RunKeepsReachedInv(s, next);
      u := CatchUp(s, next);
    }
  }

  // ----- when they can be reached -----

  /** A client that is behind passes nothing. */
  lemma DriftedNeverRepeats(s: State, t: State, i: nat)
    requires Quiet(s) && Gap(s) > 0 && Reaches(s, t)
    ensures !Repeats(t, i)
  {
    var events: seq<Event> :| IsRun(s, events) && Run(s, events) == t;
    StaysBehind(s, s.row.sequence, events);
    if Repeats(t, i) {
      BehindNeverPasses(t, s.row.sequence, i, t.calls[i].phase.message);
    }
  }

  /** From a quiet state, some interleaving of calls makes a mint repeat a received number if and only if the row is not
      ahead of the client: on every client that still passes anything, or can come to do so. */
  lemma RepeatPossibleIff(s: State)
    requires Quiet(s) && s.peer.clients[Client(s)] + 3 <= U32_MAX
    ensures (exists t: State, i: nat :: Reaches(s, t) && Repeats(t, i)) <==> Gap(s) <= 0
    ensures Gap(s) <= 0 <==> s.tally.lost >= s.tally.rejectedAcks
  {
    GapBetweenCalls(s);
    if Gap(s) <= 0 {
      assert IsRun(s, []) && Run(s, []) == s;
      var t := CatchUp(s, s);
      if t.row.packetSequence in t.peer.received {
        var u := NextMintRepeats(s, t);
        assert Reaches(s, u) && Repeats(u, 0);
      } else {
        var u := RejectedAckRepeats(s, t);
        assert Reaches(s, u) && Repeats(u, 2);
      }
    } else {
      forall t: State, i: nat | Reaches(s, t)
        ensures !Repeats(t, i)
      {
        DriftedNeverRepeats(s, t, i);
      }
    }
  }

  // ----- without any more rejected acknowledgements -----

  /** The client is not behind; and when it is in step, the row's number is new. */
  ghost predicate NextIsNew(s: State) {
    && s.tally.lost >= s.tally.rejectedAcks
    && (s.tally.lost == s.tally.rejectedAcks && !MintInFlight(s) ==> s.row.packetSequence !in s.peer.received)
  }

  lemma NewNeverRepeats(s: State, i: nat)
    requires Inv(s) && NextIsNew(s)
    ensures !Repeats(s, i)
  {
    if Repeats(s, i) {
      assert CallOk(s.id, s.row, s.peer, s.calls[i]);
      VerifierIsConnected(s, s.calls[i].phase.message);
    }
  }

  lemma BroadcastKeepsNew(s: State, i: nat, willing: bool)
    requires Inv(s) && NextIsNew(s) && CanBroadcast(s, i)
    ensures NextIsNew(DoBroadcast(s, i, willing))
  {
    var t := DoBroadcast(s, i, willing);
    assert CallOk(s.id, s.row, s.peer, s.calls[i]);
    assert !MintInFlight(s);
    if t.calls[i].InFlight() && s.calls[i].kind.Mint? {
      assert MintInFlight(t);
    }
  }

  lemma ArriveKeepsNew(s: State, i: nat, willing: bool)
    requires Inv(s) && NextIsNew(s) && CanArrive(s, i)
    ensures NextIsNew(DoArrive(s, i, willing))
  {
    FlightSame(s, DoArrive(s, i, willing), i);
  }

  lemma CommitKeepsNew(s: State, i: nat)
    requires Inv(s) && NextIsNew(s) && CanCommit(s, i) && s.calls[i].phase.accepted
    ensures NextIsNew(DoCommit(s, i))
  {
    CommitCounts(s, i);
    assert CallOk(s.id, s.row, s.peer, s.calls[i]);
  }

  lemma DropKeepsNew(s: State, i: nat)
    requires Inv(s) && NextIsNew(s) && i in s.calls
    ensures NextIsNew(DoDrop(s, i))
  {
    if !s.calls[i].InFlight() {
      FlightSame(s, DoDrop(s, i), i);
    }
  }

  lemma StepKeepsNew(s: State, e: Event)
    requires Inv(s) && NextIsNew(s) && Enabled(s, e) && Step(s, e).tally.rejectedAcks == s.tally.rejectedAcks
    ensures NextIsNew(Step(s, e))
  {
    if e.Broadcast? {
      BroadcastKeepsNew(s, e.call, e.willing);
    } else if e.Arrive? {
      ArriveKeepsNew(s, e.call, e.willing);
    } else if e.Commit? {
      CommitKeepsNew(s, e.call);
    } else if e.Drop? {
      DropKeepsNew(s, e.call);
    } else {
      OtherStepFrame(s, e);
    }
  }

  lemma {:induction false} RejectionsStay(s: State, events: seq<Event>)
    requires Inv(s) && IsRun(s, events)
    ensures Run(s, events).tally.rejectedAcks >= s.tally.rejectedAcks
    decreases |events|
  {
    if events == [] {
    } else {
      var e := events[0];
      if !Counts(e) {
        OtherStepFrame(s, e);
      }
      StepKeepsInv(s, e);
      RejectionsStay(Step(s, e), events[1..]);
    }
  }

  lemma {:induction false} RunKeepsNew(s: State, events: seq<Event>)
    requires Inv(s) && NextIsNew(s) && IsRun(s, events) && Run(s, events).tally.rejectedAcks == s.tally.rejectedAcks
    ensures Inv(Run(s, events)) && NextIsNew(Run(s, events))
    decreases |events|
  {
    if events == [] {
    } else {
      var e := events[0];
      StepKeepsInv(s, e);
      RejectionsStay(s, [e]);
      RejectionsStay(Step(s, e), events[1..]);
      assert Step(s, e).tally.rejectedAcks >= s.tally.rejectedAcks;
      StepKeepsNew(s, e);
      RunKeepsNew(Step(s, e), events[1..]);
    }
  }

  lemma NewNeverRepeatsLater(s: State, t: State, i: nat)
    requires Quiet(s) && NextIsNew(s) && Reaches(s, t) && t.tally.rejectedAcks == s.tally.rejectedAcks
    ensures !Repeats(t, i)
  {
    var events: seq<Event> :| IsRun(s, events) && Run(s, events) == t;
    RunKeepsNew(s, events);
    NewNeverRepeats(t, i);
  }

  /** From a quiet state and without further rejected acknowledgements, a mint can repeat a received number if and only
      if the two sequences are equal and the row's next number was received before. */
  lemma RepeatWithoutRejectionIff(s: State)
    requires Quiet(s) && s.row.sequence + 1 <= U32_MAX
    ensures (exists t: State, i: nat ::
               Reaches(s, t) && t.tally.rejectedAcks == s.tally.rejectedAcks && Repeats(t, i)) <==>
            Gap(s) == 0 && s.row.packetSequence in s.peer.received
  {
    GapBetweenCalls(s);
    if Gap(s) == 0 && s.row.packetSequence in s.peer.received {
      assert IsRun(s, []) && Run(s, []) == s;
      var u := NextMintRepeats(s, s);
      assert Reaches(s, u) && u.tally.rejectedAcks == s.tally.rejectedAcks && Repeats(u, 0);
    } else {
      forall t: State, i: nat | Reaches(s, t) && t.tally.rejectedAcks == s.tally.rejectedAcks
        ensures !Repeats(t, i)
      {
        if Gap(s) > 0 {
          DriftedNeverRepeats(s, t, i);
        } else {
          NewNeverRepeatsLater(s, t, i);
        }
      }
    }
  }

  // ----- a received number blocks all later mints -----

  /** The row's number was received, and every running mint carries it. */
  ghost predicate Blocked(s: State) {
    && s.row.packetSequence in s.peer.received
    && (forall i | i in s.calls && s.calls[i].Proving? && s.calls[i].kind.Mint? ::
          Carries(s.calls[i], s.row.packetSequence))
  }

  ghost predicate Carries(call: Call, n: int)
    requires call.Proving?
  {
    match call.phase
    case Ready => call.chain.packetSequence == n
    case Signed(m) => m.RecvPacket? && m.packetSequence == n
    case Adrift(m) => m.RecvPacket? && m.packetSequence == n
    case Answered(accepted) => !accepted
    case Recording => true
  }

  /** What stays on a blocked chain. */
  ghost predicate NoMore(s: State, t: State) {
    t.row.packetSequence == s.row.packetSequence && t.peer.received == s.peer.received
  }

  lemma BroadcastKeepsBlocked(s: State, i: nat, willing: bool)
    requires Inv(s) && Blocked(s) && CanBroadcast(s, i)
    ensures NoMore(s, DoBroadcast(s, i, willing)) && Blocked(DoBroadcast(s, i, willing))
  {
    assert CallOk(s.id, s.row, s.peer, s.calls[i]);
    assert s.calls[i].kind.Mint? ==> Carries(s.calls[i], s.row.packetSequence);
  }

  lemma ArriveKeepsBlocked(s: State, i: nat, willing: bool)
    requires Inv(s) && Blocked(s) && CanArrive(s, i)
    ensures NoMore(s, DoArrive(s, i, willing)) && Blocked(DoArrive(s, i, willing))
  {
    assert CallOk(s.id, s.row, s.peer, s.calls[i]);
    assert s.calls[i].kind.Mint? ==> Carries(s.calls[i], s.row.packetSequence);
  }

  lemma CommitKeepsBlocked(s: State, i: nat)
    requires Inv(s) && Blocked(s) && CanCommit(s, i)
    ensures NoMore(s, DoCommit(s, i)) && Blocked(DoCommit(s, i))
  {
    assert CallOk(s.id, s.row, s.peer, s.calls[i]);
    assert s.calls[i].kind.Mint? ==> Carries(s.calls[i], s.row.packetSequence);
  }

  lemma FrameKeepsBlocked(s: State, t: State, i: nat)
    requires Blocked(s) && OthersSame(s, t, i) && NoMore(s, t) && (i in t.calls ==> t.calls[i].Connecting?)
    ensures Blocked(t)
  {
  }

  lemma ConnectKeepsBlocked(s: State, e: Event)
    requires Inv(s) && Blocked(s) && Enabled(s, e) && OfConnect(e)
    ensures NoMore(s, Step(s, e)) && Blocked(Step(s, e))
  {
    OtherStepFrame(s, e);
    StepTouchesOneCall(s, e);
    ConnectStepConnects(s, e);
    FrameKeepsBlocked(s, Step(s, e), e.call);
  }

  lemma OtherStepKeepsBlocked(s: State, e: Event)
    requires Inv(s) && Blocked(s) && Enabled(s, e) && !Counts(e) && !OfConnect(e)
    ensures NoMore(s, Step(s, e)) && Blocked(Step(s, e))
  {
    if e.CloseInit? {
      CloseInitNeverEnabled(s, e.call);
    } else if e.call in s.calls {
      assert CallOk(s.id, s.row, s.peer, s.calls[e.call]);
    }
  }

  lemma StepKeepsBlocked(s: State, e: Event)
    requires Inv(s) && Blocked(s) && Enabled(s, e)
    ensures NoMore(s, Step(s, e)) && Blocked(Step(s, e))
  {
    if e.Broadcast? {
      BroadcastKeepsBlocked(s, e.call, e.willing);
    } else if e.Arrive? {
      ArriveKeepsBlocked(s, e.call, e.willing);
    } else if e.Commit? {
      CommitKeepsBlocked(s, e.call);
    } else if OfConnect(e) {
      ConnectKeepsBlocked(s, e);
    } else if !e.Drop? {
      OtherStepKeepsBlocked(s, e);
    }
  }

  /** Whatever runs afterwards, no mint is accepted and the row's number stays. */
  lemma {:induction false} BlockedForever(s: State, events: seq<Event>)
    requires Inv(s) && Blocked(s) && IsRun(s, events)
    ensures NoMore(s, Run(s, events)) && Blocked(Run(s, events))
    decreases |events|
  {
    if events == [] {
    } else {
      StepKeepsBlocked(s, events[0]);
      StepKeepsInv(s, events[0]);
      BlockedForever(Step(s, events[0]), events[1..]);
    }
  }

  /** From a quiet state, some interleaving of calls gets another packet received if and only if the row is not ahead of
      the client and the row's next number is new. */
  lemma MintPossibleIff(s: State)
    requires Quiet(s) && s.peer.clients[Client(s)] + 1 <= U32_MAX
    ensures (exists t: State :: Reaches(s, t) && t.peer.received != s.peer.received) <==>
            Gap(s) <= 0 && s.row.packetSequence !in s.peer.received
  {
    if Gap(s) <= 0 && s.row.packetSequence !in s.peer.received {
      assert IsRun(s, []) && Run(s, []) == s;
      var u := CatchUp(s, s);
      StepReaches(s, u, StartMint(0));
      var t := AcceptedMint(s, Step(u, StartMint(0)), 0);
      assert Reaches(s, t) && |t.peer.received| == |s.peer.received| + 1;
    } else {
      forall t: State | Reaches(s, t)
        ensures t.peer.received == s.peer.received
      {
        var events: seq<Event> :| IsRun(s, events) && Run(s, events) == t;
        if Gap(s) > 0 {
          StaysBehind(s, s.row.sequence, events);
        } else {
          BlockedForever(s, events);
        }
      }
    }
  }

  // ----- closing -----

  /** From every quiet state `close_channel` gets as far as blanking the channel ids, and no further. */
  lemma CloseChannelBlanks(s: State) returns (t: State)
    requires Quiet(s)
    ensures Reaches(s, t) && 0 in t.calls && t == During(s, t.calls[0])
    ensures t.calls[0] ==
      Closing(s.row.(connectionDetails := Some(s.row.connectionDetails.value.WithoutChannels())), true)
    ensures !CanCloseInit(t, 0)
  {
    assert IsRun(s, []) && Run(s, []) == s;
    ReachesTwo(s, s, StartClose(0), BlankDetails(0));
    t := Step(Step(s, StartClose(0)), BlankDetails(0));
  }

  // ----- calls that get no answer -----

  /** A call that reads the row and signs with the client's key, in step with the client, makes a message that is
      accepted. */
  lemma SignedInStep(s: State, e: Event, kind: Kind) returns (t: State)
    requires Quiet(s) && s.row.sequence + 1 <= U32_MAX && Gap(s) == 0
    requires (e == StartMint(0) && kind == Mint && s.row.packetSequence !in s.peer.received)
          || (exists newKey ::
                newKey !in s.keys && e == StartUpdateSigner(0, newKey) && kind == Kind.UpdateSigner(newKey))
    ensures Reaches(s, t) && 0 in t.calls && t == During(s, t.calls[0])
    ensures t.calls[0].Proving? && t.calls[0].kind == kind && t.calls[0].phase.Signed?
    ensures var m := t.calls[0].phase.message;
      t.peer.Accepts(m) && m == Outgoing(s, kind, s.row, s.peer.keys[Client(s)])
  {
    assert IsRun(s, []) && Run(s, []) == s;
    var sign := Sign(0, s.peer.keys[Client(s)]);
    assert Step(s, e) == During(s, Proving(kind, s.row, Ready));
    ReachesTwo(s, s, e, sign);
    t := Step(Step(s, e), sign);
    assert t == During(s, Proving(kind, Bumped(s.row, kind), Signed(Outgoing(s, kind, s.row, sign.signer))));
  }

  lemma LostMint(s: State) returns (t: State)
    requires Quiet(s) && s.row.sequence + 1 <= U32_MAX && Gap(s) == 0 && s.row.packetSequence !in s.peer.received
    ensures Reaches(s, t) && t.calls == map[] && t.row == s.row && t.tally == s.tally.Lose(Mint)
    ensures t.peer.received == s.peer.received + [s.row.packetSequence]
  {
    var signed := SignedInStep(s, StartMint(0), Mint);
    ReachesTwo(s, signed, Broadcast(0, true), Drop(0));
    t := Step(Step(signed, Broadcast(0, true)), Drop(0));
    assert t.calls == map[];
  }

  /** A mint that is accepted and lost, followed by a refused and committed acknowledgement, leaves a client that is in
      step again and a row whose number was received: mints pass the client and are refused, for ever. */
  lemma LostMintBlocks(s: State) returns (t: State)
    requires Quiet(s) && s.row.sequence + 2 <= U32_MAX && Gap(s) == 0 && s.row.packetSequence !in s.peer.received
    ensures Reaches(s, t) && Quiet(t) && Blocked(t) && Gap(t) == 0 && t.row == s.row.NextSequence()
  {
    GapBetweenCalls(s);
    var lost := LostMint(s);
    t := RejectedAck(s, lost);
    RunKeepsReachedInv(s, t);
    GapBetweenCalls(t);
  }

  /** A signer update that is accepted and lost leaves a client with a key that is not in the key log. */
  lemma LostUpdateChangesKey(s: State, newKey: string) returns (t: State)
    requires Quiet(s) && s.row.sequence + 1 <= U32_MAX && Gap(s) == 0 && newKey !in s.keys
    ensures Reaches(s, t) && t.calls == map[] && t.row == s.row && t.keys == s.keys
    ensures Client(t) in t.peer.keys && t.peer.keys[Client(t)] == newKey
  {
    var signed := SignedInStep(s, StartUpdateSigner(0, newKey), Kind.UpdateSigner(newKey));
    ReachesTwo(s, signed, Broadcast(0, true), Drop(0));
    t := Step(Step(signed, Broadcast(0, true)), Drop(0));
    assert t.calls == map[];
  }

  /** A mint in step that got no answer. */
  lemma UnansweredMint(s: State) returns (t: State)
    requires Quiet(s) && s.row.sequence + 1 <= U32_MAX && Gap(s) == 0 && s.row.packetSequence !in s.peer.received
    ensures Reaches(s, t) && 0 in t.calls && t == During(s, t.calls[0]) && CanArrive(t, 0)
    ensures t.calls[0].kind == Mint && t.calls[0].phase.message == Outgoing(s, Mint, s.row, s.peer.keys[Client(s)])
    ensures t.peer.Accepts(t.calls[0].phase.message)
  {
    var signed := SignedInStep(s, StartMint(0), Mint);
    t := During(s, Proving(Mint, signed.calls[0].chain, Adrift(signed.calls[0].phase.message)));
    StepReaches(s, signed, TimeOut(0));
    assert DoTimeOut(signed, 0) == t;
  }

  lemma AdriftMint(s: State) returns (t: State)
    requires Quiet(s) && s.row.sequence + 2 <= U32_MAX && Gap(s) == 0 && s.row.packetSequence !in s.peer.received
    ensures Reaches(s, t) && t.row == s.row.NextSequence() && t.peer == s.peer && t.calls.Keys == {0} && CanArrive(t, 0)
    ensures t.tally == s.tally.(rejectedAcks := s.tally.rejectedAcks + 1, acks := s.tally.acks + 1)
    ensures t.calls[0].kind == Mint && t.calls[0].phase.message == Outgoing(s, Mint, s.row, s.peer.keys[Client(s)])
    ensures t.peer.Accepts(t.calls[0].phase.message)
  {
    var adrift := UnansweredMint(s);
    t := RejectedAck(s, adrift);
  }

  /** Drift alone does not stop a message that was signed before it: a mint that got no answer, followed by a refused
      and committed acknowledgement, makes the row run ahead; when the mint is included after all, the sequences are
      equal again. */
  lemma LateMintEndsDrift(s: State) returns (drifted: State, t: State)
    requires Quiet(s) && s.row.sequence + 2 <= U32_MAX && Gap(s) == 0 && s.row.packetSequence !in s.peer.received
    ensures Reaches(s, drifted) && drifted.row == s.row.NextSequence() && drifted.peer == s.peer
    ensures drifted.tally.rejectedAcks > drifted.tally.lost
    ensures Reaches(drifted, t) && Quiet(t) && Gap(t) == 0 && t.row == drifted.row
    ensures t.peer.received == s.peer.received + [s.row.packetSequence]
  {
    GapBetweenCalls(s);
    drifted := AdriftMint(s);
    RunKeepsReachedInv(s, drifted);
    assert IsRun(drifted, []) && Run(drifted, []) == drifted;
    StepReaches(drifted, drifted, Arrive(0, true));
    t := Step(drifted, Arrive(0, true));
    RunKeepsReachedInv(drifted, t);
    assert t.calls == map[];
    GapBetweenCalls(t);
  }
}
