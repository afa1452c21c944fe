/** Runs in which calls are made one at a time: when the client accepts, and what drift does. */
module Sequential {
  import opened Wrappers
  import opened Records
  import opened Counterparty
  import opened Machine
  import opened Invariant
  import opened Guarantees

  /** No call starts before the previous one has ended. */
  ghost predicate OneAtATime(s: State, events: seq<Event>)
    requires IsRun(s, events)
    decreases |events|
  {
    events == [] ||
    ((events[0].call !in s.calls ==> s.calls == map[]) && OneAtATime(Step(s, events[0]), events[1..]))
  }

  /** The in-memory chain of the running call is the committed row, and a signed message carries its sequence. */
  ghost predicate Current(row: Chain, call: Call) {
    call.Proving? ==>
      && (call.phase.Ready? ==> call.chain == row)
      && (call.phase.Signed? || call.phase.Adrift? ==> call.phase.message.SignedSequence() == row.sequence)
  }

  ghost predicate Alone(s: State) {
    && (forall i, j | i in s.calls && j in s.calls :: i == j)
    && (forall i | i in s.calls :: Current(s.row, s.calls[i]))
    && (forall i | i in s.calls && s.calls[i].InFlight() :: s.tally.lost == s.tally.rejectedAcks)
  }

  ghost function Client(s: State): string
    requires s.row.connectionDetails.Some?
  {
    s.row.connectionDetails.value.soloMachineClientId
  }

  /** The local sequence minus the connected client's. */
  ghost function Gap(s: State): int
    requires s.row.connectionDetails.Some? && Client(s) in s.peer.clients
  {
    s.row.sequence - s.peer.clients[Client(s)]
  }

  /** Between calls the gap is what was committed although rejected minus what was accepted and lost. */
  lemma GapBetweenCalls(s: State)
    requires Inv(s) && s.row.connectionDetails.Some? && s.calls == map[]
    ensures Client(s) in s.peer.clients && Gap(s) == s.tally.rejectedAcks - s.tally.lost
  {
    assert !AnyInFlight(s);
  }

  /** A message of the only running call passes the client exactly when it was signed with the client's key and the two
      sequences are equal, which is when the rejected and the lost ones balance. */
  lemma PassesIff(s: State, i: nat, m: Message)
    requires Inv(s) && Alone(s) && i in s.calls && s.calls[i].Offers(m)
    ensures s.row.connectionDetails.Some? && Client(s) in s.peer.clients && Client(s) in s.peer.keys
    ensures Gap(s) == s.tally.rejectedAcks - s.tally.lost
    ensures s.peer.InStep(m) <==> Gap(s) == 0
    ensures s.peer.PassesClient(m) <==> Gap(s) == 0 && m.Signer() == s.peer.keys[Client(s)]
  {
    assert CallOk(s.id, s.row, s.peer, s.calls[i]);
    assert Current(s.row, s.calls[i]);
    VerifierIsConnected(s, m);
    assert !AnyInFlight(s);
  }

  lemma ProvingStepIsCurrent(s: State, e: Event)
    requires Inv(s) && Alone(s) && Enabled(s, e) && (e.Sign? || e.Broadcast? || e.TimeOut? || e.Commit?)
    requires e.call in Step(s, e).calls
    ensures Current(Step(s, e).row, Step(s, e).calls[e.call])
    ensures Step(s, e).calls[e.call].InFlight() ==> e.Broadcast? && s.peer.Accepts(s.calls[e.call].phase.message)
    ensures e.Broadcast? ==> Step(s, e).tally == s.tally
  {
    assert CallOk(s.id, s.row, s.peer, s.calls[e.call]);
    assert Current(s.row, s.calls[e.call]);
  }

  lemma ConnectStepConnects(s: State, e: Event)
    requires Enabled(s, e) && OfConnect(e)
    ensures e.call in s.calls && s.calls[e.call].Connecting?
    ensures e.call in Step(s, e).calls ==> Step(s, e).calls[e.call].Connecting?
  {
  }

  /** After a step the call that took it is up to date again. */
  lemma StepIsCurrent(s: State, e: Event)
    requires Inv(s) && Alone(s) && Enabled(s, e) && e.call in Step(s, e).calls
    ensures Current(Step(s, e).row, Step(s, e).calls[e.call])
    ensures Step(s, e).calls[e.call].InFlight() ==> e.Broadcast? && s.peer.Accepts(s.calls[e.call].phase.message)
    ensures e.Broadcast? ==> Step(s, e).tally == s.tally
  {
    if e.Sign? || e.Broadcast? || e.TimeOut? || e.Commit? {
      ProvingStepIsCurrent(s, e);
    } else if OfConnect(e) {
      ConnectStepConnects(s, e);
    }
  }

  lemma StepKeepsAlone(s: State, e: Event)
    requires Inv(s) && Alone(s) && Enabled(s, e) && (e.call !in s.calls ==> s.calls == map[])
    ensures Alone(Step(s, e))
  {
    var t := Step(s, e);
    StepTouchesOneCall(s, e);
    assert forall i | i in s.calls :: i == e.call;
    assert forall i | i in t.calls :: i == e.call;
    if e.call in t.calls {
      StepIsCurrent(s, e);
      if t.calls[e.call].InFlight() {
        PassesIff(s, e.call, s.calls[e.call].phase.message);
      }
    }
  }

  // ----- drift, with calls interleaved in any way -----

  /** Everything that is or will be signed for the connected client is signed at `q` or later, and the client is
      behind that. */
  ghost predicate Behind(s: State, q: int) {
    && s.row.connectionDetails.Some? && Client(s) in s.peer.clients
    && s.peer.clients[Client(s)] < q <= s.row.sequence
    && (forall i | i in s.calls && s.calls[i].Proving? :: SignsFrom(s.calls[i], q))
  }

  ghost predicate SignsFrom(call: Call, q: int)
    requires call.Proving?
  {
    match call.phase
    case Ready => call.chain.sequence >= q
    case Signed(m) => m.SignedSequence() >= q
    case Adrift(m) => m.SignedSequence() >= q
    case Answered(accepted) => !accepted
    case Recording => true
  }

  /** What stays when t follows s on a client that is behind. */
  ghost predicate Stuck(s: State, t: State) {
    && s.row.connectionDetails.Some?
    && t.row.connectionDetails == s.row.connectionDetails
    && Client(s) in s.peer.clients && Client(s) in t.peer.clients
    && t.peer.clients[Client(s)] == s.peer.clients[Client(s)]
    && Client(s) in s.peer.keys && Client(s) in t.peer.keys && t.peer.keys[Client(s)] == s.peer.keys[Client(s)]
    && t.peer.received == s.peer.received
    && t.peer.acknowledged == s.peer.acknowledged
    && Gap(t) >= Gap(s)
    && t.tally.lost == s.tally.lost
    && t.tally.rejectedAcks >= s.tally.rejectedAcks
  }

  lemma BehindNeverPasses(s: State, q: int, i: nat, m: Message)
    requires Inv(s) && Behind(s, q) && i in s.calls && s.calls[i].Offers(m)
    ensures !s.peer.InStep(m)
  {
    assert CallOk(s.id, s.row, s.peer, s.calls[i]);
    assert SignsFrom(s.calls[i], q);
    VerifierIsConnected(s, m);
  }

  lemma BehindBroadcast(s: State, q: int, i: nat, willing: bool)
    requires Inv(s) && Behind(s, q) && CanBroadcast(s, i)
    ensures Stuck(s, DoBroadcast(s, i, willing)) && Behind(DoBroadcast(s, i, willing), q)
  {
    BehindNeverPasses(s, q, i, s.calls[i].phase.message);
  }

  lemma BehindArrive(s: State, q: int, i: nat, willing: bool)
    requires Inv(s) && Behind(s, q) && CanArrive(s, i)
    ensures Stuck(s, DoArrive(s, i, willing)) && Behind(DoArrive(s, i, willing), q)
  {
    BehindNeverPasses(s, q, i, s.calls[i].phase.message);
  }

  /** The acknowledgement of another `connect` reaches another client. */
  lemma BehindBroadcastAck(s: State, q: int, i: nat, willing: bool)
    requires Inv(s) && Behind(s, q) && CanBroadcastAck(s, i)
    ensures Stuck(s, DoBroadcastAck(s, i, willing)) && Behind(DoBroadcastAck(s, i, willing), q)
  {
    assert CallOk(s.id, s.row, s.peer, s.calls[i]);
    assert ApartFrom(s.row.connectionDetails.value, s.calls[i].connect);
  }

  lemma BehindConnect(s: State, q: int, e: Event)
    requires Inv(s) && Behind(s, q) && Enabled(s, e) && OfConnect(e) && !e.BroadcastAck?
    ensures Stuck(s, Step(s, e)) && Behind(Step(s, e), q)
  {
    assert CallOk(s.id, s.row, s.peer, s.calls[e.call]);
    ConnectStepConnects(s, e);
    StepTouchesOneCall(s, e);
  }

  lemma BehindOther(s: State, q: int, e: Event)
    requires Inv(s) && Behind(s, q) && Enabled(s, e) && !OfConnect(e) && !e.Broadcast? && !e.Arrive? && !e.CloseInit?
    ensures Stuck(s, Step(s, e)) && Behind(Step(s, e), q)
  {
    if e.call in s.calls {
      assert CallOk(s.id, s.row, s.peer, s.calls[e.call]);
      assert s.calls[e.call].Proving? ==> SignsFrom(s.calls[e.call], q);
    }
  }

  lemma BehindStep(s: State, q: int, e: Event)
    requires Inv(s) && Behind(s, q) && Enabled(s, e)
    ensures Stuck(s, Step(s, e)) && Behind(Step(s, e), q)
  {
    if e.Broadcast? {
      BehindBroadcast(s, q, e.call, e.willing);
    } else if e.Arrive? {
      BehindArrive(s, q, e.call, e.willing);
    } else if e.BroadcastAck? {
      BehindBroadcastAck(s, q, e.call, e.willing);
    } else if OfConnect(e) {
      BehindConnect(s, q, e);
    } else if e.CloseInit? {
      CloseInitNeverEnabled(s, e.call);
    } else {
      BehindOther(s, q, e);
    }
  }

  /** When the client is behind everything that is or will be signed for it, nothing is accepted on it any more,
      whatever runs and however it interleaves, and the gap between the two sequences never shrinks. */
  lemma {:induction false} StaysBehind(s: State, q: int, events: seq<Event>)
    requires Inv(s) && Behind(s, q) && IsRun(s, events)
    ensures Stuck(s, Run(s, events)) && Behind(Run(s, events), q) && Inv(Run(s, events))
    decreases |events|
  {
    if events == [] {
    } else {
      BehindStep(s, q, events[0]);
      StepKeepsInv(s, events[0]);
      StaysBehind(Step(s, events[0]), q, events[1..]);
    }
  }

  /** Drift is absorbing: once, with at most one call running, more acknowledgements are committed although rejected
      than accepted broadcasts are lost, no later call on the client is accepted, however calls interleave from then
      on, and the gap between the two sequences never shrinks. */
  lemma DriftIsAbsorbing(s: State, events: seq<Event>)
    requires Inv(s) && Alone(s) && IsRun(s, events)
    requires s.row.connectionDetails.Some? && s.tally.rejectedAcks > s.tally.lost
    ensures Stuck(s, Run(s, events))
  {
    assert !AnyInFlight(s);
    forall i | i in s.calls && s.calls[i].Proving?
      ensures SignsFrom(s.calls[i], s.row.sequence)
    {
      assert Current(s.row, s.calls[i]);
    }
    StaysBehind(s, s.row.sequence, events);
  }

  // ----- which messages are accepted -----

  /** The received packet numbers are 1, 2, 3, ..., whatever was rejected or lost. */
  ghost predicate InOrder(s: State) {
    && s.peer.received == Numbers(ReceivedUpTo(s))
    && (MintInFlight(s) ==> s.tally.lostMints == 0)
  }

  lemma {:induction false} NumbersUpTo(n: int, k: int)
    ensures k in Numbers(n) <==> 1 <= k <= n
  {
    if n <= 0 {
    } else {
      NumbersUpTo(n - 1, k);
    }
  }

  /** Exactly when the counterparty accepts a message of the only running call: it was signed with the client's key, the
      two sequences are equal, and for a mint moreover no accepted mint was ever lost. */
  lemma AcceptedIff(s: State, i: nat, m: Message)
    requires Inv(s) && Alone(s) && InOrder(s) && i in s.calls && s.calls[i].Offers(m)
    ensures s.row.connectionDetails.Some? && Client(s) in s.peer.clients && Client(s) in s.peer.keys
    ensures s.peer.Accepts(m) <==>
      && Gap(s) == 0
      && m.Signer() == s.peer.keys[Client(s)]
      && (m.RecvPacket? ==> s.tally.lostMints == 0)
      && (m.Acknowledgement? ==> m.packetSequence !in s.peer.acknowledged)
  {
    PassesIff(s, i, m);
    assert CallOk(s.id, s.row, s.peer, s.calls[i]);
    assert Current(s.row, s.calls[i]);
    assert !MintInFlight(s);
    if m.RecvPacket? {
      NumbersUpTo(ReceivedUpTo(s), m.packetSequence);
    }
  }

  lemma BroadcastKeepsOrder(s: State, i: nat, willing: bool)
    requires Inv(s) && Alone(s) && InOrder(s) && CanBroadcast(s, i)
    ensures InOrder(DoBroadcast(s, i, willing))
  {
    var t, m := DoBroadcast(s, i, willing), s.calls[i].phase.message;
    assert CallOk(s.id, s.row, s.peer, s.calls[i]);
    assert Current(s.row, s.calls[i]);
    AcceptedIff(s, i, m);
    assert !MintInFlight(s);
    if t.calls[i].InFlight() && m.RecvPacket? {
      assert MintInFlight(t);
    } else {
      assert !MintInFlight(t);
    }
  }

  lemma ArriveKeepsOrder(s: State, i: nat, willing: bool)
    requires Inv(s) && Alone(s) && InOrder(s) && CanArrive(s, i)
    ensures InOrder(DoArrive(s, i, willing))
  {
    var m := s.calls[i].phase.message;
    assert CallOk(s.id, s.row, s.peer, s.calls[i]);
    assert Current(s.row, s.calls[i]);
    AcceptedIff(s, i, m);
    FlightSame(s, DoArrive(s, i, willing), i);
  }

  lemma BroadcastAckFrame(s: State, i: nat, willing: bool)
    requires CanBroadcastAck(s, i)
    ensures var t := DoBroadcastAck(s, i, willing);
      && t.row == s.row && t.tally == s.tally && t.peer.received == s.peer.received &&
        t.peer.acknowledged == s.peer.acknowledged
      && (i in t.calls ==> t.calls[i].Connecting?)
  {
  }

  lemma InTransactionFrame(s: State, e: Event)
    requires Enabled(s, e) && InTransaction(e)
    ensures var t := Step(s, e); t.tally == s.tally && t.peer == s.peer && t.row == s.row
  {
  }

  lemma CommitConnectFrame(s: State, i: nat)
    requires At(s, i, DETAILS_WRITTEN) && CallOk(s.id, s.row, s.peer, s.calls[i])
    ensures var t := DoCommitConnect(s, i);
      t.tally == s.tally && t.peer == s.peer && t.row.packetSequence == s.row.packetSequence
  {
  }

  lemma ConnectStepFrame(s: State, e: Event)
    requires Enabled(s, e) && OfConnect(e) && e.call in s.calls && CallOk(s.id, s.row, s.peer, s.calls[e.call])
    ensures var t := Step(s, e);
      t.tally == s.tally && t.peer.received == s.peer.received && t.row.packetSequence == s.row.packetSequence
  {
    match e
    case CreateSoloMachineClient(i, id) =>
    case OpenInit(i, id) =>
    case BroadcastAck(i, willing) => BroadcastAckFrame(s, i, willing);
    case CommitConnect(i) => CommitConnectFrame(s, i);
    case _ => InTransactionFrame(s, e);
  }

  /** Steps other than these neither count nor receive anything. */
  predicate Counts(e: Event) {
    e.Broadcast? || e.Arrive? || e.Commit? || e.Drop?
  }

  lemma OtherStepFrame(s: State, e: Event)
    requires Inv(s) && Enabled(s, e) && !Counts(e)
    ensures var t := Step(s, e);
      && t.tally == s.tally && t.peer.received == s.peer.received && t.row.packetSequence == s.row.packetSequence
      && MintInFlight(t) == MintInFlight(s)
  {
    if OfConnect(e) {
      ConnectStepConnects(s, e);
      assert CallOk(s.id, s.row, s.peer, s.calls[e.call]);
      ConnectStepFrame(s, e);
    } else if e.CloseInit? {
      CloseInitNeverEnabled(s, e.call);
    }
    StepTouchesOneCall(s, e);
    FlightSame(s, Step(s, e), e.call);
  }

  lemma CommitKeepsOrder(s: State, i: nat)
    requires Inv(s) && Alone(s) && InOrder(s) && CanCommit(s, i)
    ensures InOrder(DoCommit(s, i))
  {
    CommitCounts(s, i);
    assert CallOk(s.id, s.row, s.peer, s.calls[i]);
  }

  lemma DropKeepsOrder(s: State, i: nat)
    requires Inv(s) && InOrder(s) && i in s.calls
    ensures InOrder(DoDrop(s, i))
  {
    var t := DoDrop(s, i);
    if s.calls[i].InFlight() {
      assert !MintInFlight(t);
      assert MintInFlight(s) <==> s.calls[i].kind.Mint?;
    } else {
      FlightSame(s, t, i);
    }
  }

  lemma FrameKeepsOrder(s: State, t: State)
    requires InOrder(s) && t.tally == s.tally && t.peer.received == s.peer.received
    requires t.row.packetSequence == s.row.packetSequence && MintInFlight(t) == MintInFlight(s)
    ensures InOrder(t)
  {
  }

  lemma StepKeepsOrder(s: State, e: Event)
    requires Inv(s) && Alone(s) && InOrder(s) && Enabled(s, e)
    ensures InOrder(Step(s, e))
  {
    if e.Broadcast? {
      BroadcastKeepsOrder(s, e.call, e.willing);
    } else if e.Arrive? {
      ArriveKeepsOrder(s, e.call, e.willing);
    } else if e.Commit? {
      CommitKeepsOrder(s, e.call);
    } else if e.Drop? {
      DropKeepsOrder(s, e.call);
    } else {
      OtherStepFrame(s, e);
      FrameKeepsOrder(s, Step(s, e));
    }
  }

  lemma {:induction false} RunKeepsAlone(s: State, events: seq<Event>)
    requires Inv(s) && Alone(s) && InOrder(s) && IsRun(s, events) && OneAtATime(s, events)
    ensures Inv(Run(s, events)) && Alone(Run(s, events)) && InOrder(Run(s, events))
    decreases |events|
  {
    if events == [] {
    } else {
      StepKeepsInv(s, events[0]);
      StepKeepsAlone(s, events[0]);
      StepKeepsOrder(s, events[0]);
      RunKeepsAlone(Step(s, events[0]), events[1..]);
    }
  }

  /** Starting from a newly added chain and one call at a time: between calls the two sequences are equal as long as
      rejected and lost ones balance, in particular until the first of either. */
  lemma InSyncBetweenCalls(start: State, events: seq<Event>)
    requires Initial(start) && IsRun(start, events) && OneAtATime(start, events)
    requires var s := Run(start, events); s.calls == map[] && s.row.connectionDetails.Some?
    ensures var s := Run(start, events);
      Client(s) in s.peer.clients && (Gap(s) == 0 <==> s.tally.lost == s.tally.rejectedAcks)
  {
    InitialInv(start);
    RunKeepsAlone(start, events);
    GapBetweenCalls(Run(start, events));
  }

  // ----- reaching a state one call at a time -----

  ghost predicate ReachesAlone(s: State, t: State) {
    exists events: seq<Event> :: IsRun(s, events) && OneAtATime(s, events) && Run(s, events) == t
  }

  lemma OrderAppend(s: State, events: seq<Event>, more: seq<Event>)
    requires events != [] && IsRun(s, events) && OneAtATime(s, events) && IsRun(s, events + more)
    requires IsRun(Step(s, events[0]), events[1..] + more)
    requires OneAtATime(Step(s, events[0]), events[1..] + more)
    ensures OneAtATime(s, events + more)
  {
    var all := events + more;
    assert all[1..] == events[1..] + more && all[0] == events[0];
  }

  lemma {:induction false} AloneAppend(s: State, events: seq<Event>, more: seq<Event>)
    requires IsRun(s, events) && OneAtATime(s, events)
    requires IsRun(Run(s, events), more) && OneAtATime(Run(s, events), more)
    ensures IsRun(s, events + more) && OneAtATime(s, events + more)
    decreases |events|
  {
    RunAppend(s, events, more);
    if events == [] {
      assert events + more == more;
    } else {
      AloneAppend(Step(s, events[0]), events[1..], more);
      OrderAppend(s, events, more);
    }
  }

  lemma ReachesOn(s: State, t: State, u: State)
    requires ReachesAlone(s, t) && ReachesAlone(t, u)
    ensures ReachesAlone(s, u)
  {
    var events: seq<Event> :| IsRun(s, events) && OneAtATime(s, events) && Run(s, events) == t;
    var more: seq<Event> :| IsRun(t, more) && OneAtATime(t, more) && Run(t, more) == u;
    RunAppend(s, events, more);
    AloneAppend(s, events, more);
  }

  /** What one more call does to a chain that was added and has only made such calls is covered by everything that
      holds of reachable states and of calls made one at a time. */
  lemma CallsStayReachable(start: State, s: State, t: State)
    requires Initial(start) && ReachesAlone(start, s) && ReachesAlone(s, t)
    ensures ReachesAlone(start, t) && Reachable(t) && Inv(t) && Alone(t) && InOrder(t)
  {
    ReachesOn(start, s, t);
    var events: seq<Event> :| IsRun(start, events) && OneAtATime(start, events) && Run(start, events) == t;
    InitialInv(start);
    RunKeepsAlone(start, events);
  }

  lemma AloneStart(s: State)
    ensures ReachesAlone(s, s)
  {
    assert IsRun(s, []) && OneAtATime(s, []) && Run(s, []) == s;
  }

  lemma OneStep(t: State, e: Event)
    requires Enabled(t, e) && (e.call !in t.calls ==> t.calls == map[])
    ensures ReachesAlone(t, Step(t, e))
  {
    RunOne(t, e);
    var one := [e];
    assert one[0] == e && one[1..] == [];
    assert OneAtATime(Step(t, e), []) && OneAtATime(t, one);
  }

  lemma AloneStep(s: State, t: State, e: Event)
    requires ReachesAlone(s, t) && Enabled(t, e) && (e.call !in t.calls ==> t.calls == map[])
    ensures ReachesAlone(s, Step(t, e))
  {
    OneStep(t, e);
    ReachesOn(s, t, Step(t, e));
  }

  // ----- the steps of a call that runs alone -----

  /** The state with one running call. */
  function During(s: State, call: Call): State {
    s.(calls := map[0 := call])
  }

  function Idle(s: State): State {
    s.(calls := map[])
  }

  lemma AloneBegin(start: State, s: State, e: Event, call: Call)
    requires ReachesAlone(start, Idle(s)) && e.call == 0 && Enabled(Idle(s), e)
    requires Step(Idle(s), e) == Idle(s).With(0, call)
    ensures ReachesAlone(start, During(s, call))
  {
    AloneStep(start, Idle(s), e);
  }

  lemma AloneSign(start: State, s: State, kind: Kind, signer: string)
    requires ReachesAlone(start, During(s, Proving(kind, s.row, Ready)))
    requires s.row.packetSequence >= 0 && Signable(s, kind, s.row) && Bumped(s.row, kind).Readable()
    ensures ReachesAlone(start, During(s, Proving(kind, Bumped(s.row, kind), Signed(Outgoing(s, kind, s.row, signer)))))
  {
    var t := During(s, Proving(kind, s.row, Ready));
    AloneStep(start, t, Sign(0, signer));
    assert Step(t, Sign(0, signer)) ==
      During(s, Proving(kind, Bumped(s.row, kind), Signed(Outgoing(s, kind, s.row, signer))));
  }

  /** Reading the row and signing, with nothing in between. */
  lemma AloneBeginAndSign(s: State, e: Event, kind: Kind, signer: string)
    requires s.calls == map[] && e.call == 0 && Enabled(s, e) && Step(s, e) == s.With(0, Proving(kind, s.row, Ready))
    requires s.row.packetSequence >= 0 && Signable(s, kind, s.row) && Bumped(s.row, kind).Readable()
    ensures ReachesAlone(s, During(s, Proving(kind, Bumped(s.row, kind), Signed(Outgoing(s, kind, s.row, signer)))))
  {
    AloneStart(s);
    assert Idle(s) == s;
    AloneBegin(s, s, e, Proving(kind, s.row, Ready));
    AloneSign(s, s, kind, signer);
  }

  lemma AloneBroadcast(start: State, s: State, kind: Kind, chain: Chain, m: Message, willing: bool)
    requires ReachesAlone(start, During(s, Proving(kind, chain, Signed(m))))
    ensures ReachesAlone(start, During(s.(peer := s.peer.Deliver(m, willing)),
                                       Proving(kind, chain, Answered(willing && s.peer.Accepts(m)))))
  {
    var t := During(s, Proving(kind, chain, Signed(m)));
    assert DoBroadcast(t, 0, willing) ==
      During(s.(peer := s.peer.Deliver(m, willing)), Proving(kind, chain, Answered(willing && s.peer.Accepts(m))));
    AloneStep(start, t, Broadcast(0, willing));
  }

  lemma AloneCommitMint(start: State, s: State, chain: Chain)
    requires ReachesAlone(start, During(s, Proving(Mint, chain, Answered(true))))
    ensures ReachesAlone(start, During(s.(row := chain), Proving(Mint, chain, Recording)))
  {
    var t := During(s, Proving(Mint, chain, Answered(true)));
    AloneStep(start, t, Commit(0));
    assert Step(t, Commit(0)) == During(s.(row := chain), Proving(Mint, chain, Recording));
  }

  lemma AloneRecordMint(start: State, s: State, chain: Chain)
    requires ReachesAlone(start, During(s, Proving(Mint, chain, Recording)))
    ensures ReachesAlone(start, Idle(s.(history := s.history + 1)))
  {
    var t := During(s, Proving(Mint, chain, Recording));
    AloneStep(start, t, RecordMint(0));
    assert Step(t, RecordMint(0)) == Idle(s.(history := s.history + 1));
  }

  lemma AloneCommitSigner(start: State, s: State, newKey: string, chain: Chain)
    requires ReachesAlone(start, During(s, Proving(UpdateSigner(newKey), chain, Answered(true))))
    ensures ReachesAlone(start, Idle(s.(row := chain, keys := s.keys + {newKey})))
  {
    var t := During(s, Proving(UpdateSigner(newKey), chain, Answered(true)));
    AloneStep(start, t, Commit(0));
    assert Step(t, Commit(0)) == Idle(s.(row := chain, keys := s.keys + {newKey}));
  }

  lemma AloneCommitAck(start: State, s: State, details: Option<ConnectionDetails>, packets: seq<Packet>, chain: Chain,
                       accepted: bool)
    requires ReachesAlone(start, During(s, Proving(Acks(details, packets), chain, Answered(accepted)))) && packets != []
    ensures accepted ==>
      ReachesAlone(start, During(s.(row := chain, tally := s.tally.(acks := s.tally.acks + 1)),
                                 Proving(Acks(details, packets[1..]), chain, Ready)))
    ensures !accepted ==>
      ReachesAlone(start,
                   Idle(s.(row := chain,
                           tally := s.tally.(acks := s.tally.acks + 1, rejectedAcks := s.tally.rejectedAcks + 1))))
  {
    var t := During(s, Proving(Acks(details, packets), chain, Answered(accepted)));
    AloneStep(start, t, Commit(0));
    var u := s.(row := chain, tally := s.tally.(acks := s.tally.acks + 1));
    if accepted {
      assert Step(t, Commit(0)) == During(u, Proving(Acks(details, packets[1..]), chain, Ready));
    } else {
      assert Step(t, Commit(0)) ==
        Idle(s.(row := chain, tally := s.tally.(acks := s.tally.acks + 1, rejectedAcks := s.tally.rejectedAcks + 1)));
    }
  }

  lemma AloneDrop(start: State, s: State, call: Call)
    requires ReachesAlone(start, During(s, call))
    ensures ReachesAlone(start, Idle(s.(tally := s.tally.AfterDrop(call))))
  {
    AloneStep(start, During(s, call), Drop(0));
    assert Step(During(s, call), Drop(0)) == Idle(s.(tally := s.tally.AfterDrop(call)));
  }
}
