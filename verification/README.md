# Solo machine: what its protocol keeps

A Dafny model of the local half of an IBC solo machine, and proofs about it. The solo machine keeps one database row per
chain (two counters and a connection record), a table of records keyed by printed store paths, and a log of public keys.
Its service calls (`connect`, `mint`, `burn`, `update_signer`, `close_channel`) read the row, sign proofs at the row's
sequence, count the sequence up inside a database transaction, broadcast, and commit or roll back.

`dafny verify dfyconfig.toml` checks the whole project.

## Structure

| files | content |
|---|---|
| `Text`, `Identifier`, `Height`, `Paths` | decimal numbers, splitting, identifiers, chain ids, heights, store paths |
| `Records`, `Counterparty` | the rows and records kept here; the chain at the other end |
| `Machine`, `Invariant`, `Guarantees` | interleaved calls on one chain as a step machine, what every step keeps, what follows for all runs |
| `Sequential` | calls made one at a time: exactly when proofs are accepted; what drift does, with calls interleaved |
| `Packets` | packet numbers: exactly when a mint can repeat a received number, and what that leads to |
| `System` | all chains together over the one shared store |
| `Calls` | what each call sends, commits and leaves at the counterparty, as functions of where it starts and what the world decides |
| `Database`, `TransactionBuilder`, `Handshake`, `Service` | the calls as imperative code on tables and transactions, each proved to do exactly that and to be a run of the machine |
| `BitArray`, `Crypto` | compact bit arrays and nested threshold signatures |
| `Bytes`, `Commitment`, `Events` | packet commitments, and packets read back from events |

`Machine.Step` has one event per access to the database or to the counterparty, in the order in which the code makes
them; calls interleave freely and may be dropped between any two steps. `Service.IbcService` executes whole calls,
branch by branch, on a `Transaction` object. The two are tied together: the contract of every call in `Service` says
that the chain's state after the call is reached from the state before it by a run of the machine (`ReachesAlone`), so
what is proved about runs holds of the code that is written out. What the code cannot decide (whether a message can be
built, whether the counterparty is willing, whether its answer gets back, whether a commit succeeds, the identifiers
it gives, random characters, the latest block height) is a parameter of each call (`World`, `ConnectWorld`), and the
contract says exactly what is sent, what is committed, what the counterparty has afterwards and when the call
succeeds. Across chains, `IbcService.Valid()` carries the integrity of the shared store: every call of every chain
keeps the records of all connected chains in place and unshared.

## Assumptions about the environment

* An UPDATE of a chain row holds the row until its transaction commits or rolls back; a transaction sees its own writes;
  a dropped transaction leaves no trace. An INSERT fails on a key that is committed or pending in another transaction.
* The counterparty accepts a proof only if it was signed with the current key of the verifying client and at its
  current sequence, and then adds one to the sequence; an accepted header replaces the key (ICS-006, "State
  verification functions"). Which key a call signs with is up to its caller. It opens connection and channel ends as
  in ICS-003 and ICS-004 and gives every client, connection and channel a new identifier. Channels are unordered: a
  packet is refused when there is a receipt for its number, and an acknowledgement when the packet was acknowledged
  before (ICS-004, `recvPacket` and `acknowledgePacket`); `Peer.PassesClient` is the client's check alone,
  `Peer.Accepts` adds this one. The packets that `burn` acknowledges come from the counterparty's own events, so that
  their commitments are taken to be stored until then. It may refuse any message for reasons of its own, and any
  response may get lost.
* An answer is final: success means that the message was applied, failure that it never will be. A counterparty that
  answered a repeated packet with a successful no-op would let `mint` commit without the client moving, which is outside
  the model. Without an answer a message may still be applied after its call has given up (`TimeOut`, `Arrive`).
* Hashing and the verification of one signature are parameters.

## What was found

* **Packet numbers.** As long as no acknowledgement was committed although the counterparty rejected it, every mint that
  passes the client carries the number after the last received one, so that the receipt is never what refuses it
  (`Packets.PassingPacketIsNext`). From a connected state with nothing running, some interleaving of calls makes a mint
  pass the client with a number that was received before, and be refused for its receipt, if and only if the row's
  sequence is not ahead of the client's (`Packets.RepeatPossibleIff`). One way is two mints that read the row before and
  after a rejected acknowledgement (`Packets.RejectedAckRepeats`). Without further rejected acknowledgements it can
  happen if and only if the two sequences are equal and the row's next number was received before
  (`Packets.RepeatWithoutRejectionIff`).
* **Mints that can still get through.** From such a state another packet can be received if and only if the row is not
  ahead of the client and its next number is new (`Packets.MintPossibleIff`). With one call at a time a message is
  accepted exactly when the two sequences are equal, the signer is the client's key, and, for a mint, no accepted mint
  was ever lost (`Sequential.AcceptedIff`).
* **Lost broadcasts.** A mint that is accepted but not committed leaves its number in the row. If rejected
  acknowledgements later bring the client back in step, that number is signed again and refused, and so is every later
  mint, however calls interleave (`Packets.LostMintBlocks`, `Packets.BlockedForever`). A lost signer update leaves the
  client with a key that is not in the key log (`Packets.LostUpdateChangesKey`).
* **Drift.** `process_packets` commits before it looks at the response, so that a refused acknowledgement leaves the row
  one sequence ahead of the client (`Calls.AckRun.RefusedAckIsCommitted`). Once the client is behind everything that any
  running call has signed or read, and every message still on its way, nothing is ever accepted on it again, however
  later calls interleave (`Sequential.StaysBehind`). That is so whenever at most one call is running and more
  acknowledgements were committed although rejected than accepted broadcasts were lost (`Sequential.DriftIsAbsorbing`).
  The hypothesis is needed: a mint that was signed before the rejected acknowledgement and arrives after it is accepted
  and closes the gap (`Packets.LateMintEndsDrift`).
* **`connect`.** Although it reads the row before it holds it, it commits only if the row is still what it read: its
  second proof would otherwise not be at the sequence the new client expects. So details are set at most once.
* **`close_channel`.** It writes the blanked channel ids and then reads the row again in the same transaction, so it
  fails before the counterparty is asked, on every input; the store stays as it was.
* **Multi-signatures.** Nothing compares the number of set bits with the number of signatures. When all the signatures
  that are there verify, the index runs past the end of their list if and only if more bits are set
  (`Crypto.TooManyBitsFault`). Without looking at any signature's validity: the check stays within all its ranges,
  whatever the single signatures are worth, if and only if the shapes of key and signature are `Safe` together, a
  condition that can be evaluated before the check (`Crypto.NeverFaultsIffSafe`).

## Model

| member | source | states |
|---|---|---|
| Guarantees.SequenceConservation | solo-machine-core/src/service/ibc_service.rs:463-499 | In every reachable state of any number of interleaved calls, committed sequence + accepted broadcasts that are not (yet) committed = the counterparty client's sequence + acknowledgements committed although rejected; stale reads included |
| System.ChainsAreReachable | solo-machine-core/src/model/chain/chain.rs:223-248 | Every chain of every state reached from the empty database is in a reachable state of its own |
| Guarantees.PacketsAreReceivedInOrder | solo-machine-core/src/transaction_builder.rs:412-441 | Without a committed rejected acknowledgement the received packet numbers are 1, 2, 3, ...; the row's number is among them exactly when its mint was accepted and its commit is outstanding or lost |
| Packets.PassingPacketIsNext | solo-machine-core/src/transaction_builder.rs:790-798 | Without a committed rejected acknowledgement, every packet that passes the client, however old the row it was built from, carries the number after the last received one and is not refused for its receipt |
| Packets.RepeatPossibleIff | solo-machine-core/src/service/ibc_service.rs:773-796 | From a connected state with nothing running and room in the counters, some interleaving makes a mint pass the client with a received number if and only if the row's sequence is not ahead of the client's |
| Packets.RepeatWithoutRejectionIff | solo-machine-core/src/service/ibc_service.rs:463-499 | The same without further rejected acknowledgements: if and only if the sequences are equal and the row's next number was received before |
| Packets.MintPossibleIff | solo-machine-core/src/service/ibc_service.rs:463-499 | From such a state some interleaving gets another packet received if and only if the row is not ahead of the client and its next number is new |
| Packets.RejectedAckRepeats | solo-machine-core/src/service/ibc_service.rs:463-499 | Two mints that read the row before and after a rejected but committed acknowledgement carry the same number; the first is accepted, the second passes the client with a received number |
| Packets.BlockedForever | solo-machine-core/src/transaction_builder.rs:412-441 | While the row's number is a received one and the running mints carry it, no mint is accepted and the number stays, over any run of any calls |
| Packets.LostMintBlocks | solo-machine-core/src/service/ibc_service.rs:492-499 | A lost mint and a rejected acknowledgement lead from a client in step to a client in step that is blocked |
| Packets.LostUpdateChangesKey | solo-machine-core/src/service/ibc_service.rs:689-703 | A signer update that is accepted and lost leaves the client with a key that is not in the key log |
| Packets.LateMintEndsDrift | solo-machine-core/src/service/ibc_service.rs:492-499 | A mint without an answer that arrives after a rejected but committed acknowledgement is accepted, and the sequences are equal again |
| Packets.CloseChannelBlanks | solo-machine-core/src/service/ibc_service.rs:397-449 | From every connected state a `close_channel` gets as far as the blanked row, and cannot go on from there |
| Guarantees.LedgerBalances | solo-machine-core/src/model/chain/chain.rs:290-320 | sequence = packet sequence + 2 if connected + (keys - 1) + committed acknowledgements, both counters stay within 1 and 2^32 - 1, and the mint history is bounded by the packet counter |
| Guarantees.HandshakeAgreement | solo-machine-core/src/service/ibc_service.rs:228-301 | At every step of a running `connect`, a local connection or channel end that is Open has an Open counterpart, and the two name each other |
| Guarantees.ConnectCommits | solo-machine-core/src/service/ibc_service.rs:163-190 | A committing `connect` finds the row unconnected and exactly as it read it, adds two to the sequence, and records a client that is at the new sequence |
| Guarantees.OnlyCommitsChangeTheRow | solo-machine-core/src/service/ibc_service.rs:76-191 | No step but a commit changes the committed row or the keys |
| Guarantees.DetailsAreSetOnce | solo-machine-core/src/service/ibc_service.rs:94-120 | Over any run, connection details once set stay as they are, with both channel ids present |
| Guarantees.CloseChannelNeverCloses | solo-machine-core/src/service/ibc_service.rs:397-449 | In no run does a `close_channel` reach the request to the counterparty or its commit |
| Invariant.StepKeepsInv | solo-machine-core/src/service/ibc_service.rs:453-548 | Every step of every call keeps the invariant behind the statements above |
| Invariant.RunKeepsInv | solo-machine-core/src/service/ibc_service.rs:552-660 | So does every run |
| Invariant.AcceptedIsCurrent | solo-machine-core/src/transaction_builder.rs:790-798 | An accepted proof of any call, however old its reads, finds no other accepted proof uncommitted; without rejected acknowledgements it was signed at the committed sequence and with the committed packet number |
| Invariant.CloseInitNeverEnabled | solo-machine-core/src/transaction_builder.rs:320-329 | The row that is read again after blanking has no channel id to close |
| Invariant.VerifierIsConnected | solo-machine-core/src/transaction_builder.rs:412-441 | The client that verifies a message for the connected channel is the recorded client |
| Sequential.GapBetweenCalls | solo-machine-core/src/service/ibc_service.rs:789-796 | Between calls, local sequence minus client sequence is the rejected-but-committed acknowledgements minus the lost broadcasts |
| Sequential.PassesIff | solo-machine-core/src/service/ibc_service.rs:492-499 | With one call at a time, a message passes the client if and only if the two sequences are equal, which is when the two counts are, and it was signed with the client's key |
| Sequential.AcceptedIff | solo-machine-core/src/service/ibc_service.rs:492-499 | With one call at a time, exactly when a message is accepted: the sequences are equal, the signer is the client's key, for a mint no accepted mint was ever lost, and for an acknowledgement the packet was not acknowledged before |
| Sequential.StaysBehind | solo-machine-core/src/service/ibc_service.rs:773-796 | When the client's sequence is below everything that running calls have signed or read, over any continuation nothing is accepted on it, its key stays and the gap never shrinks |
| Sequential.DriftIsAbsorbing | solo-machine-core/src/service/ibc_service.rs:773-796 | Once, with at most one call running, committed rejected acknowledgements exceed the lost ones, over any continuation with calls interleaved in any way nothing is accepted on the client, the gap never shrinks and nothing more is lost |
| Sequential.InSyncBetweenCalls | solo-machine-core/src/service/ibc_service.rs:696-703 | From a newly added chain, the sequences are equal between calls if and only if the two counts balance |
| Sequential.CallsStayReachable | solo-machine-core/src/service/ibc_service.rs:773-796 | What a service call does to a chain that was added and has only made such calls is a reachable state, so the statements about reachable states apply to it |
| Calls.AckRun.RefusedAckIsCommitted | solo-machine-core/src/service/ibc_service.rs:789-796 | An acknowledgement that the counterparty refuses and answers is committed all the same: the row is one sequence further, the counterparty is as it was, and nothing else is sent |
| Calls.AckRun.WhereItEnds | solo-machine-core/src/service/ibc_service.rs:755-799 | When every broadcast is answered and every commit succeeds, the loop over the packets ends exactly after the last packet, before one that is off the channel, after the first refused one, or at the 32-bit limit |
| Calls.AckRun.OneOutcome | solo-machine-core/src/service/ibc_service.rs:726-800 | The committed acknowledgements are determined by the packets, the row, the counterparty and what the world decides |
| Calls.AckRun.AcksArePrefix | solo-machine-core/src/service/ibc_service.rs:726-800 | They are for the first packets of the list, signed by the signer of the call at s, s+1, ..., and only the last can have been refused |
| Calls.ConnectRun.OpensBothEnds | solo-machine-core/src/service/ibc_service.rs:76-191 | When every request of a `connect` is granted, the counterparty accepts both proofs: its two ends are open and name the local ones, and the client has the signer's key and is two sequences further |
| System.StoreIntegrity | solo-machine-core/src/service/ibc_service.rs:823-847 | In every state reached from the empty database, a connected chain points to a client record with its consensus state, an Open connection over it and an Open channel over that alone, all naming the open ends at its counterparty, and shares none of them with another chain |
| System.SystemStepKeepsInv | solo-machine-core/src/model/ibc.rs:130-170 | Every step of every chain keeps the invariant of the shared table: disjoint pending writes, intact and unshared records, records of the kind their path is for |
| System.StepsDoNotInterfere | solo-machine-core/src/model/ibc.rs:130-149 | A step on one chain leaves every other chain as it is, and no step changes or removes a committed record |
| System.AbortChangesNothing | solo-machine-core/src/service/ibc_service.rs:84-190 | A call can fail at any point, and that leaves the store, the row and the keys unchanged |
| System.TypedInsert | solo-machine-core/src/model/ibc.rs:28-128 | A record stored through a typed wrapper is never found through a path of another kind |
| Handshake.CommitEstablishes | solo-machine-core/src/service/ibc_service.rs:163-190 | What the open transaction of a finished `connect` has written amounts to `Established` |
| Handshake.ConnectCanSucceed | solo-machine-core/src/service/ibc_service.rs:76-191 | From every unconnected state with nothing running, room for two sequences and unused identifiers, a `connect` whose requests are granted commits and establishes exactly that connection |
| Handshake.SomeChainIsConnected | solo-machine-core/src/service/ibc_service.rs:76-191 | Connected states are reachable |
| Handshake.EstablishedKeepsIntact | solo-machine-core/src/service/ibc_service.rs:163-190 | Establishing a connection keeps every connected chain's records in place and unshared |
| Handshake.KindsApart | solo-machine-core/src/ibc/core/ics24_host/path.rs:123-213 | Client, consensus, connection and channel records are never stored under the same key, whatever the identifiers |
| Handshake.SignStep | solo-machine-core/src/transaction_builder.rs:237-285 | The proof is signed over the record as the open transaction sees it, at the sequence before the increment, and this is the machine's step |
| Handshake.BroadcastStep | solo-machine-core/src/service/ibc_service.rs:914-942 | A willing counterparty accepts each acknowledgement of a `connect` that runs alone, which takes the handshake one stage further; otherwise the call ends with nothing committed |
| Handshake.FinishSteps | solo-machine-core/src/service/ibc_service.rs:163-190 | Writing the details and committing are the machine's last two steps and establish the connection |
| Service.IbcService.Connect | solo-machine-core/src/service/ibc_service.rs:76-191 | Succeeds exactly if `ConnectRun.Commits` says so, in terms of the tables, the counterparty and the world; then the chain had no details, its sequence went up by two, it has exactly the details that were obtained, client and consensus state are stored at the revision of the chain id and the latest block, all records under keys that were new, nothing else changed, and the client at the counterparty has the signer's key and the row's sequence; otherwise the tables are unchanged; what is sent, by whom it is signed and what the counterparty has afterwards is exact; a run of the machine |
| Service.IbcService.CreateNewClient | solo-machine-core/src/service/ibc_service.rs:193-226 | Succeeds exactly if both clients could be created, the local one under keys that were new; the counterparty has the new client at the sequence that was read |
| Service.IbcService.CreateConnection | solo-machine-core/src/service/ibc_service.rs:228-301 | Succeeds exactly if both connection ends are open, and then the row in memory is one sequence further; what is sent and what the counterparty has afterwards is exact |
| Service.IbcService.OpenChannel | solo-machine-core/src/service/ibc_service.rs:304-375 | The same for the channel, with the client and the connection as they were |
| Service.IbcService.CreateSoloMachineClient | solo-machine-core/src/service/ibc_service.rs:803-821 | The counterparty has one client more, under an identifier that was new there, at the sequence that was read and with the signer's key, exactly if it was asked and willing; the call goes on exactly if the answer names an accepted identifier |
| Service.IbcService.CreateTendermintClient | solo-machine-core/src/service/ibc_service.rs:823-847 | Client and consensus state are inserted in the open transaction under a generated identifier, at the revision of the chain id and the latest block, exactly if their keys are new |
| Service.IbcService.ConnectionOpenInit | solo-machine-core/src/service/ibc_service.rs:849-881 | The counterparty has one connection end more, in state Init, naming both clients, exactly if it was asked and willing |
| Service.IbcService.ConnectionOpenTry | solo-machine-core/src/service/ibc_service.rs:883-911 | The local connection end is inserted in state TryOpen, naming the counterparty's, exactly if its key is not in the committed store |
| Service.IbcService.ConnectionOpenAck | solo-machine-core/src/service/ibc_service.rs:914-942 | The proof of the local end is sent as built, and succeeds exactly if the row can be counted up and a willing counterparty answers; then the row in memory is the incremented one |
| Service.IbcService.ConnectionOpenConfirm | solo-machine-core/src/service/ibc_service.rs:944-954 | The local connection end is found, set Open and otherwise kept; this never fails |
| Service.IbcService.ChannelOpenInit | solo-machine-core/src/service/ibc_service.rs:956-986 | The counterparty has one channel end more, in state Init, over the new connection, exactly if it was asked and willing |
| Service.IbcService.ChannelOpenTry | solo-machine-core/src/service/ibc_service.rs:988-1011 | The local channel end is inserted in state TryOpen, over the local connection, exactly if its key is not in the committed store |
| Service.IbcService.ChannelOpenAck | solo-machine-core/src/service/ibc_service.rs:1014-1043 | The proof of the local end is sent as built, and succeeds exactly if the row can be counted up and a willing counterparty answers; then the row in memory is the incremented one |
| Service.IbcService.ChannelOpenConfirm | solo-machine-core/src/service/ibc_service.rs:1045-1062 | The local channel end is found, set Open and otherwise kept; this never fails |
| Service.IbcService.CloseChannel | solo-machine-core/src/service/ibc_service.rs:378-449 | Fails on every input and changes neither the tables nor the counterparty |
| Service.IbcService.CloseChannelConfirm | solo-machine-core/src/service/ibc_service.rs:1099-1121 | Succeeds exactly if there is such a channel end and a row; inside the transaction the end is set Closed and the row gets the given details |
| Service.IbcService.ChannelCloseInit | solo-machine-core/src/service/ibc_service.rs:1065-1097 | The counterparty is asked exactly if the row, as the transaction sees it, names a channel; then it closes that one |
| Service.IbcService.Mint | solo-machine-core/src/service/ibc_service.rs:453-548 | The packet is sent, signed by the given signer under the row's counters, exactly if the chain is connected and the row can be counted up; the row with both counters one up is committed exactly if it was accepted, answered and the commit succeeds, and entered into the history after that; a run of the machine |
| Service.IbcService.UpdateSigner | solo-machine-core/src/service/ibc_service.rs:663-713 | The header is sent, signed by the given signer at the row's sequence, exactly if the key is new and the chain connected; key and counted row are committed exactly if it was accepted, answered and the commit succeeds, and then the client had the signer's key and has the new one; a failure after the commit is possible; a run of the machine |
| Service.IbcService.Burn | solo-machine-core/src/service/ibc_service.rs:552-660 | The packets that the response's events report are acknowledged exactly if the transfer was granted and the events can be read; the row ends as many sequences further as acknowledgements were committed, every message is signed by the given signer, and failed acknowledgements fail the call only if the warning cannot be sent; a run of the machine |
| Service.IbcService.ProcessPackets | solo-machine-core/src/service/ibc_service.rs:726-800 | Commits exactly the acknowledgements of `AckRun` and ends where it says; the row ends right after; the counterparty has received exactly what was sent; succeeds exactly if all were committed and accepted |
| Service.IbcService.AckPacket | solo-machine-core/src/service/ibc_service.rs:755-799 | One packet: signed and sent exactly if it is on the channel and the row can be counted up; committed exactly if it was answered and the commit succeeds, whatever the response says |
| Service.IbcService.AddChain | solo-machine-core/src/service/chain_service.rs:42-71 | Adds an accepted and unused chain id with both counters at 1 and a single key, which is an initial state of the machine, exactly if the commit succeeds, and otherwise changes nothing; a failure after the commit is possible |
| Database.Transaction.AddChain | solo-machine-core/src/model/chain/chain.rs:223-248 | INSERT of a row with the column defaults, refused for a known id |
| Database.Transaction.GetChain | solo-machine-core/src/model/chain/chain.rs:251-262 | The row, unless it is missing or a counter does not fit 32 bits |
| Database.Transaction.AddConnectionDetails | solo-machine-core/src/model/chain/chain.rs:265-288 | UPDATE of the details alone, refused without a row |
| Database.Transaction.IncrementSequence | solo-machine-core/src/model/chain/chain.rs:290-304 | The row is counted up even when its conversion then fails |
| Database.Transaction.IncrementPacketSequence | solo-machine-core/src/model/chain/chain.rs:306-320 | The same for the packet counter |
| Database.Transaction.AddChainKey | solo-machine-core/src/model/chain/chain_keys.rs:60-80 | INSERT into the key log, refused exactly for a pair that is there |
| Database.Transaction.Add | solo-machine-core/src/model/ibc.rs:130-149 | INSERT succeeds exactly when the path finds nothing; afterwards every other valid path finds what it found |
| Database.Transaction.Update | solo-machine-core/src/model/ibc.rs:151-170 | UPDATE succeeds exactly when the path finds something; every other valid path finds what it found |
| Database.Transaction.Get | solo-machine-core/src/model/ibc.rs:172-183 | What the path finds |
| Database.StoreAtOnePath | solo-machine-core/src/model/ibc.rs:130-170 | A record stored under one valid path is seen under that path and under no other |
| TransactionBuilder.MsgTokenSend | solo-machine-core/src/transaction_builder.rs:373-451 | The packet and its proof carry the counters of the chain passed in; the row and the chain handed back have both one up; succeeds exactly with both channel ids and room in both counters |
| TransactionBuilder.MsgUpdateSoloMachineClient | solo-machine-core/src/transaction_builder.rs:118-172 | Signed with the old key at the sequence of the chain passed in, naming the new key, sent to the client of the updated row |
| TransactionBuilder.MsgTokenReceiveAck | solo-machine-core/src/transaction_builder.rs:498-530 | Signed at the sequence of the chain passed in, under the chain's own channel and the packet's number; the row is counted up once; succeeds exactly with a channel and room in the counter |
| TransactionBuilder.MsgConnectionOpenAck | solo-machine-core/src/transaction_builder.rs:237-285 | Needs the client record; signs the connection record found in the transaction; the row is counted up once |
| TransactionBuilder.MsgChannelOpenAck | solo-machine-core/src/transaction_builder.rs:338-370 | Signs the channel record found in the transaction; the row is counted up once |
| Paths.KeyInjective | solo-machine-core/src/ibc/core/ics24_host/path.rs:123-213 | Two store paths over valid arguments print alike only if they are the same path: no kind collides with another, and none with itself |
| Paths.KeyText | solo-machine-core/src/ibc/core/ics24_host/path.rs:123-213 | The printed text of every kind of store path, written out |
| Paths.DenomTraceInjective | solo-machine-core/src/ibc/core/ics24_host/path.rs:192-201 | Denomination traces are injective |
| Paths.SignedKey | solo-machine-core/src/transaction_builder.rs:795-804 | The path that a proof is signed for, behind the "ibc" prefix, is the key under which the record is stored |
| Paths.TrimCuts | solo-machine-core/src/ibc/core/ics24_host/path.rs:26-30 | Trimming cuts blank text off both ends, and as much of it as there is |
| Paths.Path.ApplyPrefix | solo-machine-core/src/ibc/core/ics24_host/path.rs:26-30 | Puts the trimmed prefix in front; a blank one is refused and changes nothing |
| Identifier.ParseIdAccepts | solo-machine-core/src/ibc/core/ics24_host/identifier.rs:192-213 | Acceptance is the character class and the length, no more; accepted text comes back unchanged and has no separator |
| Identifier.IdentifierErrors | solo-machine-core/src/ibc/core/ics24_host/identifier.rs:192-213 | Blank text, text with a separator and long text of allowed characters are refused with an error of their own |
| Identifier.IdentifierLengths | solo-machine-core/src/ibc/core/ics24_host/identifier.rs:67-82 | The lengths of client, connection, channel, port and chain identifiers |
| Identifier.Generate | solo-machine-core/src/ibc/core/ics24_host/identifier.rs:158-168 | Prefix, dash and the random characters, exactly when the prefix has identifier characters and leaves room |
| Identifier.GeneratedIds | solo-machine-core/src/ibc/core/ics24_host/identifier.rs:158-168 | With four random letters or digits generating never fails, and the results are long enough for their kinds |
| Identifier.MatchIsUnique | solo-machine-core/src/ibc/core/ics24_host/identifier.rs:13 | The version pattern can match a text in one way only |
| Identifier.FormatIff | solo-machine-core/src/ibc/core/ics24_host/identifier.rs:13 | A text that ends in a dash and digits matches exactly if two or more characters not ending in a dash come before and the digits do not start with 0; digits alone never match |
| Identifier.ChainIdVersion | solo-machine-core/src/ibc/core/ics24_host/identifier.rs:100-121 | The version of an accepted chain id is the number that the pattern's trailing group captures, 0 beyond 64 bits and 0 without a match |
| Identifier.ChainIdRoundTrip | solo-machine-core/src/ibc/core/ics24_host/identifier.rs:100-121 | Name, dash and decimal number parse back to that number, for every number from 1 to 2^64 - 1 and every name of two or more allowed characters not ending in a dash, up to 64 characters in all |
| Height.PrintParse | solo-machine-core/src/ibc/core/ics02_client/height.rs:69-90 | Parsing a printed height returns it, for all 64-bit pairs |
| Height.PrintExample | solo-machine-core/src/ibc/core/ics02_client/height.rs:69-71 | The revision number comes first, then a dash |
| Height.PrintInjective | solo-machine-core/src/ibc/core/ics02_client/height.rs:69-71 | Different heights print differently |
| Height.ParsePrint | solo-machine-core/src/ibc/core/ics02_client/height.rs:78-90 | Printing what was parsed gives the input back exactly when both numbers were written canonically, and parsing that again changes nothing |
| Height.CmpTotalOrder | solo-machine-core/src/ibc/core/ics02_client/height.rs:61-67 | Comparison decides equality, is antisymmetric and transitive, and orders by revision number first and height second |
| Height.AddSub | solo-machine-core/src/ibc/core/ics02_client/height.rs:41-59 | Checked addition adds to the height and fails exactly on overflow, is monotone and is undone by checked subtraction, which fails exactly below zero |
| Text.ParseDecimal | solo-machine-core/src/ibc/core/ics02_client/height.rs:78-90 | Reading a printed number gives it back exactly if it fits 64 bits |
| Text.ParseExamples | solo-machine-core/src/ibc/core/ics02_client/height.rs:78-90 | Leading zeros and a plus sign are read, blanks, a minus sign and nothing are not |
| Text.DecimalParse | solo-machine-core/src/ibc/core/ics02_client/height.rs:78-90 | Printing a number that was read gives the text back exactly if that was canonical |
| Text.SplitJoin | solo-machine-core/src/ibc/core/ics24_host/path.rs:123-213 | Splitting at the separator recovers pieces that are free of it |
| Text.JoinSplit | solo-machine-core/src/ibc/core/ics24_host/identifier.rs:107-111 | Joining the split pieces gives the text back |
| BitArray.GetIsIndexing | solo-machine-core/src/cosmos/bit_array.rs:32-38 | Wherever a position has a byte, reading it through the mask is indexing the unpacked list, and false beyond the length |
| BitArray.HighestBitFirst | solo-machine-core/src/cosmos/bit_array.rs:24-38 | The highest bit of a byte is its first position, and the last byte counts as many positions as there are extra bits |
| BitArray.NumTrueBitsBefore | solo-machine-core/src/cosmos/bit_array.rs:40-50 | For every array: stops exactly when the length underflows or a position below it has no byte, and otherwise counts the set bits of that prefix of the unpacked list |
| Crypto.VerifySignature | solo-machine-core/src/cosmos/crypto.rs:115-151 | Accepts exactly what `Accepts` says and leaves its ranges exactly when `Faults` says |
| Crypto.VerifyMultiSignature | solo-machine-core/src/cosmos/crypto/multisig.rs:23-58 | The same for threshold keys, checks in the source's order |
| Crypto.VerifyPositions | solo-machine-core/src/cosmos/crypto/multisig.rs:60-75 | The loop: accepts exactly if every set position accepts the signature at its rank, and leaves its ranges exactly if a set position is reached that does |
| Crypto.AcceptedIsAuthorised | solo-machine-core/src/cosmos/crypto/multisig.rs:60-75 | Soundness at every level of nesting: at least `threshold` distinct key positions each verified a signature of their own |
| Crypto.AcceptedIffProperlySigned | solo-machine-core/src/cosmos/crypto/multisig.rs:23-78 | Accepted exactly if properly signed, stated over the raw fields at every level: a bit for every key, at least `threshold` of them set, a signature for every set bit and no more than keys, each of them a proper one of the key at its bit |
| Crypto.SignaturesSuffice | solo-machine-core/src/cosmos/crypto/multisig.rs:60-75 | Acceptance never uses more signatures than there are |
| Crypto.WellFormedNeverFaults | solo-machine-core/src/cosmos/crypto/multisig.rs:60-75 | With readable arrays that set no more bits than there are signatures, at every level, no index leaves its range, for any key |
| Crypto.TooManyBitsFault | solo-machine-core/src/cosmos/crypto/multisig.rs:60-75 | When all the signatures that are there verify, the index leaves the list if and only if more bits are set than there are signatures |
| Crypto.AcceptedNeverFaults | solo-machine-core/src/cosmos/crypto/multisig.rs:60-75 | An accepted input has stayed within all ranges at every level |
| Crypto.NeverFaultsIffSafe | solo-machine-core/src/cosmos/crypto/multisig.rs:23-78 | The check stays within all ranges for every outcome of the single signatures if and only if key and signature are `Safe` in shape |
| Commitment.CommitmentBytes | solo-machine-core/src/ibc/core/ics04_channel/packet.rs:10-24 | Fails exactly without a timeout height, and otherwise hashes 56 bytes with the fields where `PreimageLayout` has them |
| Commitment.PreimageLayout | solo-machine-core/src/ibc/core/ics04_channel/packet.rs:17-21 | The bytes are the timeout timestamp, the revision number and the revision height, 8 each, and the hash of the data, in this order |
| Commitment.PreimageDetermines | solo-machine-core/src/ibc/core/ics04_channel/packet.rs:17-21 | The preimage has 56 bytes, and two packets have the same one exactly when timestamp, both height fields and data hash agree |
| Bytes.BigEndianInjective | solo-machine-core/src/ibc/core/ics04_channel/packet.rs:19-21 | Eight big-endian bytes determine a 64-bit number |
| Bytes.BigEndianOrder | solo-machine-core/src/ibc/core/ics04_channel/packet.rs:18-20 | The lowest byte comes last |
| Bytes.HexRoundTrip | solo-machine-core/src/service/ibc_service.rs:1152-1205 | Decoding encoded bytes gives them back |
| Bytes.HexExamples | solo-machine-core/src/service/ibc_service.rs:1152-1205 | The high digit comes first; both cases are read, an odd length or another character is not |
| Events.GetAttribute | solo-machine-core/src/service/ibc_service.rs:1242-1250 | The value of the first tag with the key, or an error |
| Events.ExtractAttribute | solo-machine-core/src/service/ibc_service.rs:1223-1240 | Succeeds exactly when there is an event of the kind and all of them carry the key; returns the one value that the last of them carries |
| Events.LastTagWins | solo-machine-core/src/service/ibc_service.rs:1152-1205 | The last tag with a key decides its value |
| Events.ExtractPackets | solo-machine-core/src/service/ibc_service.rs:1152-1205 | The packets of the `send_packet` events in order, or the first error |
| Events.PacketOfIff | solo-machine-core/src/service/ibc_service.rs:1152-1205 | An event gives a packet exactly if its last tags spell out that packet's eight fields |
| Events.ExtractedIffDescribed | solo-machine-core/src/service/ibc_service.rs:1152-1205 | A list of packets is extracted exactly if it describes the `send_packet` events one by one, in order |
| Events.ReportedPacketsAreExtracted | solo-machine-core/src/service/ibc_service.rs:1152-1205 | Whatever packets an event list reports, exactly these are extracted, in order |

## Left out

- RPC and gRPC clients, the light client, account, staking and balance queries: a response is an arbitrary acceptance,
  refusal or loss; the latest block height that `connect` stores and the events that `burn` reads are parameters.
- Command line, server, event notifications and logging.
- SHA-256, bech32, ECDSA and ed25519: parameters; nothing is claimed about collisions.
- Protobuf, JSON and type URLs: records are kept as values. The data that is signed for packet commitments and
  acknowledgements is recomputed by the verifier and not part of a proof here; versions, ordering and prefixes in
  connection and channel ends are constants and left out.
- SQL beyond the assumptions above: isolation is per step in the machine; an error of the database is a dropped call.
- Memo, fee, gas, timestamps, account sequence, node id and configuration other than the port.
- The operations history: only the number of mint entries is kept, and entries for `burn` are not.
- Reconnecting an established chain stops at unfinished code in the source and is a failure here, with `force` or not.
- A panic and an error return are the same dropped call; only in the signature check they are told apart.
- `close_channel` in the machine: its pending change of the local channel record is not a pending write of the machine
  or of the shared store, as it never commits; `Service.IbcService.CloseChannel` does carry it out on its transaction.
- How the counterparty chooses identifiers: they are arbitrary new ones.
- Crypto.VerifySignature: the public key encoding and the address of a key are not modelled.
- BitArray.NumTrueBitsBefore: positions are unbounded numbers, so the machine word's width in shifts and indices is not
  modelled; a length that underflows is a fault, as in a build with overflow checks.
- A handshake message of an abandoned `connect` that arrives late: it reaches only objects that nobody else uses.
- In `Service` every message is decided when its call ends; messages that arrive later are in `Machine` only.
- The order in which `service` interleaves several calls is in `Machine` only; `Service` executes one call at a time.
