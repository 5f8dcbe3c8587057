# Epidemic replication: a verified model

The system keeps one integer replicated on a core layer of nodes and passes snapshots of it
down to two further layers. This project models its three algorithmic parts and proves what
they are for.

**The core layer and the layers below it** (`Protocol` and everything built on it). A write
(SUM, SUBSTRACT, MULTIPLY; they do not commute) takes Lamport's mutual exclusion over direct
clocks, is sent to every core peer, applied locally, answered by one READY per peer, and then
the section is released. Every tenth write each core node sends SET to its layer-one nodes,
which periodically pass what they hold on to layer two. The model is a state machine over any
number of nodes, any trees below the core and any scripts: per-node data members, one FIFO
channel per ordered pair of nodes, and one action per line group that others can observe. The
broadcasts of REQUEST, of the write and of RELEASE are one action per `SendMsg`, so messages
arrive between them. `Nodes` holds the classes with their fields and loops; each method is tied
to the function the state machine uses, and `Steps` shows that the broadcasting loops are runs
of its actions. `Mutex`, `Replication`, `Log` and `Epidemic` hold one inductive invariant each,
`System` puts them together over runs, and `Guarantees`, `Snapshots` and `Progress` say what
follows.

**The WebSocket client** (`Frames`, `Endpoint`, `Outgoing`, `Polling`, `WebSocket`, `Wire`), sections 5.2 to 5.5 of
RFC 6455: the byte format with its three length forms and masking, the decoder that works on
partial input, fragmentation, PING, PONG and CLOSE, and the send buffer. `WebSocket` holds the
class with its buffers and loops; `Wire` says in literal bytes what the format and the opcodes are,
with the examples of section 5.7; the other modules hold the functions it is proved against and
what is true of them for all byte streams.

**The script reader** (`Script`): tokens, header, entries, with 32-bit number reading.

## What the core theorems assume, and what fails without it

- *The request broadcast.* `requestCS` chooses its ticks, queues them and sends them holding no
  lock against the message callbacks (`src/mutex/LamportMutex.cpp:20-23`). If the REQUEST of a
  peer is handled in between, the ACK leaves with a later stamp and before the node's own
  REQUEST. `Protocol.Gate` says that this does not happen, and the theorems about `Run` and
  `Reachable` assume it; treating `requestCS` up to its wait as one step implies it
  (`System.AtomicRequestsAreGated`). Without it two nodes can be in the section together:
  `RequestRace` names two nodes and two scripts for which they are, and `RaceCondition` proves that, for any core
  and any scripts of reads and writes, such a run exists exactly when two core nodes have a
  write in their scripts.
- *Threads.* Every core node runs its script on a thread of its own. `Controller` hands scripts
  over from the file watcher's callback (`src/Controller.cpp:65-111`); how many such callbacks run
  at once is up to efsw, which is not part of this model, so the model allows any number.
- *Callbacks.* The callbacks of one node run one at a time (`src/nodes/MsgHandler.cpp:46-48`).
- *Topology.* All connections are up, the core is fully connected and the layers below form a
  forest in which nobody has two parents, as wired at `src/Controller.cpp:52-55`. `TwoParents`
  shows a layer-two node with two parents going back to an older snapshot.
- *Scripts.* Core scripts consist of reads and the three kinds of write, which is all the script
  reader produces (`Script.OnlyReadsAndWrites`); completion (`Guarantees.StuckIffFinished`) and
  `RaceCondition.RacePossibleExactlyWhen` ask for this, safety does not. Read-only scripts are
  expected to contain only reads, as the repository's `README.md:20` says; the code does not
  check it, and `Script.MarkIsKeptExactlyWhen` says for which texts the mark is kept.
- *RELEASE stamps.* `releaseCS` reads its clock once and then sends
  (`src/mutex/LamportMutex.cpp:33`), so the ACK of a REQUEST handled in between carries a later
  stamp and may travel ahead of the RELEASE. What mutual exclusion needs holds all the same: stamps
  are at most the sender's clock and each REQUEST is above every stamp before it
  (`Mutex.MutexStep`). That stamps also never decrease, and are at least the receiver's record, is
  proved for every run in which no REQUEST is handled in the middle of the release towards its
  sender (`StampOrder.CalmRunsKeepOrder`); stamps out of order are reachable exactly when two core
  nodes have a write in their scripts (`ReleaseRace.OvertakingPossibleExactlyWhen`).
- *Wake-ups.* Handlers change what a wait tests, and notify, without holding the mutex of the wait
  (`src/mutex/LamportMutex.cpp:24-25` and `:101`, `src/nodes/CoreNode.cpp:65-66` and `:87-88`), so a
  notification can fall between the test and the block and be lost. `Guarantees.StuckIffFinished`,
  `Guarantees.WorkCanComplete` and `Progress.Termination` presume that no wake-up is lost: a guard
  that holds can be taken.

## Model

| member | source | states |
|---|---|---|
| Transactions.Transaction.ExecuteTransaction | src/nodes/Node.cpp:48-70 | each type changes the replica as its arithmetic says; a READ shows the value and leaves it |
| Transactions.Transaction.Add | src/transactions/Transaction.cpp:11-15 | the version grows by the value |
| Transactions.Transaction.Substract | src/transactions/Transaction.cpp:17-21 | the version shrinks by the value |
| Transactions.Transaction.Multiply | src/transactions/Transaction.cpp:23-27 | the version is multiplied by the value |
| Transactions.FoldLaws | src/nodes/Node.cpp:51-69 | what one more transaction of each type does to the value of any log, in arithmetic |
| Transactions.SubstractUndoesSum | src/transactions/Transaction.cpp:11-21 | a SUBSTRACT next to a SUM of the same value cancels it anywhere in a log |
| Transactions.CommuteExactlyWhen | src/transactions/Transaction.cpp:11-27 | two writes commute on every replica if and only if both or neither multiply, or one is trivial to the other |
| Transactions.WritesDoNotCommute | src/transactions/Transaction.cpp:11-27 | two writes in two orders leave two values, so replicas must agree on the order |
| Nodes.DirectClock.Tick | src/mutex/DirectClock.h:14 | only the node's own entry moves, by one |
| Nodes.DirectClock.RecieveAction | src/mutex/DirectClock.h:17-20 | the sender's entry becomes the larger of the two, the own entry one more than the larger of itself and the sent value, all others stay |
| Nodes.DirectClock.GetValue | src/mutex/DirectClock.h:13 | the recorded ticks of a node, 0 if none |
| Nodes.MsgHandler.SendMsg | src/nodes/MsgHandler.cpp:89-100 | the message joins the end of that one channel, or is dropped when there is no socket |
| Nodes.MsgHandler.BroadcastMsg | src/nodes/MsgHandler.cpp:110-120 | each connected node in the table of the layer gets one message at the end of its channel, no other channel changes, and an unknown layer sends nothing |
| Nodes.LamportMutex.RequestCS | src/mutex/LamportMutex.cpp:17-23 | the new ticks are queued as the own request and sent to all core peers |
| Nodes.LamportMutex.ReleaseCS | src/mutex/LamportMutex.cpp:29-34 | the own request, and no other, leaves the queue and a RELEASE goes to all core peers |
| Nodes.LamportMutex.OkeyCS | src/mutex/LamportMutex.cpp:39-60 | true exactly when the own (ticks, id) comes before the queued request and the recorded clock value of every node in the core table |
| Nodes.LamportMutex.HandleMsg | src/mutex/LamportMutex.cpp:81-102 | clock, queue and the ACK after each kind of message |
| Nodes.CoreNode.HandleMsg | src/nodes/CoreNode.cpp:80-110 | state and traffic are those of the state machine's Deliver action, for every tag; in particular one READY or ACK to the sender, and a SET to each child at the tenth write |
| Nodes.CoreNode.ExecuteRead | src/nodes/CoreNode.cpp:40-43 | a READ shows the replica and changes nothing |
| Nodes.CoreNode.RequestSection | src/nodes/CoreNode.cpp:46 | the section is requested with exactly the state and messages of Start and SendRequest |
| Nodes.CoreNode.MayEnter | src/mutex/LamportMutex.cpp:25 | the wait in requestCS ends exactly when the guard of Enter holds |
| Nodes.CoreNode.SendToPeers | src/nodes/CoreNode.cpp:49-50 | every core peer is sent the write once and no data member changes |
| Nodes.CoreNode.ApplyLocally | src/nodes/CoreNode.cpp:53 | the local apply changes the version only |
| Nodes.CoreNode.CountWrite | src/nodes/CoreNode.cpp:56-62 | the counter runs modulo ten and a SET with the current version goes out when it wraps |
| Nodes.CoreNode.CollectReadies | src/nodes/CoreNode.cpp:65-67 | passes exactly when as many READYs have come as there are peers, and resets the count |
| Nodes.CoreNode.ReleaseSection | src/nodes/CoreNode.cpp:70 | the section is left with exactly the state and messages of Leave and SendRelease |
| Nodes.LowerNode.Tick | src/nodes/LayerOneNode.cpp:21-28 | one turn of the loop sends the held version to every connected layer-two node |
| Nodes.LowerNode.HandleMsg | src/nodes/LayerOneNode.cpp:32-45 | a SET overwrites the version, a READ shows it, everything else leaves it (layer two is the same) |
| Steps.RequestLoop | src/mutex/LamportMutex.cpp:23 | the REQUEST broadcast is the run of its single sends |
| Steps.WriteLoop | src/nodes/CoreNode.cpp:49-50 | the write loop is the run of its single sends |
| Steps.ReleaseLoop | src/mutex/LamportMutex.cpp:33 | the RELEASE broadcast is the run of its single sends |
| Mutex.MutexStep | src/mutex/LamportMutex.cpp:17-102 | every step keeps the clock, queue and acknowledgement invariant for all pairs of nodes and messages in flight |
| Mutex.OkeyIsLeast | src/mutex/LamportMutex.cpp:39-60 | whoever passes okeyCS has the least (ticks, id) of all outstanding requests, in flight ones included |
| Mutex.HandledNode | src/mutex/LamportMutex.cpp:81-102 | okeyCS, once true for the node in the section, is not undone by any message |
| Mutex.DrainedSource | src/mutex/LamportMutex.cpp:88-97 | a request a peer will end up with is in its queue or on the channel with the same ticks |
| Guarantees.AtMostOneWriter | src/mutex/LamportMutex.cpp:17-60 | in every reachable state at most one node is in its section and okeyCS holds there |
| RequestRace.RaceBreaksMutualExclusion | src/mutex/LamportMutex.cpp:20-23 | a permitted run of two nodes, interrupted between choosing ticks and sending, ends with both in the section |
| RequestRace.OnlyTheRace | src/mutex/LamportMutex.cpp:20-23 | every run that breaks mutual exclusion contains such an interruption |
| StampOrder.CalmRunsKeepOrder | src/mutex/DirectClock.h:14-20 | in every run without a REQUEST handled amid the release to its sender, stamps on each channel never decrease, are at least the receiver's record and at most the sender's clock |
| StampOrder.StampStep | src/mutex/LamportMutex.cpp:17-102 | every such step keeps the stamps of all channels in order |
| ReleaseRace.ReleaseOvertaken | src/mutex/LamportMutex.cpp:29-34 | with two writers a reachable channel carries an ACK and behind it a RELEASE with fewer ticks |
| ReleaseRace.OvertakingPossibleExactlyWhen | src/mutex/LamportMutex.cpp:29-34 | stamps out of order are reachable if and only if two core nodes have a write in their scripts |
| ReleaseRace.Drive | src/nodes/CoreNode.cpp:45-70 | a node alone in asking for the section reaches its release, with nothing left in flight |
| RaceCondition.RacePossibleExactlyWhen | src/mutex/LamportMutex.cpp:17-33 | unprotected, mutual exclusion can fail if and only if two core nodes have a write in their scripts |
| RaceCondition.AskAround | src/mutex/LamportMutex.cpp:81-92 | asking the peers in turn raises every recorded clock above the request and leaves it queued everywhere |
| System.AtomicRequestsAreGated | src/mutex/LamportMutex.cpp:20-23 | with requestCS up to its wait as one step no run has the race |
| Replication.RepStep | src/nodes/CoreNode.cpp:38-110 | every step keeps each replica at the log or one write short, and accounts for each peer's copy of the write |
| Guarantees.OneLog | src/nodes/CoreNode.cpp:38-110 | each replica is the fold of a prefix of one log, at most one write behind; any two are prefixes of each other; all equal when nobody is in the section |
| Guarantees.ReplicaIsPrefix | src/nodes/CoreNode.cpp:46-70 | how much of the log a replica has applied, at any moment |
| Guarantees.LogIsRequestOrder | src/mutex/LamportMutex.cpp:76-79 | the log is in strict lexicographic (ticks, id) order of the requests, and each node's part is a prefix of its script's writes |
| Guarantees.LaterRequestsHaveMoreTicks | src/mutex/LamportMutex.cpp:20-25 | a request made now gets more ticks than every write already granted |
| Guarantees.ReadyAccounting | src/nodes/CoreNode.cpp:64-67 | copies unsent, copies and READYs in flight and m_FinishedNodes add up to the number of peers during a write and to zero outside it |
| Guarantees.ReadsAreFresh | src/nodes/CoreNode.cpp:40-43 | after a write has returned, any core replica at any later time, mid-write or not, includes it and misses at most the write in progress, and a READ shows the replica |
| Guarantees.StuckIffFinished | src/nodes/CoreNode.cpp:45-70 | the core cannot move exactly when all scripts are done and all channels are empty |
| Guarantees.FinishedIsComplete | src/Controller.cpp:90-91 | then every replica holds one interleaving of all writes of all core scripts, and of no others |
| Guarantees.WorkCanComplete | src/nodes/CoreNode.cpp:45-70 | from every reachable state some run finishes all work |
| Progress.FindStep | src/mutex/LamportMutex.cpp:17-60 | with work left some core step is possible without the race |
| Progress.LeastMayEnter | src/mutex/LamportMutex.cpp:39-60 | with nothing in flight the waiting node with the least (ticks, id) passes okeyCS |
| Progress.CoreStepUsesBudget | src/nodes/CoreNode.cpp:38-110 | each core step lowers a weighted sum of phases, scripts and messages in flight |
| Progress.Termination | src/nodes/CoreNode.cpp:38-110 | no run, however scheduled, has more than 8n+7 core steps per script entry in a core of n |
| Epidemic.EpiStep | src/nodes/LayerOneNode.cpp:18-45 | every step keeps snapshots, streams and rounds in order |
| Snapshots.HoldsSnapshot | src/nodes/LayerTwoNode.cpp:19-32 | every node below the core holds the fold of the first 10r writes, for its round r |
| Snapshots.CarriesSnapshots | src/nodes/LayerOneNode.cpp:18-30 | so does every SET in flight, in order of rounds |
| Snapshots.ChildNeverAhead | src/nodes/CoreNode.cpp:56-62 | neither what a child holds nor what is in flight to it is ahead of its parent |
| TwoParents.SnapshotGoesBack | src/Controller.cpp:52-55 | wired otherwise, with two parents, a node holds the first ten writes and later none of them |
| Snapshots.RoundsGrowAlong | src/nodes/LayerTwoNode.cpp:19-32 | the round a node holds never goes back along a run |
| Snapshots.WriteCountsAgree | src/nodes/CoreNode.cpp:97-103 | m_WriteCount is the log length modulo ten whether the writes were local or remote |
| Snapshots.LayerOneConverges | src/nodes/CoreNode.cpp:57-62 | drained, a parented layer-one node holds the first 10*(n/10) of n writes |
| Snapshots.LayerTwoConverges | src/nodes/LayerOneNode.cpp:21-28 | a layer-one node can always tick, and after one more tick and a drain its layer-two nodes hold the same |
| Frames.ParseEncode | dependencies/easywsclient/easywsclient.cpp:276-337 | a written frame, with anything after it, is read back exactly, in all three length forms, masked or not |
| Frames.EncodeParse | dependencies/easywsclient/easywsclient.cpp:276-337 | whatever the parser accepts is byte for byte one written frame |
| Frames.ParseStable | dependencies/easywsclient/easywsclient.cpp:277-337 | a verdict reached on partial input stands whatever bytes follow |
| Frames.ParseOversized | dependencies/easywsclient/easywsclient.cpp:307-320 | a length of 2^63 or more is refused |
| Frames.MaskTwice | dependencies/easywsclient/easywsclient.cpp:437-442 | unmasking with the same key gives the payload back |
| Frames.BytesRoundTrip | dependencies/easywsclient/easywsclient.cpp:419-426 | the extended length is written big-endian without loss |
| Frames.MaskedAt | dependencies/easywsclient/easywsclient.cpp:437-442 | byte i of a payload goes under byte i % 4 of the key |
| Wire.FrameOnTheWire | dependencies/easywsclient/easywsclient.cpp:393-442 | a frame is its first byte, the length field with the mask bit, the longer length, the key and the masked payload |
| Wire.LengthOnTheWire | dependencies/easywsclient/easywsclient.cpp:406-426 | the longer lengths in literal bytes, most significant first |
| Wire.SentOnTheWire | dependencies/easywsclient/easywsclient.cpp:367-395 | text, binary, ping and pong start with 81, 82, 89 and 8a, under the fixed key or none, in the shortest form |
| Wire.DataIsCollected | dependencies/easywsclient/easywsclient.cpp:341-353 | opcodes 0, 1 and 2 add to the message and deliver it exactly when the top bit is set |
| Wire.PingIsAnswered | dependencies/easywsclient/easywsclient.cpp:354-358 | opcode 9 at an open socket queues one 8a frame with the same payload |
| Wire.PongIsIgnored | dependencies/easywsclient/easywsclient.cpp:359 | opcode 10 changes nothing |
| Wire.CloseIsAnswered | dependencies/easywsclient/easywsclient.cpp:360-361 | opcode 8 and undefined ones queue the bytes 88 80 00 00 00 00 once and leave OPEN |
| Wire.MaskedText | dependencies/easywsclient/easywsclient.cpp:270-365 | the masked "Hello" of section 5.7 of RFC 6455 is delivered |
| Wire.FragmentedText | dependencies/easywsclient/easywsclient.cpp:341-353 | the fragmented "Hello" of section 5.7 is delivered once |
| Wire.PingHello | dependencies/easywsclient/easywsclient.cpp:354-358 | the ping of section 5.7 and its answers, unmasked and masked, byte by byte |
| Wire.LongBinary | dependencies/easywsclient/easywsclient.cpp:296-306 | the 64 KiB example of section 5.7 is delivered |
| Endpoint.ChunksDoNotMatter | dependencies/easywsclient/easywsclient.cpp:270-365 | however arbitrary bytes are cut, callbacks, replies and state are those of one dispatch of the whole |
| Endpoint.AnyStream | dependencies/easywsclient/easywsclient.cpp:270-365 | any bytes in any chunks are frames and a tail; callbacks, replies and every field are those the frames and the tail call for, an impossible length included |
| Endpoint.AnyFrames | dependencies/easywsclient/easywsclient.cpp:339-361 | any mix of data, control and unknown frames: messages assembled, PONGs up to the first CLOSE, one CLOSE frame, nothing after |
| Endpoint.DispatchFrames | dependencies/easywsclient/easywsclient.cpp:275-364 | the loop handles the frames of a stream one by one and keeps an incomplete tail |
| Endpoint.RoundTrip | dependencies/easywsclient/easywsclient.cpp:384-443 | any list of messages shorter than 2^63 bytes, masked or not, in any chunks, arrives as that list and leaves the buffers empty |
| Endpoint.RoundTripIff | dependencies/easywsclient/easywsclient.cpp:307-320 | the bound is exact: a list of messages arrives if and only if each is shorter than 2^63 bytes |
| Endpoint.LongestRoundTrip | dependencies/easywsclient/easywsclient.cpp:307-320 | the messages before the first longer one arrive, there the receiver gives up and closes |
| Endpoint.FragmentedRoundTrip | dependencies/easywsclient/easywsclient.cpp:341-359 | fragments with PINGs and PONGs between them arrive as one message, and each PING gets one PONG with its payload, in order |
| Outgoing.LifeConserves | dependencies/easywsclient/easywsclient.cpp:228-247 | over any life of a socket accepted bytes followed by txbuf are the queued frames; a close frame is unique and last; the state only moves forward |
| Outgoing.ClosingIsSilent | dependencies/easywsclient/easywsclient.cpp:392 | a socket that has left OPEN queues nothing more, whatever happens |
| Outgoing.OtherSideSeesQueue | dependencies/easywsclient/easywsclient.cpp:188-248 | as long as no message of 2^63 bytes or more is sent, whatever a socket queued over its life is what the other end handles, however it was written out and cut |
| Outgoing.ShutIsFinal | dependencies/easywsclient/easywsclient.cpp:445-451 | closing queues one close frame if the socket was open, and nothing follows |
| Polling.PollMeaning | dependencies/easywsclient/easywsclient.cpp:188-248 | a poll adds all bytes received before the first other answer, removes from txbuf what was taken, and ends CLOSED exactly on a lost connection, a send error that is reached, or CLOSING with txbuf sent |
| Polling.LifeDelivers | dependencies/easywsclient/easywsclient.cpp:188-365 | however polls, dispatches, sends and closes alternate, the callbacks are those of one dispatch of the polled bytes |
| Polling.LifeFeeds | dependencies/easywsclient/easywsclient.cpp:188-365 | the callbacks of a life are those of feeding the polled chunks one by one |
| Polling.LivesConnect | dependencies/easywsclient/easywsclient.cpp:188-443 | a receiver's life hands over the messages made up by the frames of the sender's life |
| Outgoing.LifeIsValid | dependencies/easywsclient/easywsclient.cpp:354-360 | PONGs, PINGs and close frames always have a length that can be read back |
| WebSocket.RealWebSocket.BuildLength | dependencies/easywsclient/easywsclient.cpp:397-426 | the shifted-out bytes are the shortest length form with the mask bit |
| WebSocket.RealWebSocket.BuildHeader | dependencies/easywsclient/easywsclient.cpp:393-433 | the header built field by field is that of a frame with this payload |
| WebSocket.RealWebSocket.MaskTail | dependencies/easywsclient/easywsclient.cpp:437-442 | byte i of the payload at the end of txbuf is combined with byte i % 4 of the key, and nothing before it changes |
| WebSocket.RealWebSocket.SendData | dependencies/easywsclient/easywsclient.cpp:385-443 | one encoded frame is appended (see Wire for its bytes), or nothing once the socket is closing |
| WebSocket.RealWebSocket.SendMessage | dependencies/easywsclient/easywsclient.cpp:372-382 | an open socket's next byte on the wire is 82 for binary and 81 for text |
| WebSocket.RealWebSocket.Ping | dependencies/easywsclient/easywsclient.cpp:367-370 | an open socket appends 89 00, or 89 80 and the key |
| WebSocket.RealWebSocket.Close | dependencies/easywsclient/easywsclient.cpp:445-451 | the first call queues one masked empty close frame, later calls nothing |
| WebSocket.RealWebSocket.ReadLength | dependencies/easywsclient/easywsclient.cpp:285-306 | the bytes put together by shifts are the big-endian length |
| WebSocket.RealWebSocket.Locate | dependencies/easywsclient/easywsclient.cpp:283-337 | finds the payload and key of a complete frame, or says why there is none |
| WebSocket.RealWebSocket.UnmaskPayload | dependencies/easywsclient/easywsclient.cpp:346 | byte i of the payload is combined with byte i % 4 of the key, and nothing behind it changes |
| WebSocket.RealWebSocket.DispatchBinary | dependencies/easywsclient/easywsclient.cpp:270-365 | the loop over rxbuf makes the calls, and leaves the state, of the recursive decoder |
| WebSocket.RealWebSocket.Poll | dependencies/easywsclient/easywsclient.cpp:188-248 | the receive and send loops of poll, with any answers of recv and send |
| Script.ExtractToken | src/transactions/TransactionReader.cpp:18 | the next white-space separated word and what is left after it |
| Script.ReadTransactions | src/transactions/TransactionReader.cpp:7-31 | the loop returns header and entries of the file, unknown entries left out, in order |
| Script.ReadDecimal | src/transactions/TransactionReader.cpp:91-93 | a decimal number is read back exactly when it fits in 32 bits, and as the nearest int otherwise |
| Script.WriteRoundTrip | src/transactions/TransactionReader.cpp:79-95 | a written SUM, SUBSTRACT or MULTIPLY is read back with its type and value |
| Script.ClampIsNearest | src/transactions/TransactionReader.cpp:91-93 | values outside -2147483648 to 2147483647 become the nearer of the two |
| Script.Spelling | src/transactions/TransactionReader.cpp:62-95 | how reads and the three writes are spelt |
| Script.TypeByName | src/transactions/TransactionReader.cpp:85-89 | the type is decided by "sum", then "subs", then "mult" standing anywhere in the name |
| Script.OccursExactlyWhen | src/transactions/TransactionReader.cpp:87-89 | find of a string succeeds if and only if the string stands somewhere |
| Script.HeaderWithoutB | src/transactions/TransactionReader.cpp:39-41 | a header without a b is read from its start |
| Script.EmptyScript | src/transactions/TransactionReader.cpp:33-60 | nothing but white space gives layer 0, no mark and no entries |
| Script.ScriptA2 | src/transactions/TransactionReader.cpp:7-97 | the repository's own script A2 reads back as a read, a MULTIPLY by 2 and a SUBSTRACT of 12 |
| Script.AnyRIsARead | src/transactions/TransactionReader.cpp:66-77 | every word with an r in it is a READ of value 0 |
| Script.DroppedExactlyWhen | src/transactions/TransactionReader.cpp:79-89 | a word is dropped exactly when it has no r and lacks a part or names no operation |
| Script.OnlyReadsAndWrites | src/transactions/TransactionReader.cpp:18-25 | whatever the text, only reads and the three kinds of write reach the nodes |
| Script.HeaderRoundTrip | src/transactions/TransactionReader.cpp:33-60 | layer and read-only mark for every header number, and for none |
| Script.TokensOfLayout | src/transactions/TransactionReader.cpp:18 | splitting at white space recovers the words whatever the gaps |
| Script.ScriptRoundTrip | src/transactions/TransactionReader.cpp:7-97 | any script in any layout, with dropped words of every kind, reads back as its layer, mark and entries in order |
| Script.ValuesSurviveExactlyWhenTheyFit | src/transactions/TransactionReader.cpp:91-93 | the writes come back unchanged if and only if every value fits in 32 bits |
| Script.MarkIsKeptExactlyWhen | src/transactions/TransactionReader.cpp:46-96 | a script, marked or not, contains only reads if and only if every word after its header has an r or is dropped |
| Script.MarkDoesNotFilterWrites | src/transactions/TransactionReader.cpp:46-60 | a text marked read-only that keeps a write: one where that condition fails |

## Left out

- Threads, condition variables and timeouts: a wait is the guard of an action, and the ten-second timer of layer one is a Tick that may happen at any time; it is not counted in the bound on core steps.
- `ExecuteTransaction` of a core node as one blocking call: the class has one method per stretch between waits, and the state machine puts them in order.
- 32-bit overflow of versions, clock values and counters: they are mathematical integers; widths are kept for WebSocket lengths and script values.
- The entry of value 0 that `GetValue` inserts for an unknown node: reading an absent entry as 0 is the same to every reader.
- The 5-byte wire format of node messages, the handshake that fills the layer tables and the start order of the nodes: messages arrive whole, on tables that are complete.
- Unsynchronised access to `m_RequestQ` and `m_FinishedNodes` as a data race in the C++ sense: every action is atomic.
- Lost connections between nodes, node shutdown and destructors.
- Reads addressed to layer-one and layer-two nodes by `Controller`: what they would show is the version `Snapshots.HoldsSnapshot` describes.
- `from_url`, host lookup, the HTTP upgrade, `select` and the socket calls: `poll` takes what `recv` and `send` answer as arguments; at most 1500 bytes a `recv` is not imposed.
- WebSocket.RealWebSocket.SendData: payloads of 2^64 bytes or more do not exist in the source, whose length is a 64-bit number; 64-bit `size_t` is assumed.
- Masking keys other than the fixed one of the source are only modelled on the receiving side.
- A script file that cannot be opened: the source then returns uninitialised fields.
- The queue of monitor messages in `src/web_socket/WsClient.h`, logging, console output and the file watcher.
- `QueueErase` in `src/mutex/LamportMutex.cpp` and `SendAction` in `src/mutex/DirectClock.h`, which nothing calls.
