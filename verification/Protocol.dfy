// The distributed system as a state machine: per-node state, FIFO channels, and one
// action per line group of CoreNode.cpp / LamportMutex.cpp / LayerOneNode.cpp that
// other nodes can observe.
module Protocol {
  import opened Basics
  import opened Transactions

  type Id = int

  // What travels between nodes (tags of MsgHandler.h; Update is Tag::SET; nobody sends Read,
  // Tag::READ, but the handlers have a branch for it).
  datatype Msg =
    | Request(ticks: int)
    | Ack(ticks: int)
    | Release(ticks: int)
    | Write(data: TransactionData)
    | Ready(value: int)
    | Update(version: int)
    | Read(value: int)

  // ---------------------------------------------------------------- channels

  type Net = map<(Id, Id), seq<Msg>>

  function Chan(net: Net, i: Id, j: Id): seq<Msg> {
    if (i, j) in net then net[(i, j)] else []
  }

  function Send(net: Net, i: Id, j: Id, m: Msg): (r: Net)
    ensures forall x, y :: Chan(r, x, y) == if x == i && y == j then Chan(net, x, y) + [m] else Chan(net, x, y)
  {
    net[(i, j) := Chan(net, i, j) + [m]]
  }

  function Pop(net: Net, i: Id, j: Id): (r: Net)
    requires Chan(net, i, j) != []
    ensures forall x, y :: Chan(r, x, y) == if x == i && y == j then Chan(net, x, y)[1..] else Chan(net, x, y)
  {
    net[(i, j) := Chan(net, i, j)[1..]]
  }

  function Broadcast(net: Net, i: Id, dests: seq<Id>, m: Msg): (r: Net)
    ensures NoDup(dests) ==> forall x, y ::
      Chan(r, x, y) == if x == i && y in dests then Chan(net, x, y) + [m] else Chan(net, x, y)
    decreases |dests|
  {
    if dests == [] then net else Broadcast(Send(net, i, dests[0], m), i, dests[1..], m)
  }

  // ---------------------------------------------------------- one core node

  // The data members of CoreNode, its LamportMutex and its DirectClock.
  datatype Local = Local(ticks: map<Id, int>, queue: map<Id, int>, finished: int, writeCount: int, version: int)

  const UPDATE_COUNT := 10

  // DirectClock::Tick
  function Ticked(ticks: map<Id, int>, me: Id): map<Id, int> {
    ticks[me := Get(ticks, me) + 1]
  }

  // DirectClock::RecieveAction
  function Received(ticks: map<Id, int>, me: Id, src: Id, sent: int): map<Id, int> {
    var t := ticks[src := Max(Get(ticks, src), sent)];
    t[me := Max(Get(t, me), sent) + 1]
  }

  predicate IsGreater(entry1: int, id1: Id, entry2: int, id2: Id) {
    entry1 > entry2 || (entry1 == entry2 && id1 > id2)
  }

  // One turn of the loop in LamportMutex::okeyCS.
  predicate Yields(l: Local, me: Id, other: Id)
    requires me in l.queue
  {
    && (other in l.queue ==> !IsGreater(l.queue[me], me, l.queue[other], other))
    && !IsGreater(l.queue[me], me, Get(l.ticks, other), other)
  }

  // LamportMutex::okeyCS
  predicate Okey(l: Local, me: Id, peers: seq<Id>) {
    me in l.queue ==> forall other :: other in peers ==> Yields(l, me, other)
  }

  // LamportMutex::requestCS up to the broadcast
  function Requested(l: Local, me: Id): Local {
    var t := Ticked(l.ticks, me);
    l.(ticks := t, queue := l.queue[me := t[me]])
  }

  // LamportMutex::HandleMsg; the argument of every non-mutex tag is taken for a clock value.
  function MutexHandled(l: Local, me: Id, src: Id, m: Msg): Local {
    match m
    case Request(t) => l.(ticks := Received(l.ticks, me, src, t), queue := l.queue[src := t])
    case Release(t) => l.(ticks := Received(l.ticks, me, src, t), queue := Erase(l.queue, src))
    case Ack(t) => l.(ticks := Received(l.ticks, me, src, t))
    case Update(v) => l.(ticks := Received(l.ticks, me, src, v))
    case Write(d) => l.(ticks := Received(l.ticks, me, src, d.value))
    case Ready(v) => l.(ticks := Received(l.ticks, me, src, v))
    case Read(v) => l.(ticks := Received(l.ticks, me, src, v))
  }

  // The write counter after one more write; it wraps at UPDATE_COUNT, when a SET goes out.
  predicate CountIsFull(l: Local) {
    l.writeCount + 1 >= UPDATE_COUNT
  }

  function CountedWrite(l: Local): Local {
    l.(writeCount := if CountIsFull(l) then 0 else l.writeCount + 1)
  }

  // CoreNode::HandleMsg: the new node state ...
  function Handled(l: Local, me: Id, src: Id, m: Msg): Local {
    match m
    case Ready(_) => l.(finished := l.finished + 1)
    case Read(_) => l
    case Write(d) => CountedWrite(l.(version := Execute(l.version, d)))
    case _ => MutexHandled(l, me, src, m)
  }

  // ... and what it sends: l is the state before the message, kids the layer-one table.
  function Replies(net: Net, l: Local, me: Id, kids: seq<Id>, src: Id, m: Msg): Net {
    match m
    case Request(t) => Send(net, me, src, Ack(Get(Handled(l, me, src, m).ticks, me)))
    case Write(d) =>
      var net1 := if CountIsFull(l) then Broadcast(net, me, kids, Update(Execute(l.version, d))) else net;
      Send(net1, me, src, Ready(d.value))
    case _ => net
  }

  // ------------------------------------------------------------ whole system

  // Where the thread running ExecuteTransaction stands.
  datatype Phase =
    | Idle
    | Waiting(data: TransactionData, unsent: seq<Id>)  // requestCS: REQUEST still to be sent to `unsent`, then okeyCS
    | Sending(data: TransactionData, unsent: seq<Id>)  // in the section: write still to be sent to `unsent`
    | Counting(data: TransactionData)                  // applied locally, not yet counted
    | Awaiting(data: TransactionData)                  // waiting for one READY per peer
    | Leaving(data: TransactionData)                   // READYs collected, about to call releaseCS
    | Releasing(stamp: int, unsent: seq<Id>)           // releaseCS: RELEASE still to be sent to `unsent`

  // A core node: its data members, its program position and workload, and history
  // that no transition reads (shown: values READ printed; applied: writes executed;
  // counted: peers whose READY is included in local.finished).
  datatype Node = Node(
    local: Local, phase: Phase, todo: seq<TransactionData>,
    shown: seq<int>, applied: seq<TransactionData>, counted: set<Id>)

  // One passage through the critical section.
  datatype Grant = Grant(ticks: int, id: Id, data: TransactionData)

  // History in the last two fields: log lists the critical sections in the order they
  // were entered; rounds[k] numbers the snapshot a layer-one/two node holds, followed by
  // those on the wire to it (round r: the first 10*r writes).
  datatype State = State(
    node: map<Id, Node>, below: map<Id, int>, net: Net,
    log: seq<Grant>, rounds: map<Id, seq<nat>>)

  // cores: Controller's m_CoreNodes; peers: m_Layers[CORE_LAYER] of each core node;
  // kids: m_Layers[LAYER_ONE] of a core node, m_Layers[LAYER_TWO] of a layer-one node.
  datatype Config = Config(
    cores: seq<Id>, layerOne: set<Id>, layerTwo: set<Id>,
    peers: map<Id, seq<Id>>, kids: map<Id, seq<Id>>)

  function Peers(c: Config, i: Id): seq<Id> {
    if i in c.peers then c.peers[i] else []
  }

  function Kids(c: Config, i: Id): seq<Id> {
    if i in c.kids then c.kids[i] else []
  }

  // The core is fully connected and sends updates to none of its own nodes.
  ghost predicate FullMesh(c: Config) {
    && NoDup(c.cores)
    && (forall i :: i in c.cores ==> NoDup(Peers(c, i)))
    && (forall i, j :: i in c.cores ==> (j in Peers(c, i) <==> j in c.cores && j != i))
    && (forall i, k :: k in Kids(c, i) ==> k !in c.cores)
    && (forall i :: NoDup(Kids(c, i)))
  }

  // The layers below form a forest: core nodes update layer-one nodes, layer-one nodes
  // update layer-two nodes, and nobody is updated by two.
  ghost predicate Forest(c: Config) {
    && (forall i :: i in c.cores ==> i !in c.layerOne && i !in c.layerTwo)
    && c.layerOne !! c.layerTwo
    && (forall i, k :: k in Kids(c, i) ==> (i in c.cores && k in c.layerOne) || (i in c.layerOne && k in c.layerTwo))
    && (forall i, j, k :: k in Kids(c, i) && k in Kids(c, j) ==> i == j)
  }

  ghost predicate ValidConfig(c: Config) {
    FullMesh(c) && Forest(c)
  }

  datatype Action =
    | Show(i: Id)             // a READ
    | Start(i: Id)            // requestCS, Tick .. m_RequestQ[m_Id] = ticks
    | SendRequest(i: Id)      // requestCS, one SendMsg of the broadcast
    | Enter(i: Id)            // okeyCS holds
    | SendWrite(i: Id)        // one SendMsg of the write loop
    | ApplyLocal(i: Id)       // Node::ExecuteTransaction
    | Count(i: Id)            // m_WriteCount and the SET broadcast
    | Collect(i: Id)          // all READYs in, m_FinishedNodes = 0
    | Leave(i: Id)            // releaseCS, m_RequestQ.erase
    | SendRelease(i: Id)      // releaseCS, one SendMsg of the broadcast
    | Return(i: Id)           // ExecuteTransaction returns
    | Deliver(i: Id, j: Id)   // core node j handles the next message from core node i
    | Tick(i: Id)             // LayerOneNode::Run, one broadcast
    | DeliverUpdate(i: Id, k: Id)  // layer-one/two node k handles the next message from i

  // Tick and DeliverUpdate belong to the layers below the core.
  predicate IsCore(a: Action) {
    !a.Tick? && !a.DeliverUpdate?
  }

  predicate Enabled(c: Config, s: State, a: Action) {
    match a
    case Show(i) => i in s.node && s.node[i].phase.Idle? && s.node[i].todo != [] && s.node[i].todo[0].kind.READ?
    case Start(i) => i in s.node && s.node[i].phase.Idle? && s.node[i].todo != [] && IsWrite(s.node[i].todo[0])
    case SendRequest(i) => i in s.node && s.node[i].phase.Waiting? && s.node[i].phase.unsent != []
    case Enter(i) =>
      && i in s.node && s.node[i].phase.Waiting? && s.node[i].phase.unsent == []
      && Okey(s.node[i].local, i, Peers(c, i))
    case SendWrite(i) => i in s.node && s.node[i].phase.Sending? && s.node[i].phase.unsent != []
    case ApplyLocal(i) => i in s.node && s.node[i].phase.Sending? && s.node[i].phase.unsent == []
    case Count(i) => i in s.node && s.node[i].phase.Counting?
    case Collect(i) => i in s.node && s.node[i].phase.Awaiting? && s.node[i].local.finished == |Peers(c, i)|
    case Leave(i) => i in s.node && s.node[i].phase.Leaving?
    case SendRelease(i) => i in s.node && s.node[i].phase.Releasing? && s.node[i].phase.unsent != []
    case Return(i) => i in s.node && s.node[i].phase.Releasing? && s.node[i].phase.unsent == []
    case Deliver(i, j) => i in s.node && j in s.node && i != j && Chan(s.net, i, j) != []
    case Tick(i) => i in c.layerOne && i in s.below && i in s.rounds && s.rounds[i] != []
    case DeliverUpdate(i, k) =>
      && k in Kids(c, i) && k in s.below && k in s.rounds && s.rounds[k] != []
      && Chan(s.net, i, k) != [] && Chan(s.net, i, k)[0].Update?
  }

  function Emit(rounds: map<Id, seq<nat>>, kids: seq<Id>, r: nat): map<Id, seq<nat>> {
    map k | k in rounds :: if k in kids then rounds[k] + [r] else rounds[k]
  }

  function Exec(c: Config, s: State, a: Action): State
    requires Enabled(c, s, a)
  {
    match a
    case Show(i) =>
      var n := s.node[i];
      s.(node := s.node[i := n.(todo := n.todo[1..], shown := n.shown + [n.local.version])])
    case Start(i) =>
      var n := s.node[i];
      s.(node := s.node[i := n.(local := Requested(n.local, i), phase := Waiting(n.todo[0], Peers(c, i)), todo := n.todo[1..])])
    case SendRequest(i) =>
      var n := s.node[i];
      s.(node := s.node[i := n.(phase := Waiting(n.phase.data, n.phase.unsent[1..]))],
         net := Send(s.net, i, n.phase.unsent[0], Request(Get(n.local.queue, i))))
    case Enter(i) =>
      var n := s.node[i];
      s.(node := s.node[i := n.(phase := Sending(n.phase.data, Peers(c, i)))],
         log := s.log + [Grant(Get(n.local.queue, i), i, n.phase.data)])
    case SendWrite(i) =>
      var n := s.node[i];
      s.(node := s.node[i := n.(phase := Sending(n.phase.data, n.phase.unsent[1..]))],
         net := Send(s.net, i, n.phase.unsent[0], Write(n.phase.data)))
    case ApplyLocal(i) =>
      var n := s.node[i];
      s.(node := s.node[i := n.(local := n.local.(version := Execute(n.local.version, n.phase.data)),
                                phase := Counting(n.phase.data), applied := n.applied + [n.phase.data])])
    case Count(i) =>
      var n := s.node[i];
      var s1 := s.(node := s.node[i := n.(local := CountedWrite(n.local), phase := Awaiting(n.phase.data))]);
      if CountIsFull(n.local) then
        s1.(net := Broadcast(s.net, i, Kids(c, i), Update(n.local.version)),
            rounds := Emit(s.rounds, Kids(c, i), |n.applied| / UPDATE_COUNT))
      else s1
    case Collect(i) =>
      var n := s.node[i];
      s.(node := s.node[i := n.(local := n.local.(finished := 0), phase := Leaving(n.phase.data), counted := {})])
    case Leave(i) =>
      var n := s.node[i];
      s.(node := s.node[i := n.(local := n.local.(queue := Erase(n.local.queue, i)),
                                phase := Releasing(Get(n.local.ticks, i), Peers(c, i)))])
    case SendRelease(i) =>
      var n := s.node[i];
      s.(node := s.node[i := n.(phase := Releasing(n.phase.stamp, n.phase.unsent[1..]))],
         net := Send(s.net, i, n.phase.unsent[0], Release(n.phase.stamp)))
    case Return(i) =>
      var n := s.node[i];
      s.(node := s.node[i := n.(phase := Idle)])
    case Deliver(i, j) =>
      var n := s.node[j];
      var m := Chan(s.net, i, j)[0];
      var n' := n.(local := Handled(n.local, j, i, m),
                   applied := if m.Write? then n.applied + [m.data] else n.applied,
                   counted := if m.Ready? then n.counted + {i} else n.counted);
      s.(node := s.node[j := n'],
         net := Replies(Pop(s.net, i, j), n.local, j, Kids(c, j), i, m),
         rounds := if m.Write? && CountIsFull(n.local) then Emit(s.rounds, Kids(c, j), |n'.applied| / UPDATE_COUNT)
                   else s.rounds)
    case Tick(i) =>
      s.(net := Broadcast(s.net, i, Kids(c, i), Update(s.below[i])),
         rounds := Emit(s.rounds, Kids(c, i), s.rounds[i][0]))
    case DeliverUpdate(i, k) =>
      s.(below := s.below[k := Execute(s.below[k], TransactionData(SET, Chan(s.net, i, k)[0].version))],
         net := Pop(s.net, i, k),
         rounds := s.rounds[k := s.rounds[k][1..]])
  }

  // Node j does not handle a REQUEST of i between choosing its own ticks and sending
  // its own REQUEST to i. CoreNode.cpp and LamportMutex.cpp hold no lock that ensures
  // this; the theorems assume it and RequestRace shows what happens without it.
  predicate Gate(s: State, a: Action) {
    a.Deliver? && a.j in s.node && Chan(s.net, a.i, a.j) != [] && Chan(s.net, a.i, a.j)[0].Request? ==>
      !(s.node[a.j].phase.Waiting? && a.i in s.node[a.j].phase.unsent)
  }

  // ------------------------------------------------------------------- runs

  predicate ValidScript(script: seq<TransactionData>) {
    forall t :: t in script ==> t.kind.READ? || IsWrite(t)
  }

  function InitNode(i: Id, script: seq<TransactionData>): Node {
    Node(Local(map[i := 1], map[], 0, 0, 0), Idle, script, [], [], {})
  }

  function Init(c: Config, scripts: map<Id, seq<TransactionData>>): State {
    State(map i | i in c.cores :: InitNode(i, if i in scripts then scripts[i] else []),
          map k | k in c.layerOne + c.layerTwo :: 0,
          map[], [],
          map k | k in c.layerOne + c.layerTwo :: [0])
  }

  // `run` can be carried out from s, every step permitted by the code ...
  predicate RawRun(c: Config, s: State, run: seq<Action>)
    decreases |run|
  {
    run == [] || (Enabled(c, s, run[0]) && RawRun(c, Exec(c, s, run[0]), run[1..]))
  }

  function After(c: Config, s: State, run: seq<Action>): State
    requires RawRun(c, s, run)
    decreases |run|
  {
    if run == [] then s else After(c, Exec(c, s, run[0]), run[1..])
  }

  // ... and respecting Gate.
  predicate Run(c: Config, s: State, run: seq<Action>)
    ensures Run(c, s, run) ==> RawRun(c, s, run)
    decreases |run|
  {
    run == [] || (Enabled(c, s, run[0]) && Gate(s, run[0]) && Run(c, Exec(c, s, run[0]), run[1..]))
  }
}
