// The classes of src/mutex and src/nodes. Each method is tied to the function of module
// Protocol that the state machine is built from; Steps shows that the methods with
// loops amount to runs of its actions.
module Nodes {
  import opened Basics
  import opened Transactions
  import opened Protocol

  // The links between all nodes: reliable, first in first out.
  class Links {
    var net: Net

    constructor ()
      ensures net == map[]
    {
      net := map[];
    }
  }

  // The sender's entry becomes the larger of what it was and the value sent, the own entry one
  // more than the larger of what it was and the value sent, and the others stay.
  ghost predicate Raised(before: map<Id, int>, after: map<Id, int>, me: Id, sender: Id, sent: int) {
    var mine, theirs := if me in before then before[me] else 0, if sender in before then before[sender] else 0;
    && me in after && sender in after
    && after[me] == (if mine > sent then mine else sent) + 1
    && (sender != me ==> after[sender] == if theirs > sent then theirs else sent)
    && (forall i :: i != me && i != sender ==> Lookup(after, i) == Lookup(before, i))
  }

  // net' is net after node i has sent m to every node of dests it has a socket for.
  ghost predicate SentTo(net: Net, net': Net, i: Id, dests: seq<Id>, sockets: set<Id>, m: Msg) {
    NoDup(dests) ==> forall x, y {:trigger Chan(net', x, y)} ::
      Chan(net', x, y) ==
        if x == i && y in dests && y in sockets then Chan(net, x, y) + [m] else Chan(net, x, y)
  }

  lemma BroadcastReaches(net: Net, i: Id, dests: seq<Id>, sockets: set<Id>, m: Msg)
    ensures SentTo(net, Broadcast(net, i, Live(dests, sockets), m), i, dests, sockets, m)
  {
    if NoDup(dests) {
      LiveEntries(dests, sockets);
    }
  }

  // src/mutex/DirectClock.h
  class DirectClock {
    const id: Id
    var ticks: map<Id, int>

    constructor (myId: Id)
      ensures id == myId && ticks == map[myId := 1]
    {
      id := myId;
      ticks := map[myId := 1];
    }

    method GetValue(i: Id) returns (v: int)
      ensures v == Get(ticks, i)
      ensures v == if i in ticks then ticks[i] else 0
    {
      v := if i in ticks then ticks[i] else 0;
    }

    method Tick()
      modifies this
      ensures ticks == Ticked(old(ticks), id)
      ensures id in ticks && ticks[id] == (if id in old(ticks) then old(ticks)[id] else 0) + 1
      ensures forall i :: i != id ==> Lookup(ticks, i) == Lookup(old(ticks), i)
    {
      var t := GetValue(id);
      ticks := ticks[id := t + 1];
    }

    method RecieveAction(sender: Id, sentValue: int)
      modifies this
      ensures ticks == Received(old(ticks), id, sender, sentValue)
      ensures Raised(old(ticks), ticks, id, sender, sentValue)
    {
      var t := GetValue(sender);
      ticks := ticks[sender := if t > sentValue then t else sentValue];
      t := GetValue(id);
      ticks := ticks[id := (if t > sentValue then t else sentValue) + 1];
    }
  }

  // The entries of a layer table for which a socket exists.
  function Live(dests: seq<Id>, sockets: set<Id>): seq<Id> {
    if dests == [] then []
    else (if dests[0] in sockets then [dests[0]] else []) + Live(dests[1..], sockets)
  }

  lemma {:induction false} LiveEntries(dests: seq<Id>, sockets: set<Id>)
    requires NoDup(dests)
    ensures NoDup(Live(dests, sockets)) && forall d :: d in Live(dests, sockets) <==> d in dests && d in sockets
  {
    if dests == [] {
    } else {
      var rest := dests[1..];
      LiveEntries(rest, sockets);
      assert forall d :: d in dests <==> d == dests[0] || d in rest;
    }
  }

  lemma {:induction false} AllLive(dests: seq<Id>, sockets: set<Id>)
    requires forall d :: d in dests ==> d in sockets
    ensures Live(dests, sockets) == dests
  {
    if dests == [] {
    } else {
      var d := dests[0];
      assert d in dests;
      AllLive(dests[1..], sockets);
    }
  }

  // Sending to dests[k] and then to the rest is sending to dests[k..].
  lemma LiveStep(net: Net, id: Id, dests: seq<Id>, k: nat, sockets: set<Id>, m: Msg)
    requires k < |dests|
    ensures Broadcast(net, id, Live(dests[k..], sockets), m) ==
      Broadcast(if dests[k] in sockets then Send(net, id, dests[k], m) else net, id, Live(dests[k + 1..], sockets), m)
  {
    assert dests[k..][0] == dests[k] && dests[k..][1..] == dests[k + 1..];
    var live, rest := Live(dests[k..], sockets), Live(dests[k + 1..], sockets);
    if dests[k] in sockets {
      assert live == [dests[k]] + rest && live[0] == dests[k] && live[1..] == rest;
    } else {
      assert live == rest;
    }
  }

  const NUM_LAYERS := 3
  const CORE_LAYER := 0
  const LAYER_ONE := 1
  const LAYER_TWO := 2

  // src/nodes/MsgHandler.cpp
  class MsgHandler {
    const id: Id
    const links: Links
    var layers: seq<seq<Id>>
    var sockets: set<Id>

    constructor (id: Id, links: Links)
      ensures this.id == id && this.links == links
      ensures layers == [[], [], []] && sockets == {}
    {
      this.id := id;
      this.links := links;
      layers := [[], [], []];
      sockets := {};
    }

    ghost predicate Valid()
      reads this
    {
      |layers| == NUM_LAYERS && id !in sockets
    }

    // GetLayer: an unknown layer is empty.
    function GetLayer(layer: int): seq<Id>
      reads this
    {
      if layer < 0 || |layers| <= layer then [] else layers[layer]
    }

    // A message to a node without a socket is logged and dropped.
    method SendMsg(desc: Id, m: Msg)
      modifies links
      ensures links.net == if desc in sockets then Send(old(links.net), id, desc, m) else old(links.net)
    {
      if desc in sockets {
        links.net := Send(links.net, id, desc, m);
      }
    }

    // One copy to every node of the layer that has a socket, in table order.
    method BroadcastMsg(m: Msg, layer: int)
      modifies links
      ensures links.net == Broadcast(old(links.net), id, Live(GetLayer(layer), sockets), m)
      ensures layer < 0 || |layers| <= layer ==> links.net == old(links.net)
      ensures 0 <= layer < |layers| ==> SentTo(old(links.net), links.net, id, layers[layer], sockets, m)
    {
      if layer < 0 || |layers| <= layer {
        return;
      }
      BroadcastReaches(links.net, id, layers[layer], sockets, m);
      SendToEach(layers[layer], m);
    }

    // The loop of BroadcastMsg.
    method SendToEach(dests: seq<Id>, m: Msg)
      modifies links
      ensures links.net == Broadcast(old(links.net), id, Live(dests, sockets), m)
    {
      var k := 0;
      while k < |dests|
        invariant 0 <= k <= |dests|
        invariant Broadcast(links.net, id, Live(dests[k..], sockets), m)
               == Broadcast(old(links.net), id, Live(dests, sockets), m)
      {
        LiveStep(links.net, id, dests, k, sockets, m);
        SendMsg(dests[k], m);
        k := k + 1;
      }
    }
  }

  // src/mutex/LamportMutex.cpp
  class LamportMutex {
    const id: Id
    const handler: MsgHandler
    const clock: DirectClock
    var requestQ: map<Id, int>

    constructor (handler: MsgHandler)
      ensures id == handler.id && this.handler == handler && fresh(clock) && clock.id == id
      ensures requestQ == map[] && clock.ticks == map[id := 1]
    {
      this.handler := handler;
      id := handler.id;
      clock := new DirectClock(handler.id);
      requestQ := map[];
    }

    ghost predicate Valid()
      reads this, handler
    {
      handler.id == id && clock.id == id && handler.Valid()
    }

    // requestCS up to the wait.
    method RequestCS()
      requires Valid()
      modifies this, clock, handler.links
      ensures Valid()
      ensures clock.ticks == Ticked(old(clock.ticks), id)
      ensures requestQ == old(requestQ)[id := Get(clock.ticks, id)]
      ensures handler.links.net ==
        Broadcast(old(handler.links.net), id, Live(handler.GetLayer(CORE_LAYER), handler.sockets), Request(requestQ[id]))
      ensures requestQ[id] == (if id in old(clock.ticks) then old(clock.ticks)[id] else 0) + 1
      ensures SentTo(old(handler.links.net), handler.links.net, id, handler.layers[0], handler.sockets, Request(requestQ[id]))
    {
      clock.Tick();
      var ticks := clock.GetValue(id);
      requestQ := requestQ[id := ticks];
      handler.BroadcastMsg(Request(ticks), CORE_LAYER);
    }

    method ReleaseCS()
      requires Valid()
      modifies this, handler.links
      ensures Valid()
      ensures requestQ == Erase(old(requestQ), id)
      ensures handler.links.net ==
        Broadcast(old(handler.links.net), id, Live(handler.GetLayer(CORE_LAYER), handler.sockets), Release(Get(clock.ticks, id)))
      ensures id !in requestQ && forall i :: i != id ==> Lookup(requestQ, i) == Lookup(old(requestQ), i)
      ensures SentTo(old(handler.links.net), handler.links.net, id, handler.layers[0], handler.sockets,
                     Release(if id in clock.ticks then clock.ticks[id] else 0))
    {
      requestQ := Erase(requestQ, id);
      var ticks := clock.GetValue(id);
      handler.BroadcastMsg(Release(ticks), CORE_LAYER);
    }

    // The node's own request, which it has, comes before other's in the order of (ticks, id).
    predicate ComesFirst(ticks: int, other: Id)
      reads this
      requires id in requestQ
    {
      requestQ[id] < ticks || (requestQ[id] == ticks && id <= other)
    }

    // True iff the node's own request, if it has one, comes before every queued request
    // and every clock value known of the other core nodes.
    method OkeyCS() returns (okey: bool)
      ensures |handler.layers| > 0 ==>
        (okey <==> (id in requestQ ==> forall other :: other in handler.layers[0] ==>
          && (other in requestQ ==> ComesFirst(requestQ[other], other))
          && ComesFirst(if other in clock.ticks then clock.ticks[other] else 0, other)))
      ensures okey <==> (id in requestQ ==> forall other :: other in handler.GetLayer(CORE_LAYER) ==>
        && (other in requestQ ==> !IsGreater(requestQ[id], id, requestQ[other], other))
        && !IsGreater(requestQ[id], id, Get(clock.ticks, other), other))
    {
      if id in requestQ {
        var myTicks := requestQ[id];
        var others := handler.GetLayer(CORE_LAYER);
        var k := 0;
        while k < |others|
          invariant 0 <= k <= |others|
          invariant forall other :: other in others[..k] ==>
            && (other in requestQ ==> !IsGreater(myTicks, id, requestQ[other], other))
            && !IsGreater(myTicks, id, Get(clock.ticks, other), other)
        {
          var other := others[k];
          assert other in others;
          if other in requestQ && IsGreater(myTicks, id, requestQ[other], other) {
            return false;
          }
          var seen := clock.GetValue(other);
          if IsGreater(myTicks, id, seen, other) {
            return false;
          }
          assert others[..k + 1] == others[..k] + [other];
          k := k + 1;
        }
        assert others[..k] == others;
      }
      return true;
    }

    // The value the message carries, whatever its tag.
    function Carried(m: Msg): int {
      match m
      case Request(t) => t
      case Ack(t) => t
      case Release(t) => t
      case Write(d) => d.value
      case Ready(v) => v
      case Update(v) => v
      case Read(v) => v
    }

    method HandleMsg(src: Id, m: Msg)
      requires Valid()
      modifies this, clock, handler.links
      ensures Valid()
      ensures clock.ticks == Received(old(clock.ticks), id, src, Carried(m))
      ensures m.Request? || m.Ack? || m.Release? ==> Raised(old(clock.ticks), clock.ticks, id, src, m.ticks)
      ensures m.Write? ==> Raised(old(clock.ticks), clock.ticks, id, src, m.data.value)
      ensures m.Ready? || m.Read? ==> Raised(old(clock.ticks), clock.ticks, id, src, m.value)
      ensures m.Update? ==> Raised(old(clock.ticks), clock.ticks, id, src, m.version)
      ensures m.Request? ==> src in requestQ && requestQ[src] == m.ticks
      ensures m.Release? ==> src !in requestQ
      ensures forall i :: i != src ==> Lookup(requestQ, i) == Lookup(old(requestQ), i)
      ensures !m.Request? && !m.Release? ==> requestQ == old(requestQ)
      ensures requestQ == match m
        case Request(t) => old(requestQ)[src := t]
        case Release(_) => Erase(old(requestQ), src)
        case _ => old(requestQ)
      ensures handler.links.net ==
        if m.Request? && src in handler.sockets
        then Send(old(handler.links.net), id, src, Ack(Get(clock.ticks, id))) else old(handler.links.net)
    {
      clock.RecieveAction(src, Carried(m));
      match m {
        case Request(t) =>
          requestQ := requestQ[src := t];
          var ticks := clock.GetValue(id);
          handler.SendMsg(src, Ack(ticks));
        case Release(_) =>
          requestQ := Erase(requestQ, src);
        case _ =>
      }
    }
  }

  // src/nodes/CoreNode.cpp
  class CoreNode {
    const handler: MsgHandler
    const mutex: LamportMutex
    const replica: Transaction
    var writeCount: int
    var finishedNodes: int

    constructor (handler: MsgHandler)
      requires handler.Valid()
      ensures Valid() && this.handler == handler && fresh(mutex) && fresh(mutex.clock) && fresh(replica)
      ensures View() == InitNode(handler.id, []).local
    {
      this.handler := handler;
      mutex := new LamportMutex(handler);
      replica := new Transaction(0);
      writeCount := 0;
      finishedNodes := 0;
    }

    ghost predicate Valid()
      reads this, mutex, handler
    {
      mutex.handler == handler && mutex.Valid()
    }

    // All of a core node's data members.
    ghost function View(): Local
      reads this, mutex, mutex.clock, replica
    {
      Local(mutex.clock.ticks, mutex.requestQ, finishedNodes, writeCount, replica.version)
    }

    // Every node of the table of a layer can be reached.
    ghost predicate Connected()
      reads handler
    {
      forall layer, d :: d in handler.GetLayer(layer) ==> d in handler.sockets
    }

    // The peers and the children of the node.
    ghost function Core(): seq<Id>
      reads handler
    {
      handler.GetLayer(CORE_LAYER)
    }

    ghost function Children(): seq<Id>
      reads handler
    {
      handler.GetLayer(LAYER_ONE)
    }

    method CountWrite()
      requires Valid() && Connected()
      modifies this, handler.links
      ensures Valid() && View() == CountedWrite(old(View()))
      ensures handler.links.net ==
        if CountIsFull(old(View())) then Broadcast(old(handler.links.net), handler.id, Children(), Update(View().version))
        else old(handler.links.net)
      ensures writeCount == if old(writeCount) + 1 >= 10 then 0 else old(writeCount) + 1
      ensures old(writeCount) + 1 < 10 ==> handler.links.net == old(handler.links.net)
      ensures old(writeCount) + 1 >= 10 ==>
        SentTo(old(handler.links.net), handler.links.net, handler.id, handler.layers[1], handler.sockets, Update(replica.version))
    {
      writeCount := writeCount + 1;
      if writeCount >= UPDATE_COUNT {
        AllLive(handler.GetLayer(LAYER_ONE), handler.sockets);
        handler.BroadcastMsg(Update(replica.version), LAYER_ONE);
        writeCount := 0;
      }
    }

    // CoreNode::HandleMsg: the state and the traffic the state machine's Deliver prescribes.
    method HandleMsg(src: Id, m: Msg)
      requires Valid() && Connected()
      requires src in handler.sockets
      modifies this, mutex, mutex.clock, replica, handler.links
      ensures Valid()
      ensures View() == Handled(old(View()), handler.id, src, m)
      ensures handler.links.net == Replies(old(handler.links.net), old(View()), handler.id, Children(), src, m)
      ensures NoDup(handler.layers[1]) && src !in handler.layers[1] ==>
        Chan(handler.links.net, handler.id, src) == Chan(old(handler.links.net), handler.id, src) +
          (match m
           case Request(_) => [Ack(if handler.id in mutex.clock.ticks then mutex.clock.ticks[handler.id] else 0)]
           case Write(data) => [Ready(data.value)]
           case _ => [])
      ensures NoDup(handler.layers[1]) ==> forall k :: k in handler.layers[1] && k != src ==>
        Chan(handler.links.net, handler.id, k) == Chan(old(handler.links.net), handler.id, k) +
          (if m.Write? && old(writeCount) + 1 >= 10 then [Update(replica.version)] else [])
      ensures m.Request? || m.Ack? || m.Release? ==>
        Raised(old(mutex.clock.ticks), mutex.clock.ticks, mutex.id, src, m.ticks)
      ensures m.Update? ==> Raised(old(mutex.clock.ticks), mutex.clock.ticks, mutex.id, src, m.version)
      ensures m.Ready? || m.Read? || m.Write? ==> mutex.clock.ticks == old(mutex.clock.ticks)
      ensures finishedNodes == old(finishedNodes) + if m.Ready? then 1 else 0
      ensures writeCount == if !m.Write? then old(writeCount) else if old(writeCount) + 1 >= 10 then 0 else old(writeCount) + 1
    {
      match m {
        case Ready(_) =>
          finishedNodes := finishedNodes + 1;
        case Read(value) =>
          var _ := replica.ExecuteTransaction(TransactionData(READ, value));
        case Write(data) =>
          var _ := replica.ExecuteTransaction(data);
          CountWrite();
          handler.SendMsg(src, Ready(data.value));
        case _ =>
          mutex.HandleMsg(src, m);
      }
    }

    // ExecuteTransaction, a READ: the value the replica holds is shown, nothing else happens.
    method ExecuteRead(value: int) returns (shown: seq<int>)
      requires Valid()
      modifies replica
      ensures View() == old(View()) && shown == [View().version]
    {
      shown := replica.ExecuteTransaction(TransactionData(READ, value));
    }

    // ExecuteTransaction, a write, up to the wait in requestCS.
    method RequestSection()
      requires Valid() && Connected()
      modifies mutex, mutex.clock, handler.links
      ensures Valid() && View() == Requested(old(View()), handler.id)
      ensures handler.links.net == Broadcast(old(handler.links.net), handler.id, Core(), Request(Get(View().queue, handler.id)))
      ensures handler.id in mutex.requestQ
      ensures SentTo(old(handler.links.net), handler.links.net, handler.id, handler.layers[0], handler.sockets,
                     Request(mutex.requestQ[handler.id]))
    {
      AllLive(handler.GetLayer(CORE_LAYER), handler.sockets);
      mutex.RequestCS();
    }

    // The wait's condition.
    method MayEnter() returns (okey: bool)
      requires Valid()
      ensures okey <==> Okey(View(), handler.id, Core())
      ensures okey <==> (handler.id in mutex.requestQ ==> forall other :: other in handler.layers[0] ==>
        && (other in mutex.requestQ ==> mutex.ComesFirst(mutex.requestQ[other], other))
        && mutex.ComesFirst(if other in mutex.clock.ticks then mutex.clock.ticks[other] else 0, other))
    {
      okey := mutex.OkeyCS();
      assert handler.id in View().queue ==> forall other :: other in Core() ==>
        (Yields(View(), handler.id, other) <==>
          && (other in mutex.requestQ ==> !IsGreater(mutex.requestQ[mutex.id], mutex.id, mutex.requestQ[other], other))
          && !IsGreater(mutex.requestQ[mutex.id], mutex.id, Get(mutex.clock.ticks, other), other));
    }

    // Inside the section: the write goes to every peer ...
    method SendToPeers(data: TransactionData)
      requires Valid() && Connected()
      modifies handler.links
      ensures Valid() && View() == old(View())
      ensures handler.links.net == Broadcast(old(handler.links.net), handler.id, Core(), Write(data))
      ensures SentTo(old(handler.links.net), handler.links.net, handler.id, handler.layers[0], handler.sockets, Write(data))
    {
      AllLive(handler.GetLayer(CORE_LAYER), handler.sockets);
      BroadcastReaches(handler.links.net, handler.id, handler.layers[0], handler.sockets, Write(data));
      var peers := handler.GetLayer(CORE_LAYER);
      var k := 0;
      while k < |peers|
        invariant 0 <= k <= |peers|
        invariant Broadcast(handler.links.net, handler.id, peers[k..], Write(data))
               == Broadcast(old(handler.links.net), handler.id, peers, Write(data))
      {
        assert peers[k..][0] == peers[k] && peers[k..][1..] == peers[k + 1..];
        assert peers[k] in handler.GetLayer(CORE_LAYER);
        handler.SendMsg(peers[k], Write(data));
        k := k + 1;
      }
    }

    // ... is applied here ...
    method ApplyLocally(data: TransactionData)
      requires Valid()
      modifies replica
      ensures Valid() && View() == old(View()).(version := Execute(old(View()).version, data))
    {
      var _ := replica.ExecuteTransaction(data);
    }

    // ... and, when there is a READY from every peer, is over.
    method CollectReadies() returns (done: bool)
      requires Valid()
      modifies this
      ensures Valid() && (done <==> old(View()).finished == |Core()|)
      ensures done <==> old(finishedNodes) == |handler.layers[0]|
      ensures finishedNodes == if done then 0 else old(finishedNodes)
      ensures View() == if done then old(View()).(finished := 0) else old(View())
    {
      done := finishedNodes == |handler.GetLayer(CORE_LAYER)|;
      if done {
        finishedNodes := 0;
      }
    }

    method ReleaseSection()
      requires Valid() && Connected()
      modifies mutex, handler.links
      ensures Valid() && View() == old(View()).(queue := Erase(old(View()).queue, handler.id))
      ensures handler.links.net ==
        Broadcast(old(handler.links.net), handler.id, Core(), Release(Get(View().ticks, handler.id)))
      ensures SentTo(old(handler.links.net), handler.links.net, handler.id, handler.layers[0], handler.sockets,
                     Release(if handler.id in mutex.clock.ticks then mutex.clock.ticks[handler.id] else 0))
    {
      AllLive(handler.GetLayer(CORE_LAYER), handler.sockets);
      mutex.ReleaseCS();
    }
  }

  // src/nodes/LayerOneNode.cpp, LayerTwoNode.cpp (which only handles messages)
  class LowerNode {
    const handler: MsgHandler
    const replica: Transaction

    constructor (handler: MsgHandler)
      ensures this.handler == handler && fresh(replica) && replica.version == 0
    {
      this.handler := handler;
      replica := new Transaction(0);
    }

    // One turn of LayerOneNode::Run.
    method Tick()
      modifies handler.links
      ensures handler.links.net ==
        Broadcast(old(handler.links.net), handler.id, Live(handler.GetLayer(LAYER_TWO), handler.sockets), Update(replica.version))
      ensures |handler.layers| == 3 ==>
        SentTo(old(handler.links.net), handler.links.net, handler.id, handler.layers[2], handler.sockets, Update(replica.version))
    {
      handler.BroadcastMsg(Update(replica.version), LAYER_TWO);
    }

    // SET overwrites, READ shows, anything else is reported and ignored.
    method HandleMsg(src: Id, m: Msg) returns (shown: seq<int>)
      modifies replica
      ensures replica.version == if m.Update? then m.version else old(replica.version)
      ensures shown == if m.Read? then [old(replica.version)] else []
    {
      shown := [];
      match m {
        case Update(v) => shown := replica.ExecuteTransaction(TransactionData(SET, v));
        case Read(v) => shown := replica.ExecuteTransaction(TransactionData(READ, v));
        case _ =>
      }
    }
  }
}
