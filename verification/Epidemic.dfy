// Propagation below the core: every tenth write a core node sends a snapshot to its
// layer-one nodes, which pass what they hold on to layer two.
module Epidemic {
  import opened Basics
  import opened Transactions
  import opened Protocol
  import opened Mutex
  import opened Replication

  // The value after the first 10*r writes of the log.
  function Snap(log: seq<Grant>, r: nat): int {
    if UPDATE_COUNT * r <= |log| then Fold(Datas(log)[..UPDATE_COUNT * r]) else 0
  }

  // Writes node n has both applied and counted.
  function Counted(n: Node): int {
    if n.phase.Counting? then |n.applied| - 1 else |n.applied|
  }

  // m_WriteCount runs modulo UPDATE_COUNT, wherever the writes came from.
  predicate CountOk(n: Node) {
    Counted(n) >= 0 && n.local.writeCount == Counted(n) % UPDATE_COUNT
  }

  // The last round node p has sent, or may send, to the nodes below it.
  function Top(s: State, p: Id): int {
    if p in s.node then Counted(s.node[p]) / UPDATE_COUNT
    else if p in s.rounds && s.rounds[p] != [] then s.rounds[p][0]
    else 0
  }

  // Node k below the core holds the snapshot of the round it is on.
  predicate Held(s: State, k: Id) {
    && k in s.below && k in s.rounds && s.rounds[k] != []
    && UPDATE_COUNT * s.rounds[k][0] <= |s.log| && s.below[k] == Snap(s.log, s.rounds[k][0])
  }

  ghost predicate Sorted(rs: seq<nat>) {
    forall x, y {:trigger rs[x], rs[y]} :: 0 <= x < y < |rs| ==> rs[x] <= rs[y]
  }

  // The channel p -> k carries snapshots only, of the rounds after the one k holds, in order.
  ghost predicate Stream(log: seq<Grant>, ch: seq<Msg>, rs: seq<nat>) {
    && |rs| == |ch| + 1 && Sorted(rs) && UPDATE_COUNT * rs[|ch|] <= |log|
    && (forall x {:trigger ch[x]} :: 0 <= x < |ch| ==> ch[x] == Update(Snap(log, rs[x + 1])))
  }

  // p's children never overtake p; a core node's children are sent every round it counts.
  ghost predicate EdgeOk(s: State, p: Id, k: Id)
    requires k in s.rounds
  {
    && Stream(s.log, Chan(s.net, p, k), s.rounds[k])
    && s.rounds[k][|s.rounds[k]| - 1] <= Top(s, p)
    && (p in s.node ==> s.rounds[k][|s.rounds[k]| - 1] == Top(s, p))
  }

  // Every node below the core, parented or not.
  predicate IsBelow(c: Config, k: Id) {
    k in c.layerOne || k in c.layerTwo
  }

  ghost predicate EpiInv(c: Config, s: State) {
    && (forall k :: k in s.below <==> IsBelow(c, k))
    && (forall k :: k in s.rounds <==> IsBelow(c, k))
    && (forall i {:trigger CountOk(s.node[i])} :: i in s.node ==> CountOk(s.node[i]))
    && (forall k {:trigger Held(s, k)} :: IsBelow(c, k) ==> Held(s, k))
    && (forall p, k {:trigger EdgeOk(s, p, k)} :: k in Kids(c, p) && k in s.rounds ==> EdgeOk(s, p, k))
  }

  lemma EpiInit(c: Config, scripts: map<Id, seq<TransactionData>>)
    requires Forest(c)
    ensures EpiInv(c, Init(c, scripts))
  {
    var s := Init(c, scripts);
    InitHistory(c, scripts);
    forall p, k | k in Kids(c, p) && k in s.rounds ensures EdgeOk(s, p, k) {
      InitEdge(s, p, k);
    }
  }

  lemma InitHistory(c: Config, scripts: map<Id, seq<TransactionData>>)
    ensures var s := Init(c, scripts);
      && s.net == map[] && s.log == []
      && (forall k :: k in s.below <==> IsBelow(c, k)) && (forall k :: k in s.rounds <==> IsBelow(c, k))
      && (forall k :: k in s.rounds ==> s.rounds[k] == [0])
      && (forall k {:trigger Held(s, k)} :: IsBelow(c, k) ==> Held(s, k))
      && (forall i {:trigger s.node[i]} :: i in s.node ==> CountOk(s.node[i]) && Counted(s.node[i]) == 0)
  {
    assert Snap([], 0) == 0;
  }

  lemma InitEdge(s: State, p: Id, k: Id)
    requires s.net == map[] && s.log == [] && k in s.rounds && s.rounds[k] == [0]
    requires p in s.node ==> Counted(s.node[p]) == 0
    requires p in s.rounds ==> s.rounds[p] == [0]
    ensures EdgeOk(s, p, k)
  {
  }

  // A longer log has the same snapshots.
  lemma SnapStable(log: seq<Grant>, g: Grant, r: nat)
    requires UPDATE_COUNT * r <= |log|
    ensures Snap(log + [g], r) == Snap(log, r)
  {
    DatasSnoc(log, g);
    assert Datas(log + [g])[..UPDATE_COUNT * r] == Datas(log)[..UPDATE_COUNT * r];
  }

  lemma StreamStable(log: seq<Grant>, g: Grant, ch: seq<Msg>, rs: seq<nat>)
    requires Stream(log, ch, rs)
    ensures Stream(log + [g], ch, rs)
  {
    forall x | 0 <= x < |ch| ensures ch[x] == Update(Snap(log + [g], rs[x + 1])) {
      assert rs[x + 1] <= rs[|ch|];
      SnapStable(log, g, rs[x + 1]);
    }
  }

  lemma StreamAppend(log: seq<Grant>, ch: seq<Msg>, rs: seq<nat>, r: nat)
    requires Stream(log, ch, rs) && rs[|ch|] <= r && UPDATE_COUNT * r <= |log|
    ensures Stream(log, ch + [Update(Snap(log, r))], rs + [r])
  {
    var rs' := rs + [r];
    forall x, y | 0 <= x < y < |rs'| ensures rs'[x] <= rs'[y] {
      assert x <= |ch| && (x < |ch| ==> rs[x] <= rs[|ch|]);
    }
  }

  lemma StreamPop(log: seq<Grant>, ch: seq<Msg>, rs: seq<nat>)
    requires Stream(log, ch, rs) && ch != []
    ensures Stream(log, ch[1..], rs[1..])
    ensures rs[0] <= rs[1] && UPDATE_COUNT * rs[1] <= |log| && ch[0] == Update(Snap(log, rs[1]))
  {
    assert rs[1] <= rs[|ch|];
    forall x | 0 <= x < |ch[1..]| ensures ch[1..][x] == Update(Snap(log, rs[1..][x + 1])) {
      assert ch[x + 1] == Update(Snap(log, rs[x + 2]));
    }
  }

  // --------------------------------------------------------------- the steps

  // Steps after which the same snapshots are held, on the wire and due.
  predicate IsPlain(s: State, a: Action) {
    || a.Show? || a.Start? || a.SendRequest? || a.SendWrite? || a.ApplyLocal? || a.Collect?
    || a.Leave? || a.SendRelease? || a.Return?
    || (a.Deliver? && Chan(s.net, a.i, a.j) != [] && !Chan(s.net, a.i, a.j)[0].Write?)
  }

  lemma PlainNode(c: Config, s: State, a: Action, i: Id)
    requires Enabled(c, s, a) && (IsPlain(s, a) || a.Enter?) && i in s.node && CountOk(s.node[i])
    ensures i in Exec(c, s, a).node && Counted(Exec(c, s, a).node[i]) == Counted(s.node[i]) && CountOk(Exec(c, s, a).node[i])
  {
  }

  // Where the core threads send: to core nodes only.
  lemma SendsToCore(c: Config, s: State, a: Action)
    requires MutexInv(c, s) && RepInv(c, s) && Enabled(c, s, a)
    ensures (a.SendRequest? || a.SendRelease? || a.SendWrite?) ==> s.node[a.i].phase.unsent[0] in s.node
  {
    if a.SendRequest? || a.SendRelease? || a.SendWrite? {
      assert NodeOk(c, a.i, s.node[a.i]) && NodeRep(c, a.i, s.node[a.i]);
      var d := s.node[a.i].phase.unsent[0];
      assert d in Unrequested(s.node[a.i]) || d in Unreleased(s.node[a.i]) || d in Unsent(s.node[a.i]);
      assert d in Peers(c, a.i);
    }
  }

  lemma PlainChannel(c: Config, s: State, a: Action, p: Id, k: Id)
    requires Enabled(c, s, a) && (IsPlain(s, a) || a.Enter?) && k !in s.node
    requires (a.SendRequest? || a.SendRelease? || a.SendWrite?) ==> s.node[a.i].phase.unsent[0] in s.node
    ensures Chan(Exec(c, s, a).net, p, k) == Chan(s.net, p, k)
  {
  }

  lemma PlainRest(c: Config, s: State, a: Action)
    requires Enabled(c, s, a) && (IsPlain(s, a) || a.Enter?)
    ensures Exec(c, s, a).below == s.below && Exec(c, s, a).rounds == s.rounds
    ensures !a.Enter? ==> Exec(c, s, a).log == s.log
    ensures forall i :: i in Exec(c, s, a).node <==> i in s.node
  {
  }

  lemma EpiPlain(c: Config, s: State, a: Action)
    requires MutexInv(c, s) && RepInv(c, s) && EpiInv(c, s) && Forest(c)
    requires Enabled(c, s, a) && IsPlain(s, a)
    ensures EpiInv(c, Exec(c, s, a))
  {
    var s' := Exec(c, s, a);
    PlainRest(c, s, a);
    forall i | i in s'.node ensures CountOk(s'.node[i]) {
      assert CountOk(s.node[i]);
      PlainNode(c, s, a, i);
    }
    forall k | IsBelow(c, k) ensures Held(s', k) {
      assert Held(s, k);
    }
    SendsToCore(c, s, a);
    forall p, k | k in Kids(c, p) && k in s'.rounds ensures EdgeOk(s', p, k) {
      assert EdgeOk(s, p, k);
      assert p in s.node ==> CountOk(s.node[p]);
      PlainEdge(c, s, a, p, k);
    }
  }

  lemma PlainEdge(c: Config, s: State, a: Action, p: Id, k: Id)
    requires Enabled(c, s, a) && IsPlain(s, a) && k !in s.node
    requires (a.SendRequest? || a.SendRelease? || a.SendWrite?) ==> s.node[a.i].phase.unsent[0] in s.node
    requires k in s.rounds && EdgeOk(s, p, k) && (p in s.node ==> CountOk(s.node[p]))
    ensures k in Exec(c, s, a).rounds && EdgeOk(Exec(c, s, a), p, k)
  {
    PlainRest(c, s, a);
    PlainChannel(c, s, a, p, k);
    if p in s.node {
      PlainNode(c, s, a, p);
    }
  }

  lemma EpiEnter(c: Config, s: State, i: Id)
    requires EpiInv(c, s) && Enabled(c, s, Enter(i))
    requires forall p, k :: k in Kids(c, p) ==> k !in s.node
    ensures EpiInv(c, Exec(c, s, Enter(i)))
  {
    var s' := Exec(c, s, Enter(i));
    var g := s'.log[|s.log|];
    PlainRest(c, s, Enter(i));
    forall x | x in s'.node ensures CountOk(s'.node[x]) {
      assert CountOk(s.node[x]);
      PlainNode(c, s, Enter(i), x);
    }
    forall k | IsBelow(c, k) ensures Held(s', k) {
      assert Held(s, k);
      SnapStable(s.log, g, s.rounds[k][0]);
    }
    forall p, k | k in Kids(c, p) && k in s'.rounds ensures EdgeOk(s', p, k) {
      assert EdgeOk(s, p, k);
      PlainChannel(c, s, Enter(i), p, k);
      StreamStable(s.log, g, Chan(s.net, p, k), s.rounds[k]);
      if p in s.node {
        assert CountOk(s.node[p]);
        PlainNode(c, s, Enter(i), p);
      }
    }
  }

  // One more write counted: the counter and the round move together.
  lemma CountUp(n: Node, n': Node)
    requires CountOk(n) && Counted(n') == Counted(n) + 1
    requires n'.local.writeCount == CountedWrite(n.local).writeCount
    ensures CountOk(n')
    ensures CountIsFull(n.local) <==> Counted(n') % UPDATE_COUNT == 0
    ensures CountIsFull(n.local) ==> Counted(n') / UPDATE_COUNT == Counted(n) / UPDATE_COUNT + 1
    ensures !CountIsFull(n.local) ==> Counted(n') / UPDATE_COUNT == Counted(n) / UPDATE_COUNT
  {
  }

  // s' is s after core node p, caught up with the log, has counted its last write and,
  // if the counter was full, sent the round to its children.
  ghost predicate CountStep(c: Config, s: State, p: Id, s': State) {
    && p in s.node && p in s'.node
    && s'.node == s.node[p := s'.node[p]] && s'.log == s.log && s'.below == s.below
    && Counted(s'.node[p]) == Counted(s.node[p]) + 1
    && s'.node[p].local.writeCount == CountedWrite(s.node[p].local).writeCount
    && s'.node[p].applied == Datas(s.log) && !s'.node[p].phase.Counting?
    && s'.node[p].local.version == Fold(s'.node[p].applied)
    && s'.rounds == (if CountIsFull(s.node[p].local)
                     then Emit(s.rounds, Kids(c, p), |s'.node[p].applied| / UPDATE_COUNT) else s.rounds)
    && (forall x, k {:trigger Chan(s'.net, x, k)} :: k !in s.node ==>
          Chan(s'.net, x, k) == if CountIsFull(s.node[p].local) && x == p && k in Kids(c, p)
                                then Chan(s.net, x, k) + [Update(s'.node[p].local.version)] else Chan(s.net, x, k))
  }

  lemma CountEdge(c: Config, s: State, p: Id, s': State, x: Id, k: Id)
    requires CountStep(c, s, p, s') && CountOk(s.node[p])
    requires k in Kids(c, x) && k !in s.node && k in s.rounds && EdgeOk(s, x, k)
    requires x != p ==> k !in Kids(c, p)
    requires x in s.rounds ==> s.rounds[x] != [] && x !in s.node
    ensures k in s'.rounds && EdgeOk(s', x, k)
  {
    var n, n' := s.node[p], s'.node[p];
    CountUp(n, n');
    if CountIsFull(n.local) && x == p {
      var r := |n'.applied| / UPDATE_COUNT;
      assert UPDATE_COUNT * r == |s.log| && Datas(s.log)[..UPDATE_COUNT * r] == Datas(s.log);
      StreamAppend(s.log, Chan(s.net, p, k), s.rounds[k], r);
    }
  }

  lemma EpiCounted(c: Config, s: State, p: Id, s': State)
    requires EpiInv(c, s) && Forest(c) && CountStep(c, s, p, s')
    requires forall i :: i in s.node <==> i in c.cores
    ensures EpiInv(c, s')
  {
    assert CountOk(s.node[p]);
    CountUp(s.node[p], s'.node[p]);
    forall i | i in s'.node ensures CountOk(s'.node[i]) {
      if i != p {
        assert CountOk(s.node[i]);
      }
    }
    forall k | IsBelow(c, k) ensures Held(s', k) {
      assert Held(s, k);
    }
    forall x, k | k in Kids(c, x) && k in s'.rounds ensures EdgeOk(s', x, k) {
      assert EdgeOk(s, x, k);
      assert x in s.rounds ==> Held(s, x);
      CountEdge(c, s, p, s', x, k);
    }
  }

  lemma EpiCount(c: Config, s: State, i: Id)
    requires MutexInv(c, s) && RepInv(c, s) && EpiInv(c, s) && Forest(c) && Enabled(c, s, Count(i))
    ensures EpiInv(c, Exec(c, s, Count(i)))
  {
    var s' := Exec(c, s, Count(i));
    assert Placed(s, i, i) && NodeRep(c, i, s.node[i]) && CountOk(s.node[i]);
    assert NoDup(Kids(c, i));
    EpiCounted(c, s, i, s');
  }

  lemma EpiDeliverWrite(c: Config, s: State, i: Id, j: Id)
    requires MutexInv(c, s) && RepInv(c, s) && EpiInv(c, s) && Forest(c)
    requires Enabled(c, s, Deliver(i, j)) && Chan(s.net, i, j)[0].Write?
    ensures EpiInv(c, Exec(c, s, Deliver(i, j)))
  {
    var s' := Exec(c, s, Deliver(i, j));
    assert NodeRep(c, j, s.node[j]) && NoDup(Kids(c, j));
    DeliverWriteNode(c, s, i, j);
    FoldSnoc(s.node[j].applied, Chan(s.net, i, j)[0].data);
    EpiCounted(c, s, j, s');
  }

  lemma TickEdge(c: Config, s: State, p: Id, x: Id, k: Id)
    requires Enabled(c, s, Tick(p)) && Held(s, p) && p !in s.node && NoDup(Kids(c, p))
    requires k in Kids(c, x) && k in s.rounds && EdgeOk(s, x, k)
    requires x != p ==> k !in Kids(c, p)
    ensures EdgeOk(Exec(c, s, Tick(p)), x, k)
  {
    if x == p {
      StreamAppend(s.log, Chan(s.net, p, k), s.rounds[k], s.rounds[p][0]);
    }
  }

  lemma EpiTick(c: Config, s: State, p: Id)
    requires EpiInv(c, s) && Forest(c) && Enabled(c, s, Tick(p)) && NoDup(Kids(c, p))
    requires forall i :: i in s.node <==> i in c.cores
    ensures EpiInv(c, Exec(c, s, Tick(p)))
  {
    var s' := Exec(c, s, Tick(p));
    forall i | i in s'.node ensures CountOk(s'.node[i]) {
      assert CountOk(s.node[i]);
    }
    forall k | IsBelow(c, k) ensures Held(s', k) {
      assert Held(s, k);
    }
    forall x, k | k in Kids(c, x) && k in s'.rounds ensures EdgeOk(s', x, k) {
      assert EdgeOk(s, x, k) && Held(s, p);
      TickEdge(c, s, p, x, k);
    }
  }

  lemma UpdateEdge(c: Config, s: State, i: Id, j: Id, x: Id, k: Id)
    requires Enabled(c, s, DeliverUpdate(i, j)) && EdgeOk(s, i, j) && i !in Kids(c, i)
    requires k in Kids(c, x) && k in s.rounds && EdgeOk(s, x, k) && (k == j ==> x == i) && j !in s.node
    ensures EdgeOk(Exec(c, s, DeliverUpdate(i, j)), x, k)
  {
    StreamPop(s.log, Chan(s.net, i, j), s.rounds[j]);
  }

  lemma EpiDeliverUpdate(c: Config, s: State, i: Id, j: Id)
    requires EpiInv(c, s) && Forest(c) && Enabled(c, s, DeliverUpdate(i, j))
    requires forall i :: i in s.node <==> i in c.cores
    ensures EpiInv(c, Exec(c, s, DeliverUpdate(i, j)))
  {
    var s' := Exec(c, s, DeliverUpdate(i, j));
    assert EdgeOk(s, i, j);
    StreamPop(s.log, Chan(s.net, i, j), s.rounds[j]);
    forall x | x in s'.node ensures CountOk(s'.node[x]) {
      assert CountOk(s.node[x]);
    }
    forall k | IsBelow(c, k) ensures Held(s', k) {
      assert Held(s, k);
    }
    forall x, k | k in Kids(c, x) && k in s'.rounds ensures EdgeOk(s', x, k) {
      assert EdgeOk(s, x, k);
      UpdateEdge(c, s, i, j, x, k);
    }
  }

  lemma EpiStep(c: Config, s: State, a: Action)
    requires MutexInv(c, s) && RepInv(c, s) && EpiInv(c, s) && Forest(c) && Enabled(c, s, a)
    ensures EpiInv(c, Exec(c, s, a))
  {
    match a {
      case Enter(i) => EpiEnter(c, s, i);
      case Count(i) => EpiCount(c, s, i);
      case Tick(i) => EpiTick(c, s, i);
      case DeliverUpdate(i, k) => EpiDeliverUpdate(c, s, i, k);
      case Deliver(i, j) =>
        if Chan(s.net, i, j)[0].Write? {
          EpiDeliverWrite(c, s, i, j);
        } else {
          EpiPlain(c, s, a);
        }
      case _ => EpiPlain(c, s, a);
    }
  }
}
