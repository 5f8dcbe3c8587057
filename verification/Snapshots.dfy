// What layer-one and layer-two nodes hold, and when they have caught up.
module Snapshots {
  import opened Basics
  import opened Transactions
  import opened Protocol
  import opened Mutex
  import opened Replication
  import opened Epidemic
  import opened System
  import opened Guarantees

  // n rounded down to a multiple of UPDATE_COUNT.
  function Rounded(n: nat): (r: nat)
    ensures r <= n < r + UPDATE_COUNT && r % UPDATE_COUNT == 0 && r == 10 * (n / 10)
  {
    n - n % UPDATE_COUNT
  }

  lemma KidIsBelow(c: Config, p: Id, k: Id)
    requires Forest(c) && k in Kids(c, p)
    ensures IsBelow(c, k)
  {
  }

  // Every node below the core holds the fold of the first 10*r core writes, for its round r.
  lemma HoldsSnapshot(c: Config, scripts: map<Id, seq<TransactionData>>, s: State, k: Id)
    requires Reachable(c, scripts, s) && IsBelow(c, k)
    ensures k in s.below && k in s.rounds && s.rounds[k] != []
    ensures 10 * s.rounds[k][0] <= |s.log|
    ensures s.below[k] == Fold(Datas(s.log)[..10 * s.rounds[k][0]])
  {
    Always(c, scripts, s);
    assert Held(s, k);
  }

  // So does every SET on its way to a node, each for a round no earlier than the one before.
  lemma CarriesSnapshots(c: Config, scripts: map<Id, seq<TransactionData>>, s: State, p: Id, k: Id, x: nat)
    requires Reachable(c, scripts, s) && k in Kids(c, p) && x < |Chan(s.net, p, k)|
    ensures k in s.rounds && x + 1 < |s.rounds[k]| && s.rounds[k][x] <= s.rounds[k][x + 1]
    ensures 10 * s.rounds[k][x + 1] <= |s.log|
    ensures Chan(s.net, p, k)[x] == Update(Fold(Datas(s.log)[..10 * s.rounds[k][x + 1]]))
  {
    Always(c, scripts, s);
    KidIsBelow(c, p, k);
    assert EdgeOk(s, p, k);
    StreamAt(s.log, Chan(s.net, p, k), s.rounds[k], x);
  }

  lemma StreamAt(log: seq<Grant>, ch: seq<Msg>, rs: seq<nat>, x: nat)
    requires Stream(log, ch, rs) && x < |ch|
    ensures rs[x] <= rs[x + 1] && UPDATE_COUNT * rs[x + 1] <= |log|
    ensures ch[x] == Update(Fold(Datas(log)[..UPDATE_COUNT * rs[x + 1]]))
  {
    assert x + 1 < |ch| ==> rs[x + 1] <= rs[|ch|];
    assert ch[x] == Update(Snap(log, rs[x + 1]));
  }

  // A child, and what is on its way to it, never overtakes its parent: not the ten-fold
  // writes a core parent has counted, nor the round a layer-one parent holds.
  lemma ChildNeverAhead(c: Config, scripts: map<Id, seq<TransactionData>>, s: State, p: Id, k: Id, x: nat)
    requires Reachable(c, scripts, s) && k in Kids(c, p) && k in s.rounds && x < |s.rounds[k]|
    ensures p in s.node ==> 10 * s.rounds[k][x] <= |s.node[p].applied|
    ensures p !in s.node ==> p in s.rounds && s.rounds[p] != [] && s.rounds[k][x] <= s.rounds[p][0]
  {
    Always(c, scripts, s);
    assert EdgeOk(s, p, k);
    assert x < |s.rounds[k]| - 1 ==> s.rounds[k][x] <= s.rounds[k][|s.rounds[k]| - 1];
    if p in s.node {
      assert CountOk(s.node[p]);
    } else {
      assert Held(s, p);
    }
  }

  lemma RoundStep(c: Config, s: State, a: Action, k: Id)
    requires Enabled(c, s, a) && k in s.rounds && s.rounds[k] != []
    requires a.DeliverUpdate? && a.k == k ==> |s.rounds[k]| > 1 && s.rounds[k][0] <= s.rounds[k][1]
    ensures k in Exec(c, s, a).rounds && Exec(c, s, a).rounds[k] != []
    ensures s.rounds[k][0] <= Exec(c, s, a).rounds[k][0]
  {
  }

  // The round a node holds never goes back.
  lemma RoundsOnlyGrow(c: Config, scripts: map<Id, seq<TransactionData>>, s: State, a: Action, k: Id)
    requires Inv(c, scripts, s) && Enabled(c, s, a) && Gate(s, a) && IsBelow(c, k)
    ensures k in s.rounds && s.rounds[k] != []
    ensures k in Exec(c, s, a).rounds && Exec(c, s, a).rounds[k] != []
    ensures s.rounds[k][0] <= Exec(c, s, a).rounds[k][0]
  {
    assert Held(s, k);
    if a.DeliverUpdate? && a.k == k {
      assert EdgeOk(s, a.i, k);
      StreamPop(s.log, Chan(s.net, a.i, k), s.rounds[k]);
    }
    RoundStep(c, s, a, k);
  }

  lemma {:induction false} RoundsGrowAlong(c: Config, scripts: map<Id, seq<TransactionData>>, s: State, run: seq<Action>, k: Id)
    requires Inv(c, scripts, s) && Run(c, s, run) && IsBelow(c, k)
    ensures k in s.rounds && s.rounds[k] != []
    ensures k in After(c, s, run).rounds && After(c, s, run).rounds[k] != []
    ensures s.rounds[k][0] <= After(c, s, run).rounds[k][0]
    decreases |run|
  {
    assert Held(s, k);
    if run == [] {
    } else {
      RoundsOnlyGrow(c, scripts, s, run[0], k);
      InvStep(c, scripts, s, run[0]);
      RoundsGrowAlong(c, scripts, Exec(c, s, run[0]), run[1..], k);
    }
  }

  // m_WriteCount follows the length of the replica's own log, so every core node sends
  // its SETs after the same writes.
  lemma WriteCountsAgree(c: Config, scripts: map<Id, seq<TransactionData>>, s: State, i: Id, j: Id)
    requires Reachable(c, scripts, s) && i in s.node && j in s.node
    ensures !s.node[i].phase.Counting? ==> s.node[i].local.writeCount == |s.node[i].applied| % 10
    ensures Quiescent(s) ==> s.node[i].local.writeCount == s.node[j].local.writeCount == |s.log| % 10
  {
    Always(c, scripts, s);
    assert CountOk(s.node[i]) && CountOk(s.node[j]);
    ReplicaIsPrefix(c, s, i);
    ReplicaIsPrefix(c, s, j);
  }

  // n writes done and its channel drained, a layer-one node is fewer than ten writes behind.
  lemma LayerOneConverges(c: Config, scripts: map<Id, seq<TransactionData>>, s: State, p: Id, k: Id)
    requires Reachable(c, scripts, s) && Quiescent(s)
    requires p in s.node && k in Kids(c, p) && Chan(s.net, p, k) == []
    ensures k in s.below && s.below[k] == Fold(Datas(s.log)[..Rounded(|s.log|)])
  {
    Always(c, scripts, s);
    assert EdgeOk(s, p, k) && IsBelow(c, k) && Held(s, k) && CountOk(s.node[p]);
    ReplicaIsPrefix(c, s, p);
    DrainedRound(s, p, k);
    RoundIsRounded(s, k);
  }

  lemma DrainedRound(s: State, p: Id, k: Id)
    requires p in s.node && k in s.rounds && EdgeOk(s, p, k) && Chan(s.net, p, k) == []
    requires !s.node[p].phase.Counting? && |s.node[p].applied| == |s.log|
    ensures s.rounds[k] == [|s.log| / UPDATE_COUNT]
  {
  }

  lemma RoundIsRounded(s: State, k: Id)
    requires Held(s, k) && s.rounds[k][0] == |s.log| / UPDATE_COUNT
    ensures s.below[k] == Fold(Datas(s.log)[..Rounded(|s.log|)])
  {
    assert UPDATE_COUNT * s.rounds[k][0] == Rounded(|s.log|);
  }

  // Everything layer-one node k holds has been sent to its child m.
  ghost predicate InStep(s: State, k: Id, m: Id) {
    && k in s.rounds && m in s.rounds && s.rounds[k] != [] && s.rounds[m] != []
    && s.rounds[m][|s.rounds[m]| - 1] == s.rounds[k][0]
  }

  predicate OnlyLower(run: seq<Action>) {
    forall a :: a in run ==> !IsCore(a)
  }

  lemma TickSends(c: Config, s: State, k: Id, m: Id)
    requires Enabled(c, s, Tick(k)) && m in Kids(c, k) && m != k && k !in Kids(c, k) && m in s.rounds
    ensures InStep(Exec(c, s, Tick(k)), k, m)
  {
  }

  lemma TickKeeps(c: Config, s: State, k: Id, p: Id)
    requires Enabled(c, s, Tick(k)) && p != k && NoDup(Kids(c, k))
    ensures var s' := Exec(c, s, Tick(k));
      s'.log == s.log && s'.node == s.node && forall y :: Chan(s'.net, p, y) == Chan(s.net, p, y)
  {
  }

  lemma LowerKeepsInStep(c: Config, s: State, a: Action, p: Id, k: Id, m: Id)
    requires Forest(c) && Enabled(c, s, a) && !IsCore(a)
    requires p in c.cores && k in Kids(c, p) && m in Kids(c, k)
    requires Chan(s.net, p, k) == [] && InStep(s, k, m)
    requires NoDup(Kids(c, a.i))
    requires a.DeliverUpdate? && a.k == m ==> |s.rounds[m]| > 1
    ensures Chan(Exec(c, s, a).net, p, k) == [] && InStep(Exec(c, s, a), k, m)
    ensures Exec(c, s, a).log == s.log && Exec(c, s, a).node == s.node
  {
  }

  lemma {:induction false} InStepAlong(c: Config, scripts: map<Id, seq<TransactionData>>, s: State, run: seq<Action>, p: Id, k: Id, m: Id)
    requires Inv(c, scripts, s) && Run(c, s, run) && OnlyLower(run)
    requires p in c.cores && k in Kids(c, p) && m in Kids(c, k)
    requires Chan(s.net, p, k) == [] && InStep(s, k, m)
    ensures Chan(After(c, s, run).net, p, k) == [] && InStep(After(c, s, run), k, m)
    ensures After(c, s, run).log == s.log && After(c, s, run).node == s.node
    decreases |run|
  {
    if run == [] {
    } else {
      var a := run[0];
      assert a in run && NoDup(Kids(c, a.i));
      if a.DeliverUpdate? && a.k == m {
        assert EdgeOk(s, a.i, m);
      }
      LowerKeepsInStep(c, s, a, p, k, m);
      InvStep(c, scripts, s, a);
      assert forall b :: b in run[1..] ==> b in run;
      InStepAlong(c, scripts, Exec(c, s, a), run[1..], p, k, m);
    }
  }

  // Drained channels and nothing held back: the child is level with the log.
  lemma Level(c: Config, s: State, p: Id, k: Id, m: Id)
    requires MutexInv(c, s) && RepInv(c, s) && EpiInv(c, s) && Forest(c) && Quiescent(s)
    requires p in c.cores && k in Kids(c, p) && m in Kids(c, k)
    requires Chan(s.net, p, k) == [] && Chan(s.net, k, m) == [] && InStep(s, k, m)
    ensures m in s.below && s.below[m] == Fold(Datas(s.log)[..Rounded(|s.log|)])
  {
    assert EdgeOk(s, p, k) && EdgeOk(s, k, m) && Held(s, m) && CountOk(s.node[p]);
    ReplicaIsPrefix(c, s, p);
    DrainedRound(s, p, k);
    RoundIsRounded(s, m);
  }

  lemma AfterTick(c: Config, scripts: map<Id, seq<TransactionData>>, s: State, p: Id, k: Id, m: Id)
    requires Inv(c, scripts, s) && p in s.node && k in Kids(c, p) && m in Kids(c, k)
    requires Enabled(c, s, Tick(k)) && Chan(s.net, p, k) == []
    ensures var s1 := Exec(c, s, Tick(k));
      Inv(c, scripts, s1) && InStep(s1, k, m) && Chan(s1.net, p, k) == [] && s1.log == s.log && s1.node == s.node
  {
    assert IsBelow(c, m) && Held(s, m);
    TickSends(c, s, k, m);
    TickKeeps(c, s, k, p);
    InvStep(c, scripts, s, Tick(k));
  }

  // Layer-one nodes can always tick; and after one further tick of its parent and any
  // draining, a layer-two node is level.
  // (Inv holds in every reachable state, by Always.)
  lemma LayerTwoConverges(c: Config, scripts: map<Id, seq<TransactionData>>, s: State, drain: seq<Action>, p: Id, k: Id, m: Id)
    requires Inv(c, scripts, s) && Quiescent(s)
    requires p in s.node && k in Kids(c, p) && m in Kids(c, k) && Chan(s.net, p, k) == []
    ensures Enabled(c, s, Tick(k))
    ensures var s1 := Exec(c, s, Tick(k));
      Run(c, s1, drain) && OnlyLower(drain) && Chan(After(c, s1, drain).net, k, m) == [] ==>
        m in After(c, s1, drain).below && After(c, s1, drain).below[m] == Fold(Datas(s.log)[..Rounded(|s.log|)])
  {
    KidIsBelow(c, p, k);
    assert Held(s, k);
    var s1 := Exec(c, s, Tick(k));
    AfterTick(c, scripts, s, p, k, m);
    DrainedLevel(c, scripts, s1, drain, p, k, m);
  }

  lemma DrainedLevel(c: Config, scripts: map<Id, seq<TransactionData>>, s: State, drain: seq<Action>, p: Id, k: Id, m: Id)
    requires Inv(c, scripts, s) && Quiescent(s)
    requires p in c.cores && k in Kids(c, p) && m in Kids(c, k) && Chan(s.net, p, k) == [] && InStep(s, k, m)
    ensures Run(c, s, drain) && OnlyLower(drain) && Chan(After(c, s, drain).net, k, m) == [] ==>
      m in After(c, s, drain).below && After(c, s, drain).below[m] == Fold(Datas(s.log)[..Rounded(|s.log|)])
  {
    if Run(c, s, drain) && OnlyLower(drain) && Chan(After(c, s, drain).net, k, m) == [] {
      InStepAlong(c, scripts, s, drain, p, k, m);
      InvRun(c, scripts, s, drain);
      Level(c, After(c, s, drain), p, k, m);
    }
  }
}
