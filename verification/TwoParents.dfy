// Why the layers below the core must be a forest: a layer-two node updated by two layer-one
// nodes goes back to an older snapshot when the one that is behind ticks last.
module TwoParents {
  import opened Transactions
  import opened Protocol
  import opened System

  // Core node 1 updates 2; both 2 and 3 update 4.
  const TANGLED := Config([1], {2, 3}, {4}, map[1 := []], map[1 := [2], 2 := [4], 3 := [4]])
  const ONE := TransactionData(SUM, 1)

  function Ones(n: nat): seq<TransactionData> {
    if n == 0 then [] else [ONE] + Ones(n - 1)
  }

  const TEN_WRITES: map<Id, seq<TransactionData>> := map[1 := Ones(10)]

  // Core node 1 has done n of its writes and is between two of them.
  ghost predicate Resting(s: State, n: nat, left: nat) {
    && 1 in s.node && s.node[1].phase.Idle? && s.node[1].todo == Ones(left)
    && s.node[1].local.queue == map[] && s.node[1].local.finished == 0
    && s.node[1].local.writeCount == n && s.node[1].local.version == n
  }

  // Node 1 has applied its next write, and not yet counted it.
  ghost predicate Applied(s: State, n: nat, left: nat) {
    && 1 in s.node && s.node[1].phase.Counting? && s.node[1].todo == Ones(left)
    && s.node[1].local.queue.Keys == {1} && s.node[1].local.finished == 0
    && s.node[1].local.writeCount == n && s.node[1].local.version == n + 1
  }

  // Nothing below the core has changed.
  predicate SameBelow(s: State, s': State) {
    s'.below == s.below && s'.net == s.net && s'.rounds == s.rounds
  }

  lemma Apply(s: State, n: nat, left: nat) returns (s': State)
    requires Resting(s, n, left + 1)
    ensures Leads(TANGLED, true, s, s') && Applied(s', n, left) && SameBelow(s, s')
  {
    assert Ones(left + 1)[0] == ONE && Ones(left + 1)[1..] == Ones(left);
    var s1 := Exec(TANGLED, s, Start(1));
    var s2 := Exec(TANGLED, s1, Enter(1));
    s' := Exec(TANGLED, s2, ApplyLocal(1));
    LeadsStep(TANGLED, true, s, Start(1));
    LeadsStep(TANGLED, true, s1, Enter(1));
    LeadsStep(TANGLED, true, s2, ApplyLocal(1));
    LeadsOn(TANGLED, true, s, s1, s2);
    LeadsOn(TANGLED, true, s, s2, s');
  }

  // The write is counted, and a tenth one is reported to node 2.
  lemma CountIt(s: State, n: nat, left: nat) returns (s': State)
    requires Applied(s, n, left) && 2 in s.rounds
    ensures Leads(TANGLED, true, s, s')
    ensures n < 9 ==> Resting(s', n + 1, left) && SameBelow(s, s')
    ensures n >= 9 ==> s'.below == s.below && s'.net == Send(s.net, 1, 2, Update(n + 1))
    ensures n >= 9 ==> s'.rounds.Keys == s.rounds.Keys && |s'.rounds[2]| == |s.rounds[2]| + 1
    ensures n >= 9 ==> forall k :: k in s.rounds && k != 2 ==> s'.rounds[k] == s.rounds[k]
  {
    var s1 := Exec(TANGLED, s, Count(1));
    assert [2][1..] == [] && Broadcast(s.net, 1, [2], Update(n + 1)) == Broadcast(Send(s.net, 1, 2, Update(n + 1)), 1, [], Update(n + 1));
    LeadsStep(TANGLED, true, s, Count(1));
    s' := Finish(s1);
    LeadsOn(TANGLED, true, s, s1, s');
  }

  // With no peers, what remains of a write touches nobody else.
  lemma Finish(s: State) returns (s': State)
    requires 1 in s.node && s.node[1].phase.Awaiting? && s.node[1].local.finished == 0
    requires s.node[1].local.queue.Keys == {1}
    ensures Leads(TANGLED, true, s, s') && SameBelow(s, s') && 1 in s'.node
    ensures s'.node[1].phase.Idle? && s'.node[1].todo == s.node[1].todo
    ensures s'.node[1].local.queue == map[] && s'.node[1].local.finished == 0
    ensures s'.node[1].local.writeCount == s.node[1].local.writeCount && s'.node[1].local.version == s.node[1].local.version
  {
    var s1 := Exec(TANGLED, s, Collect(1));
    var s2 := Exec(TANGLED, s1, Leave(1));
    s' := Exec(TANGLED, s2, Return(1));
    LeadsStep(TANGLED, true, s, Collect(1));
    LeadsStep(TANGLED, true, s1, Leave(1));
    LeadsStep(TANGLED, true, s2, Return(1));
    LeadsOn(TANGLED, true, s, s1, s2);
    LeadsOn(TANGLED, true, s, s2, s');
  }

  // Up to nine writes are counted without a word to layer one.
  lemma {:induction false} NineWrites(s: State, n: nat) returns (s': State)
    requires n <= 9 && Resting(s, n, 10 - n) && 2 in s.rounds
    ensures Leads(TANGLED, true, s, s') && Resting(s', 9, 1) && SameBelow(s, s')
    decreases 9 - n
  {
    if n == 9 {
      s' := s;
      LeadsNowhere(TANGLED, true, s);
    } else {
      var s1 := Apply(s, n, 9 - n);
      var s2 := CountIt(s1, n, 9 - n);
      LeadsOn(TANGLED, true, s, s1, s2);
      s' := NineWrites(s2, n + 1);
      LeadsOn(TANGLED, true, s, s2, s');
    }
  }

  lemma Beginning()
    ensures var s := Init(TANGLED, TEN_WRITES);
      && Resting(s, 0, 10) && s.net == map[]
      && s.below.Keys == {2, 3, 4} && s.rounds.Keys == {2, 3, 4}
      && (forall k :: k in s.below ==> s.below[k] == 0) && (forall k :: k in s.rounds ==> s.rounds[k] == [0])
  {
    assert Init(TANGLED, TEN_WRITES).node[1] == InitNode(1, Ones(10));
  }

  // After ten writes node 2 has a SET to read and nobody below the core has moved.
  lemma TenWrites() returns (s: State)
    ensures Leads(TANGLED, true, Init(TANGLED, TEN_WRITES), s)
    ensures s.below == Init(TANGLED, TEN_WRITES).below && s.net == Send(Init(TANGLED, TEN_WRITES).net, 1, 2, Update(10))
    ensures s.rounds.Keys == {2, 3, 4} && |s.rounds[2]| == 2 && s.rounds[3] == [0] && s.rounds[4] == [0]
  {
    var s0 := Init(TANGLED, TEN_WRITES);
    Beginning();
    var s1 := NineWrites(s0, 0);
    var s2 := Apply(s1, 9, 0);
    s := CountIt(s2, 9, 0);
    LeadsOn(TANGLED, true, s0, s1, s2);
    LeadsOn(TANGLED, true, s0, s2, s);
  }

  // Node k takes over the only SET on its way from p.
  lemma TakeOver(s: State, p: Id, k: Id, v: int) returns (s': State)
    requires k in Kids(TANGLED, p) && k in s.below && k in s.rounds && |s.rounds[k]| > 1
    requires Chan(s.net, p, k) == [Update(v)]
    ensures Leads(TANGLED, true, s, s') && s'.below == s.below[k := v] && Chan(s'.net, p, k) == []
    ensures forall x, y :: (x, y) != (p, k) ==> Chan(s'.net, x, y) == Chan(s.net, x, y)
    ensures s'.rounds == s.rounds[k := s.rounds[k][1..]]
  {
    assert [Update(v)][1..] == [];
    s' := Exec(TANGLED, s, DeliverUpdate(p, k));
    LeadsStep(TANGLED, true, s, DeliverUpdate(p, k));
  }

  lemma TickOnce(s: State, p: Id) returns (s': State)
    requires (p == 2 || p == 3) && p in s.below && p in s.rounds && s.rounds[p] != [] && 4 in s.rounds
    ensures Leads(TANGLED, true, s, s') && s'.below == s.below
    ensures s'.net == Send(s.net, p, 4, Update(s.below[p]))
    ensures s'.rounds == s.rounds[4 := s.rounds[4] + [s.rounds[p][0]]]
  {
    var m := Update(s.below[p]);
    s' := Exec(TANGLED, s, Tick(p));
    LeadsStep(TANGLED, true, s, Tick(p));
    assert Kids(TANGLED, p) == [4] && [4][1..] == [];
    assert Broadcast(s.net, p, [4], m) == Broadcast(Send(s.net, p, 4, m), p, [], m);
  }

  // A layer-one node passes on what it holds, and node 4 takes it over.
  lemma PassOn(s: State, p: Id) returns (s': State)
    requires (p == 2 || p == 3) && p in s.below && 4 in s.below && p in s.rounds && 4 in s.rounds
    requires s.rounds[p] != [] && s.rounds[4] != [] && Chan(s.net, p, 4) == []
    ensures Leads(TANGLED, true, s, s') && s'.below == s.below[4 := s.below[p]]
    ensures forall x, y :: Chan(s'.net, x, y) == Chan(s.net, x, y)
    ensures s'.rounds.Keys == s.rounds.Keys && s'.rounds[4] != []
    ensures forall k :: k in s.rounds && k != 4 ==> s'.rounds[k] == s.rounds[k]
  {
    var s1 := TickOnce(s, p);
    assert Chan(s1.net, p, 4) == [] + [Update(s.below[p])];
    assert 4 in Kids(TANGLED, p) && |s1.rounds[4]| == |s.rounds[4]| + 1;
    s' := TakeOver(s1, p, 4, s.below[p]);
    LeadsOn(TANGLED, true, s, s1, s');
    assert |s'.rounds[4]| == |s.rounds[4]|;
  }

  // The core is fully connected, and only node 4 has two parents.
  lemma OnlyFourIsTangled()
    ensures FullMesh(TANGLED)
    ensures forall i, j, k :: k in Kids(TANGLED, i) && k in Kids(TANGLED, j) ==> i == j || k == 4
  {
  }

  // Yet node 4 holds the first ten writes, and later none of them.
  lemma SnapshotGoesBack() returns (s: State, t: State)
    ensures Leads(TANGLED, true, Init(TANGLED, TEN_WRITES), s) && Leads(TANGLED, true, s, t)
    ensures 4 in s.below && s.below[4] == Fold(Ones(10)) == 10
    ensures 4 in t.below && t.below[4] == Fold([]) == 0
  {
    var s0 := Init(TANGLED, TEN_WRITES);
    Beginning();
    var s1 := TenWrites();
    assert Chan(s1.net, 1, 2) == [] + [Update(10)];
    var s2 := TakeOver(s1, 1, 2, 10);
    s := PassOn(s2, 2);
    t := PassOn(s, 3);
    LeadsOn(TANGLED, true, s0, s1, s2);
    LeadsOn(TANGLED, true, s0, s2, s);
    FoldOnes(10);
  }

  lemma {:induction false} OnesSnoc(n: nat)
    ensures Ones(n + 1) == Ones(n) + [ONE]
  {
    if n == 0 {
    } else {
      OnesSnoc(n - 1);
      assert Ones(n + 1) == [ONE] + Ones(n);
    }
  }

  lemma {:induction false} FoldOnes(n: nat)
    ensures Fold(Ones(n)) == n
  {
    if n == 0 {
    } else {
      OnesSnoc(n - 1);
      FoldSnoc(Ones(n - 1), ONE);
      FoldOnes(n - 1);
    }
  }
}
