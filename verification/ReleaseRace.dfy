// A RELEASE can be overtaken: Gate or no Gate, stamps travel out of order on some channel
// exactly when two core nodes have a write to do.
module ReleaseRace {
  import opened Basics
  import opened Transactions
  import opened Protocol
  import opened Mutex
  import opened Log
  import opened Replication
  import opened Progress
  import opened Steps
  import opened System
  import opened RequestRace
  import opened RaceCondition
  import opened StampOrder

  // ------------------------------------------ one writer, up to its release

  // Node i has asked for the section or is in it, and nobody else has.
  ghost predicate Alone(s: State, i: Id) {
    && i in s.node && Pending(s.node[i])
    && (forall k {:trigger s.node[k]} :: k in s.node && k != i ==> s.node[k].phase.Idle?)
  }

  // The next step on the way to the release.
  lemma NextStep(c: Config, s: State, i: Id) returns (a: Action)
    requires MutexInv(c, s) && RepInv(c, s) && Alone(s, i)
    requires !(s.node[i].phase.Leaving? && Silent(s))
    ensures IsCore(a) && Enabled(c, s, a) && Gate(s, a)
    ensures a.Deliver? || (a.i == i && (s.node[i].phase.Waiting? || !a.Leave?) && !a.Start? && !a.Return?)
  {
    if s.node[i].phase.Waiting? && s.node[i].phase.unsent != [] {
      a := SendRequest(i);
    } else if x, y :| x in s.node && y in s.node && x != y && Chan(s.net, x, y) != [] {
      a := Deliver(x, y);
    } else if s.node[i].phase.Waiting? {
      LeastMayEnter(c, s, i);
      a := Enter(i);
    } else {
      a := WriterStep(c, s, i);
    }
  }

  // k is where it was in its script.
  predicate SamePlace(n: Node, n': Node) {
    n'.phase == n.phase && n'.todo == n.todo
  }

  lemma StaysAlone(c: Config, s: State, i: Id, a: Action)
    requires Alone(s, i) && Enabled(c, s, a) && IsCore(a)
    requires a.Deliver? || (a.i == i && !a.Leave?)
    ensures Alone(Exec(c, s, a), i)
    ensures forall k :: k in Exec(c, s, a).node <==> k in s.node
    ensures forall k {:trigger s.node[k]} :: k in s.node && k != i ==> SamePlace(s.node[k], Exec(c, s, a).node[k])
  {
    forall k ensures k in Exec(c, s, a).node <==> k in s.node {
      SameNodes(c, s, a, k);
    }
    forall k {:trigger s.node[k]} | k in s.node && k != i ensures SamePlace(s.node[k], Exec(c, s, a).node[k]) {
      if a.Deliver? {
        DeliverNodes(c, s, a.i, a.j, k);
      } else {
        OnlyActor(c, s, a, k);
      }
    }
    ActorStaysPending(c, s, i, a);
  }

  lemma ActorStaysPending(c: Config, s: State, i: Id, a: Action)
    requires i in s.node && Pending(s.node[i]) && Enabled(c, s, a) && IsCore(a)
    requires a.Deliver? || (a.i == i && !a.Leave?)
    ensures i in Exec(c, s, a).node && Pending(Exec(c, s, a).node[i])
  {
    if a.Deliver? {
      DeliverNodes(c, s, a.i, a.j, i);
    }
  }

  // Alone, a node gets to the point where it is about to release, and nothing is on the wire.
  lemma {:induction false} Drive(c: Config, scripts: map<Id, seq<TransactionData>>, s: State, i: Id) returns (t: State)
    requires Inv(c, scripts, s) && Alone(s, i)
    ensures Leads(c, true, s, t) && Inv(c, scripts, t)
    ensures i in t.node && t.node[i].phase.Leaving? && Silent(t)
    ensures forall k :: k in t.node <==> k in s.node
    ensures forall k {:trigger s.node[k]} :: k in s.node && k != i ==> SamePlace(s.node[k], t.node[k])
    decreases Budget(c, s)
  {
    if s.node[i].phase.Leaving? && Silent(s) {
      t := s;
      LeadsNowhere(c, true, s);
    } else {
      BudgetNonNegative(c, s);
      var a := NextStep(c, s, i);
      var s1 := Exec(c, s, a);
      LeadsStep(c, true, s, a);
      InvStep(c, scripts, s, a);
      CoreStepUsesBudget(c, s, a);
      StaysAlone(c, s, i, a);
      t := Drive(c, scripts, s1, i);
      LeadsOn(c, true, s, s1, t);
      forall k {:trigger s.node[k]} | k in s.node && k != i ensures SamePlace(s.node[k], t.node[k]) {
        assert SamePlace(s.node[k], s1.node[k]) && SamePlace(s1.node[k], t.node[k]);
      }
    }
  }

  // ---------------------------------------------------------- the overtaking

  // Node i is about to release, and j's REQUEST is on its way to it.
  ghost predicate Poised(c: Config, s: State, i: Id, j: Id, t: int) {
    && i in s.node && j in s.node && i != j && s.node[i].phase.Leaving?
    && j in Peers(c, i) && NoDup(Peers(c, i))
    && Chan(s.net, j, i) == [Request(t)] && Chan(s.net, i, j) == []
  }

  lemma Poise(c: Config, s: State, i: Id, j: Id) returns (s': State, t: int)
    requires FullMesh(c) && (forall k :: k in s.node <==> k in c.cores)
    requires i in s.node && j in s.node && i != j && s.node[i].phase.Leaving? && Silent(s)
    requires s.node[j].phase.Idle? && ValidScript(s.node[j].todo) && HasWrite(s.node[j].todo)
    ensures Leads(c, true, s, s') && Poised(c, s', i, j, t)
  {
    var s1 := FirstWrite(c, true, s, j);
    t := s1.node[j].local.queue[j];
    SendToAll(c, true, s1, j, t);
    s' := Sent(s1, j, Waiting(s1.node[j].phase.data, []), s1.node[j].phase.unsent, Request(t));
    LeadsOn(c, true, s, s1, s');
    assert Chan(s'.net, j, i) == [] + [Request(t)];
  }

  lemma LeavePoised(c: Config, s: State, i: Id, j: Id, t: int)
    requires Poised(c, s, i, j, t)
    ensures Enabled(c, s, Leave(i)) && Gate(s, Leave(i))
    ensures var s' := Exec(c, s, Leave(i));
      && s'.net == s.net && i in s'.node && j in s'.node
      && s'.node[i].phase == Releasing(Get(s.node[i].local.ticks, i), Peers(c, i))
      && s'.node[i].local.ticks == s.node[i].local.ticks
  {
  }

  // The REQUEST is answered before the RELEASE is sent ...
  lemma AnswerFirst(c: Config, s: State, i: Id, j: Id, t: int)
    requires i in s.node && j in s.node && i != j && s.node[i].phase.Releasing?
    requires Chan(s.net, j, i) == [Request(t)] && Chan(s.net, i, j) == []
    ensures Enabled(c, s, Deliver(j, i)) && Gate(s, Deliver(j, i))
    ensures var s' := Exec(c, s, Deliver(j, i));
      && i in s'.node && s'.node[i].phase == s.node[i].phase
      && exists a :: a > Get(s.node[i].local.ticks, i) && Chan(s'.net, i, j) == [Ack(a)]
  {
    var s' := Exec(c, s, Deliver(j, i));
    var a := Get(s'.node[i].local.ticks, i);
    assert a > Get(s.node[i].local.ticks, i);
    assert Chan(s'.net, i, j) == [] + [Ack(a)] == [Ack(a)];
  }

  // ... and with a later stamp.
  lemma Overtake(c: Config, s: State, i: Id, j: Id, t: int) returns (s': State, stamp: int, a: int)
    requires Poised(c, s, i, j, t)
    ensures Leads(c, true, s, s') && i in s'.node && j in s'.node
    ensures Chan(s'.net, i, j) == [Ack(a), Release(stamp)] && a > stamp
  {
    stamp := Get(s.node[i].local.ticks, i);
    LeavePoised(c, s, i, j, t);
    var s1 := Exec(c, s, Leave(i));
    LeadsStep(c, true, s, Leave(i));
    AnswerFirst(c, s1, i, j, t);
    var s2 := Exec(c, s1, Deliver(j, i));
    LeadsStep(c, true, s1, Deliver(j, i));
    LeadsOn(c, true, s, s1, s2);
    a :| a > stamp && Chan(s2.net, i, j) == [Ack(a)];
    SameNodes(c, s1, Deliver(j, i), j);
    s' := ReleaseBehind(c, s2, i, j, stamp, a);
    LeadsOn(c, true, s, s2, s');
  }

  lemma ReleaseBehind(c: Config, s: State, i: Id, j: Id, stamp: int, a: int) returns (s': State)
    requires i in s.node && s.node[i].phase == Releasing(stamp, Peers(c, i))
    requires NoDup(Peers(c, i)) && j in Peers(c, i) && Chan(s.net, i, j) == [Ack(a)]
    ensures Leads(c, true, s, s') && i in s'.node && (j in s.node ==> j in s'.node)
    ensures Chan(s'.net, i, j) == [Ack(a), Release(stamp)]
  {
    ReleaseLoop(c, s, i);
    s' := Sent(s, i, Releasing(stamp, []), Peers(c, i), Release(stamp));
    assert Chan(s'.net, i, j) == [Ack(a)] + [Release(stamp)];
  }

  // With two writers, a reachable state has an ACK and behind it a RELEASE with fewer ticks.
  lemma ReleaseOvertaken(c: Config, scripts: map<Id, seq<TransactionData>>, i: Id, j: Id)
    returns (s: State, a: int, stamp: int)
    requires ValidConfig(c) && BothWrite(c, scripts, i, j)
    requires ValidScript(Script(scripts, i)) && ValidScript(Script(scripts, j))
    ensures Reachable(c, scripts, s) && i in s.node && j in s.node
    ensures Chan(s.net, i, j) == [Ack(a), Release(stamp)] && a > stamp
  {
    var s0 := Init(c, scripts);
    var s1 := FirstAlone(c, scripts, i);
    Always(c, scripts, s1);
    var s2 := Drive(c, scripts, s1, i);
    LeadsOn(c, true, s0, s1, s2);
    assert SamePlace(s1.node[j], s2.node[j]);
    var s3, t := Poise(c, s2, i, j);
    LeadsOn(c, true, s0, s2, s3);
    s, stamp, a := Overtake(c, s3, i, j, t);
    LeadsOn(c, true, s0, s3, s);
  }

  lemma FirstAlone(c: Config, scripts: map<Id, seq<TransactionData>>, i: Id) returns (s: State)
    requires i in c.cores && ValidScript(Script(scripts, i)) && HasWrite(Script(scripts, i))
    ensures Leads(c, true, Init(c, scripts), s) && Alone(s, i)
    ensures forall k :: k in s.node <==> k in c.cores
    ensures forall k {:trigger s.node[k]} :: k in s.node && k != i ==> s.node[k] == InitNode(k, Script(scripts, k))
  {
    var s0 := Init(c, scripts);
    assert forall k :: k in c.cores ==> k in s0.node && s0.node[k] == InitNode(k, Script(scripts, k));
    s := FirstWrite(c, true, s0, i);
  }

  // For instance with the two nodes and the two scripts of RequestRace.
  lemma PairOvertakes() returns (s: State, a: int, stamp: int)
    ensures Reachable(PAIR, SCRIPTS, s) && Chan(s.net, 1, 2) == [Ack(a), Release(stamp)] && a > stamp
  {
    PairIsValid();
    assert WritesOf([TWENTY]) == [TWENTY] + WritesOf([TWENTY][1..]);
    s, a, stamp := ReleaseOvertaken(PAIR, SCRIPTS, 1, 2);
  }

  // ------------------------------------------------------- without two writers

  // Node i has nothing to write, and none of its messages is a REQUEST.
  ghost predicate StandsBy(s: State, i: Id) {
    && i in s.node && OnlyReads(s.node[i])
    && (forall j, m {:trigger m in Chan(s.net, i, j)} :: m in Chan(s.net, i, j) ==> !m.Request?)
  }

  lemma StandsByChannel(c: Config, s: State, a: Action, i: Id, j: Id)
    requires Enabled(c, s, a) && StandsBy(s, i) && NoDup(Kids(c, if a.Deliver? then a.j else a.i))
    ensures forall m :: m in Chan(Exec(c, s, a).net, i, j) ==> !m.Request?
  {
    var ch := Chan(s.net, i, j);
    assert ch != [] ==> forall m :: m in ch[1..] ==> m in ch;
    assert forall m :: m in ch ==> !m.Request?;
    if a.Deliver? {
      StandsByDelivery(c, s, a.i, a.j, i, j);
    }
  }

  lemma StandsByDelivery(c: Config, s: State, x: Id, y: Id, i: Id, j: Id)
    requires Enabled(c, s, Deliver(x, y)) && StandsBy(s, i) && NoDup(Kids(c, y))
    ensures forall m :: m in Chan(Exec(c, s, Deliver(x, y)).net, i, j) ==> !m.Request?
  {
    var ch := Chan(s.net, i, j);
    assert ch != [] ==> forall m :: m in ch[1..] ==> m in ch;
    assert forall m :: m in ch ==> !m.Request?;
  }

  lemma StandsByStep(c: Config, s: State, a: Action, i: Id)
    requires Enabled(c, s, a) && StandsBy(s, i) && NoDup(Kids(c, if a.Deliver? then a.j else a.i))
    ensures StandsBy(Exec(c, s, a), i)
  {
    OnlyReadsStep(c, s, a, i);
    forall j, m | m in Chan(Exec(c, s, a).net, i, j) ensures !m.Request? {
      StandsByChannel(c, s, a, i, j);
    }
  }

  // Everybody without a write in its script stands by.
  ghost predicate ReadersStandBy(c: Config, scripts: map<Id, seq<TransactionData>>, s: State) {
    && (forall i :: i in s.node <==> i in c.cores)
    && (forall i {:trigger StandsBy(s, i)} :: i in c.cores && !HasWrite(Script(scripts, i)) ==> StandsBy(s, i))
  }

  lemma ReadersStandByStep(c: Config, scripts: map<Id, seq<TransactionData>>, s: State, a: Action)
    requires FullMesh(c) && ReadersStandBy(c, scripts, s) && Enabled(c, s, a)
    ensures ReadersStandBy(c, scripts, Exec(c, s, a))
  {
    forall i ensures i in Exec(c, s, a).node <==> i in c.cores {
      SameNodes(c, s, a, i);
    }
    forall i | i in c.cores && !HasWrite(Script(scripts, i)) ensures StandsBy(Exec(c, s, a), i) {
      assert StandsBy(s, i);
      assert NoDup(Kids(c, if a.Deliver? then a.j else a.i));
      StandsByStep(c, s, a, i);
    }
  }

  lemma ReadersAreCalm(c: Config, scripts: map<Id, seq<TransactionData>>, s: State, a: Action)
    requires ReadersStandBy(c, scripts, s) && Enabled(c, s, a)
    requires !exists i, j :: BothWrite(c, scripts, i, j)
    ensures ReleaseGate(s, a)
  {
    if !ReleaseGate(s, a) {
      var m := Chan(s.net, a.i, a.j)[0];
      assert m in Chan(s.net, a.i, a.j);
      assert !StandsBy(s, a.i) && !StandsBy(s, a.j);
      assert BothWrite(c, scripts, a.i, a.j);
    }
  }

  lemma {:induction false} OneWriterIsCalm(c: Config, scripts: map<Id, seq<TransactionData>>, s: State, run: seq<Action>)
    requires FullMesh(c) && ReadersStandBy(c, scripts, s) && Run(c, s, run)
    requires !exists i, j :: BothWrite(c, scripts, i, j)
    ensures CalmRun(c, s, run)
    decreases |run|
  {
    if run == [] {
    } else {
      ReadersAreCalm(c, scripts, s, run[0]);
      ReadersStandByStep(c, scripts, s, run[0]);
      OneWriterIsCalm(c, scripts, Exec(c, s, run[0]), run[1..]);
    }
  }

  lemma ReadersStandByInit(c: Config, scripts: map<Id, seq<TransactionData>>)
    ensures ReadersStandBy(c, scripts, Init(c, scripts))
  {
    var s := Init(c, scripts);
    forall i | i in c.cores && !HasWrite(Script(scripts, i)) ensures StandsBy(s, i) {
      assert s.node[i] == InitNode(i, Script(scripts, i));
    }
  }

  // ------------------------------------------------------------- the condition

  ghost predicate SomeOutOfOrder(s: State) {
    exists i, j {:trigger Chan(s.net, i, j)} :: i in s.node && j in s.node && i != j && OutOfOrder(Chan(s.net, i, j))
  }

  // Stamps can travel out of order between core nodes exactly when two of them have a write in
  // their scripts.
  lemma OvertakingPossibleExactlyWhen(c: Config, scripts: map<Id, seq<TransactionData>>)
    requires ValidConfig(c) && forall i :: ValidScript(Script(scripts, i))
    ensures (exists s {:trigger Reachable(c, scripts, s)} :: Reachable(c, scripts, s) && SomeOutOfOrder(s))
      <==> (exists i, j :: BothWrite(c, scripts, i, j))
  {
    if i, j :| BothWrite(c, scripts, i, j) {
      var s, a, stamp := ReleaseOvertaken(c, scripts, i, j);
      ShowOutOfOrder(Chan(s.net, i, j), a, stamp);
      assert SomeOutOfOrder(s);
    } else if s :| Reachable(c, scripts, s) && SomeOutOfOrder(s) {
      OneWriterKeepsOrder(c, scripts, s);
    }
  }

  lemma ShowOutOfOrder(ch: seq<Msg>, a: int, stamp: int)
    requires ch == [Ack(a), Release(stamp)] && a > stamp
    ensures OutOfOrder(ch)
  {
    assert Stamped(ch[0]) && Stamped(ch[1]) && Stamp(ch[0]) > Stamp(ch[1]);
  }

  lemma OneWriterKeepsOrder(c: Config, scripts: map<Id, seq<TransactionData>>, s: State)
    requires Reachable(c, scripts, s) && !exists i, j :: BothWrite(c, scripts, i, j)
    ensures !SomeOutOfOrder(s)
  {
    var s0 := Init(c, scripts);
    var run :| RawRun(c, s0, run) && Run(c, s0, run) && After(c, s0, run) == s;
    ReadersStandByInit(c, scripts);
    OneWriterIsCalm(c, scripts, Init(c, scripts), run);
    forall i, j | i in s.node && j in s.node && i != j ensures !OutOfOrder(Chan(s.net, i, j)) {
      CalmRunsKeepOrder(c, scripts, run, i, j);
    }
  }
}
