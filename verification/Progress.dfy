// Every finite workload completes: the core is never stuck with work left, and each core
// step uses up part of a finite budget.
module Progress {
  import opened Basics
  import opened Transactions
  import opened Protocol
  import opened Mutex
  import opened Replication
  import opened Log
  import opened Epidemic
  import opened System

  // All scripts executed, every thread back from ExecuteTransaction, nothing on the wire.
  ghost predicate Finished(s: State) {
    && (forall i :: i in s.node ==> s.node[i].phase.Idle? && s.node[i].todo == [])
    && (forall i, j :: i in s.node && j in s.node && i != j ==> Chan(s.net, i, j) == [])
  }

  // ------------------------------------------------------- never stuck

  ghost predicate Silent(s: State) {
    forall i, j {:trigger Chan(s.net, i, j)} :: i in s.node && j in s.node && i != j ==> Chan(s.net, i, j) == []
  }

  // Node i has sent its requests and waits for okeyCS.
  predicate Blocked(n: Node) {
    n.phase.Waiting? && n.phase.unsent == []
  }

  // Nothing is left to do but wait for okeyCS.
  ghost predicate AllBlocked(s: State) {
    forall i {:trigger s.node[i]} :: i in s.node ==> s.node[i].phase.Idle? || Blocked(s.node[i])
  }

  // With nothing on the wire, a writer has been answered by all its peers.
  lemma AwaitingIsServed(c: Config, s: State, i: Id)
    requires MutexInv(c, s) && RepInv(c, s) && Silent(s) && i in s.node && s.node[i].phase.Awaiting?
    ensures Enabled(c, s, Collect(i))
  {
    var n := s.node[i];
    assert NodeRep(c, i, n);
    var all := Elems(Peers(c, i));
    forall j | j in Peers(c, i) ensures j in n.counted {
      assert AccountOk(s, i, j);
    }
    assert forall j :: j in all <==> j in n.counted;
    assert all == n.counted;
  }

  // Among waiting nodes there is one with the least (ticks, id).
  lemma {:induction false} LeastBlocked(s: State, ids: seq<Id>, w: Id) returns (i: Id)
    requires forall k :: k in ids ==> k in s.node
    requires w in ids && Blocked(s.node[w])
    ensures i in ids && Blocked(s.node[i])
    ensures forall k :: k in ids && k != i && Blocked(s.node[k]) ==> IsGreater(Ticket(s.node[k], k), k, Ticket(s.node[i], i), i)
  {
    var h, rest := ids[0], ids[1..];
    assert h in ids;
    assert forall k :: k in ids <==> k == h || k in rest;
    if w' :| w' in rest && Blocked(s.node[w']) {
      var m := LeastBlocked(s, rest, w');
      if Blocked(s.node[h]) && h != m && IsGreater(Ticket(s.node[m], m), m, Ticket(s.node[h], h), h) {
        i := h;
      } else {
        i := m;
      }
    } else {
      i := h;
    }
  }

  // With nothing on the wire, queues agree with their owners and every REQUEST has been acknowledged.
  lemma LeastMayEnter(c: Config, s: State, i: Id)
    requires MutexInv(c, s) && Silent(s) && AllBlocked(s) && i in s.node && Blocked(s.node[i])
    requires forall k :: k in s.node && k != i && Blocked(s.node[k]) ==>
      IsGreater(Ticket(s.node[k], k), k, Ticket(s.node[i], i), i)
    ensures Enabled(c, s, Enter(i))
  {
    var n := s.node[i];
    assert NodeOk(c, i, n);
    forall j | j in Peers(c, i) ensures Yields(n.local, i, j) {
      assert LinkOk(s, i, j) && LinkOk(s, j, i) && NodeOk(c, j, s.node[j]);
    }
  }

  // The node in the section can always go on.
  lemma WriterStep(c: Config, s: State, i: Id) returns (a: Action)
    requires MutexInv(c, s) && RepInv(c, s) && Silent(s) && i in s.node && InCs(s.node[i])
    ensures IsCore(a) && Enabled(c, s, a) && Gate(s, a)
    ensures !a.Deliver? && a.i == i && (a.Leave? <==> s.node[i].phase.Leaving?)
  {
    match s.node[i].phase {
      case Sending(_, unsent) => a := if unsent == [] then ApplyLocal(i) else SendWrite(i);
      case Counting(_) => a := Count(i);
      case Awaiting(_) => AwaitingIsServed(c, s, i); a := Collect(i);
      case Leaving(_) => a := Leave(i);
    }
  }

  lemma FindEntrant(c: Config, s: State) returns (a: Action)
    requires MutexInv(c, s) && !Finished(s) && Silent(s) && AllBlocked(s)
    requires forall i :: i in s.node && s.node[i].phase.Idle? ==> s.node[i].todo == []
    ensures IsCore(a) && Enabled(c, s, a) && Gate(s, a)
  {
    var w :| w in s.node && Blocked(s.node[w]);
    var i := LeastBlocked(s, c.cores, w);
    LeastMayEnter(c, s, i);
    a := Enter(i);
  }

  // As long as work is left, some core node can take a step, and without breaking Gate.
  lemma FindStep(c: Config, s: State) returns (a: Action)
    requires MutexInv(c, s) && RepInv(c, s) && !Finished(s)
    requires forall i :: i in s.node ==> ValidScript(s.node[i].todo)
    ensures IsCore(a) && Enabled(c, s, a) && Gate(s, a)
  {
    if i :| i in s.node && s.node[i].phase.Waiting? && s.node[i].phase.unsent != [] {
      a := SendRequest(i);
    } else if i, j :| i in s.node && j in s.node && i != j && Chan(s.net, i, j) != [] {
      a := Deliver(i, j);
    } else {
      a := FindOwnStep(c, s);
    }
  }

  lemma FindOwnStep(c: Config, s: State) returns (a: Action)
    requires MutexInv(c, s) && RepInv(c, s) && !Finished(s) && Silent(s)
    requires forall i :: i in s.node ==> ValidScript(s.node[i].todo)
    requires forall i :: i in s.node && s.node[i].phase.Waiting? ==> Blocked(s.node[i])
    ensures IsCore(a) && Enabled(c, s, a) && Gate(s, a)
  {
    if i :| i in s.node && InCs(s.node[i]) {
      a := WriterStep(c, s, i);
    } else if i :| i in s.node && s.node[i].phase.Releasing? {
      a := if s.node[i].phase.unsent == [] then Return(i) else SendRelease(i);
    } else if i :| i in s.node && s.node[i].phase.Idle? && s.node[i].todo != [] {
      assert s.node[i].todo[0] in s.node[i].todo;
      a := if s.node[i].todo[0].kind.READ? then Show(i) else Start(i);
    } else {
      a := FindEntrant(c, s);
    }
  }

  // --------------------------------------------------------- the budget

  function MsgWeight(m: Msg): nat {
    if m.Request? || m.Write? then 2 else 1
  }

  function Weight(ch: seq<Msg>): nat {
    if ch == [] then 0 else MsgWeight(ch[0]) + Weight(ch[1..])
  }

  lemma {:induction false} WeightAppend(ch: seq<Msg>, m: Msg)
    ensures Weight(ch + [m]) == Weight(ch) + MsgWeight(m)
  {
    if ch == [] {
      assert [] + [m] == [m];
    } else {
      assert (ch + [m])[1..] == ch[1..] + [m];
      WeightAppend(ch[1..], m);
    }
  }

  // Core steps one script entry can cause, in a core of k nodes.
  function Cost(k: nat): nat {
    8 * k + 7
  }

  // What is left of the current ExecuteTransaction, at least.
  function PhaseBudget(p: Phase, k: nat): nat {
    match p
    case Idle => 0
    case Releasing(_, unsent) => 1 + 2 * |unsent|
    case Leaving(_) => 2 + 2 * k
    case Awaiting(_) => 3 + 2 * k
    case Counting(_) => 4 + 2 * k
    case Sending(_, unsent) => 5 + 2 * k + 3 * |unsent|
    case Waiting(_, unsent) => 6 + 5 * k + 3 * |unsent|
  }

  function NodeBudget(n: Node, k: nat): nat {
    PhaseBudget(n.phase, k) + |n.todo| * Cost(k)
  }

  // Messages node i has on the wire to core nodes.
  ghost function Wire(c: Config, net: Net, i: Id): int {
    Sum(c.cores, j => Weight(Chan(net, i, j)))
  }

  ghost function Row(c: Config, s: State, i: Id): int {
    (if i in s.node then NodeBudget(s.node[i], |c.cores|) else 0) + Wire(c, s.net, i)
  }

  ghost function Budget(c: Config, s: State): int {
    Sum(c.cores, i => Row(c, s, i))
  }

  lemma BudgetNonNegative(c: Config, s: State)
    ensures Budget(c, s) >= 0
  {
    forall i | i in c.cores ensures Row(c, s, i) >= 0 {
      SumNonNegative(c.cores, j => Weight(Chan(s.net, i, j)));
    }
    SumNonNegative(c.cores, i => Row(c, s, i));
  }

  lemma PeersBound(c: Config, i: Id)
    requires FullMesh(c) && i in c.cores
    ensures |Peers(c, i)| < |c.cores|
  {
    var p, all := Elems(Peers(c, i)), Elems(c.cores);
    assert forall j :: j in p ==> j in all;
    assert i in all - p;
    assert all == p + (all - p) && |all| == |p| + |all - p|;
  }

  lemma WireSame(c: Config, net: Net, net': Net, i: Id)
    requires forall j :: j in c.cores ==> Chan(net', i, j) == Chan(net, i, j)
    ensures Wire(c, net', i) == Wire(c, net, i)
  {
    SumSame(c.cores, j => Weight(Chan(net, i, j)), j => Weight(Chan(net', i, j)));
  }

  lemma WireChange(c: Config, net: Net, net': Net, i: Id, d: Id)
    requires NoDup(c.cores) && d in c.cores
    requires forall j :: j in c.cores && j != d ==> Chan(net', i, j) == Chan(net, i, j)
    ensures Wire(c, net', i) == Wire(c, net, i) - Weight(Chan(net, i, d)) + Weight(Chan(net', i, d))
  {
    SumPoint(c.cores, j => Weight(Chan(net, i, j)), j => Weight(Chan(net', i, j)), d);
  }

  // One row changes: so does the budget, by as much.
  lemma OneRow(c: Config, s: State, s': State, i: Id)
    requires NoDup(c.cores) && i in c.cores
    requires forall x :: x in c.cores && x != i ==> Row(c, s', x) == Row(c, s, x)
    ensures Budget(c, s') == Budget(c, s) - Row(c, s, i) + Row(c, s', i)
  {
    SumPoint(c.cores, x => Row(c, s, x), x => Row(c, s', x), i);
  }

  lemma TwoRows(c: Config, s: State, s': State, i: Id, j: Id)
    requires NoDup(c.cores) && i in c.cores && j in c.cores && i != j
    requires forall x :: x in c.cores && x != i && x != j ==> Row(c, s', x) == Row(c, s, x)
    ensures Budget(c, s') == Budget(c, s) - Row(c, s, i) + Row(c, s', i) - Row(c, s, j) + Row(c, s', j)
  {
    var f, h := x => Row(c, s, x), x => Row(c, s', x);
    var g := x => if x == i then Row(c, s', x) else Row(c, s, x);
    SumPoint(c.cores, f, g, i);
    SumPoint(c.cores, g, h, j);
  }

  // A step of node i alone, with no core message.
  lemma LocalBudget(c: Config, s: State, s': State, i: Id)
    requires NoDup(c.cores) && i in c.cores && i in s.node && i in s'.node
    requires s'.node == s.node[i := s'.node[i]]
    requires forall x, y {:trigger Chan(s'.net, x, y)} :: x in c.cores && y in c.cores ==> Chan(s'.net, x, y) == Chan(s.net, x, y)
    requires NodeBudget(s'.node[i], |c.cores|) < NodeBudget(s.node[i], |c.cores|)
    ensures Budget(c, s') < Budget(c, s)
  {
    forall x | x in c.cores ensures Wire(c, s'.net, x) == Wire(c, s.net, x) {
      WireSame(c, s.net, s'.net, x);
    }
    OneRow(c, s, s', i);
  }

  // Node i sends m to d, giving up more than m weighs.
  lemma SendBudget(c: Config, s: State, s': State, i: Id, d: Id, m: Msg)
    requires NoDup(c.cores) && i in c.cores && d in c.cores && i in s.node && i in s'.node
    requires s'.node == s.node[i := s'.node[i]]
    requires s'.net == Send(s.net, i, d, m)
    requires NodeBudget(s'.node[i], |c.cores|) + MsgWeight(m) < NodeBudget(s.node[i], |c.cores|)
    ensures Budget(c, s') < Budget(c, s)
  {
    WireChange(c, s.net, s'.net, i, d);
    WeightAppend(Chan(s.net, i, d), m);
    forall x | x in c.cores && x != i ensures Wire(c, s'.net, x) == Wire(c, s.net, x) {
      WireSame(c, s.net, s'.net, x);
    }
    OneRow(c, s, s', i);
  }

  lemma ReplyIsLighter(m: Msg, back: seq<Msg>, back': seq<Msg>)
    requires back' == back ||
      ((m.Request? || m.Write?) && |back'| == |back| + 1 && back' == back + [back'[|back|]] && (back'[|back|].Ack? || back'[|back|].Ready?))
    ensures Weight(back') < Weight(back) + MsgWeight(m)
  {
    if back' != back {
      WeightAppend(back, back'[|back|]);
    }
  }

  // The wires of the core after node j has handled the head of channel i -> j.
  lemma DeliverWires(c: Config, s: State, i: Id, j: Id, net': Net)
    requires FullMesh(c) && i in c.cores && j in c.cores && i != j && Chan(s.net, i, j) != []
    requires Chan(net', i, j) == Chan(s.net, i, j)[1..]
    requires forall x, y {:trigger Chan(net', x, y)} :: x in c.cores && y in c.cores ==>
      (x, y) != (i, j) && (x, y) != (j, i) ==> Chan(net', x, y) == Chan(s.net, x, y)
    requires Weight(Chan(net', j, i)) < Weight(Chan(s.net, j, i)) + MsgWeight(Chan(s.net, i, j)[0])
    ensures Wire(c, net', i) + Wire(c, net', j) < Wire(c, s.net, i) + Wire(c, s.net, j)
    ensures forall x :: x in c.cores && x != i && x != j ==> Wire(c, net', x) == Wire(c, s.net, x)
  {
    WireChange(c, s.net, net', i, j);
    WireChange(c, s.net, net', j, i);
    forall x | x in c.cores && x != i && x != j ensures Wire(c, net', x) == Wire(c, s.net, x) {
      WireSame(c, s.net, net', x);
    }
  }

  lemma DeliverNodes(c: Config, s: State, i: Id, j: Id, x: Id)
    requires Enabled(c, s, Deliver(i, j)) && x in s.node
    ensures var s' := Exec(c, s, Deliver(i, j));
      x in s'.node && s'.node[x].phase == s.node[x].phase && s'.node[x].todo == s.node[x].todo
  {
  }

  // Node j takes a message off channel i -> j and answers with something lighter, if at all.
  lemma DeliverBudget(c: Config, s: State, i: Id, j: Id)
    requires FullMesh(c) && (forall x :: x in s.node <==> x in c.cores) && Enabled(c, s, Deliver(i, j))
    ensures Budget(c, Exec(c, s, Deliver(i, j))) < Budget(c, s)
  {
    var s' := Exec(c, s, Deliver(i, j));
    forall x, y {:trigger Chan(s'.net, x, y)} | x in c.cores && y in c.cores
      ensures (x, y) != (i, j) && (x, y) != (j, i) ==> Chan(s'.net, x, y) == Chan(s.net, x, y)
    {
      DeliverChannels(c, s, i, j, x, y);
    }
    DeliverChannels(c, s, i, j, i, j);
    DeliverChannels(c, s, i, j, j, i);
    ReplyIsLighter(Chan(s.net, i, j)[0], Chan(s.net, j, i), Chan(s'.net, j, i));
    DeliverWires(c, s, i, j, s'.net);
    RowsAfterDeliver(c, s, s', i, j);
  }

  lemma RowsAfterDeliver(c: Config, s: State, s': State, i: Id, j: Id)
    requires NoDup(c.cores) && i in c.cores && j in c.cores && Enabled(c, s, Deliver(i, j)) && s' == Exec(c, s, Deliver(i, j))
    requires forall x :: x in s.node <==> x in c.cores
    requires Wire(c, s'.net, i) + Wire(c, s'.net, j) < Wire(c, s.net, i) + Wire(c, s.net, j)
    requires forall x :: x in c.cores && x != i && x != j ==> Wire(c, s'.net, x) == Wire(c, s.net, x)
    ensures Budget(c, s') < Budget(c, s)
  {
    forall x | x in c.cores ensures Row(c, s', x) - Wire(c, s'.net, x) == Row(c, s, x) - Wire(c, s.net, x) {
      DeliverNodes(c, s, i, j, x);
    }
    TwoRows(c, s, s', i, j);
  }

  predicate IsLocal(a: Action) {
    a.Show? || a.Start? || a.Enter? || a.ApplyLocal? || a.Count? || a.Collect? || a.Leave? || a.Return?
  }

  // Taking up a script entry frees its cost.
  lemma TakeUp(n: Node, n': Node, k: nat)
    requires n.phase.Idle? && n.todo != [] && n'.todo == n.todo[1..]
    requires PhaseBudget(n'.phase, k) < Cost(k)
    ensures NodeBudget(n', k) < NodeBudget(n, k)
  {
    assert |n.todo| * Cost(k) == (|n.todo| - 1) * Cost(k) + Cost(k);
  }

  lemma PhaseGoesOn(c: Config, s: State, a: Action)
    requires Enabled(c, s, a) && IsLocal(a) && !a.Show? && !a.Start? && |Peers(c, a.i)| <= |c.cores|
    ensures var n, n' := s.node[a.i], Exec(c, s, a).node[a.i];
      n'.todo == n.todo && PhaseBudget(n'.phase, |c.cores|) < PhaseBudget(n.phase, |c.cores|)
  {
  }

  lemma LocalNode(c: Config, s: State, a: Action)
    requires Enabled(c, s, a) && IsLocal(a) && |Peers(c, a.i)| <= |c.cores|
    ensures var s' := Exec(c, s, a);
      && a.i in s.node && a.i in s'.node && s'.node == s.node[a.i := s'.node[a.i]]
      && NodeBudget(s'.node[a.i], |c.cores|) < NodeBudget(s.node[a.i], |c.cores|)
  {
    var n, n' := s.node[a.i], Exec(c, s, a).node[a.i];
    if a.Show? || a.Start? {
      TakeUp(n, n', |c.cores|);
    } else {
      PhaseGoesOn(c, s, a);
    }
  }

  lemma LocalStep(c: Config, s: State, a: Action)
    requires FullMesh(c) && Enabled(c, s, a) && (forall i :: i in s.node <==> i in c.cores) && IsLocal(a)
    ensures Budget(c, Exec(c, s, a)) < Budget(c, s)
  {
    var s' := Exec(c, s, a);
    PeersBound(c, a.i);
    LocalNode(c, s, a);
    forall x, y {:trigger Chan(s'.net, x, y)} | x in c.cores && y in c.cores ensures Chan(s'.net, x, y) == Chan(s.net, x, y) {
      assert NoDup(Kids(c, a.i)) && y !in Kids(c, a.i);
    }
    LocalBudget(c, s, s', a.i);
  }

  lemma CoreStepUsesBudget(c: Config, s: State, a: Action)
    requires MutexInv(c, s) && RepInv(c, s) && Enabled(c, s, a) && IsCore(a)
    ensures Budget(c, Exec(c, s, a)) < Budget(c, s)
  {
    var s' := Exec(c, s, a);
    match a {
      case SendRequest(i) =>
        SendsToCore(c, s, a);
        SendBudget(c, s, s', i, s.node[i].phase.unsent[0], Request(Ticket(s.node[i], i)));
      case SendWrite(i) =>
        SendsToCore(c, s, a);
        SendBudget(c, s, s', i, s.node[i].phase.unsent[0], Write(s.node[i].phase.data));
      case SendRelease(i) =>
        SendsToCore(c, s, a);
        SendBudget(c, s, s', i, s.node[i].phase.unsent[0], Release(s.node[i].phase.stamp));
      case Deliver(i, j) => DeliverBudget(c, s, i, j);
      case _ => LocalStep(c, s, a);
    }
  }

  lemma LowerStepKeepsBudget(c: Config, s: State, a: Action)
    requires FullMesh(c) && Forest(c) && Enabled(c, s, a) && !IsCore(a)
    ensures Budget(c, Exec(c, s, a)) == Budget(c, s)
  {
    var s' := Exec(c, s, a);
    forall x | x in c.cores ensures Row(c, s', x) == Row(c, s, x) {
      assert NoDup(Kids(c, a.i));
      WireSame(c, s.net, s'.net, x);
    }
    SumSame(c.cores, x => Row(c, s, x), x => Row(c, s', x));
  }

  // ------------------------------------------------------------- the results

  function CoreSteps(run: seq<Action>): nat {
    if run == [] then 0 else (if IsCore(run[0]) then 1 else 0) + CoreSteps(run[1..])
  }

  lemma {:induction false} RunWithinBudget(c: Config, scripts: map<Id, seq<TransactionData>>, s: State, run: seq<Action>)
    requires Inv(c, scripts, s) && Run(c, s, run)
    ensures CoreSteps(run) + Budget(c, After(c, s, run)) <= Budget(c, s)
    decreases |run|
  {
    if run == [] {
    } else {
      var s1 := Exec(c, s, run[0]);
      InvStep(c, scripts, s, run[0]);
      if IsCore(run[0]) {
        CoreStepUsesBudget(c, s, run[0]);
      } else {
        LowerStepKeepsBudget(c, s, run[0]);
      }
      RunWithinBudget(c, scripts, s1, run[1..]);
    }
  }

  ghost function Commands(c: Config, scripts: map<Id, seq<TransactionData>>): int {
    Sum(c.cores, i => |Script(scripts, i)|)
  }

  lemma {:induction false} SumScale(s: seq<int>, f: int -> int, g: int -> int, k: int)
    requires forall x :: x in s ==> g(x) == f(x) * k
    ensures Sum(s, g) == Sum(s, f) * k
  {
    if s == [] {
    } else {
      var x := s[0];
      assert x in s;
      SumScale(s[1..], f, g, k);
      assert Sum(s, g) == f(x) * k + Sum(s[1..], f) * k;
    }
  }

  lemma InitialBudget(c: Config, scripts: map<Id, seq<TransactionData>>)
    ensures Budget(c, Init(c, scripts)) == Commands(c, scripts) * Cost(|c.cores|)
  {
    var s := Init(c, scripts);
    var k := Cost(|c.cores|);
    forall i | i in c.cores ensures Row(c, s, i) == |Script(scripts, i)| * k {
      SumConst(c.cores, j => Weight(Chan(s.net, i, j)), 0);
      assert s.node[i] == InitNode(i, Script(scripts, i));
    }
    SumScale(c.cores, i => |Script(scripts, i)|, i => Row(c, s, i), k);
  }

  // However the threads are scheduled, the core takes at most 8n+7 steps per script entry.
  lemma Termination(c: Config, scripts: map<Id, seq<TransactionData>>, run: seq<Action>)
    requires ValidConfig(c) && Run(c, Init(c, scripts), run)
    ensures CoreSteps(run) <= Commands(c, scripts) * (8 * |c.cores| + 7)
  {
    InvInit(c, scripts);
    RunWithinBudget(c, scripts, Init(c, scripts), run);
    BudgetNonNegative(c, After(c, Init(c, scripts), run));
    InitialBudget(c, scripts);
  }
}
