// What the system promises, for every configuration, workload and schedule.
module Guarantees {
  import opened Basics
  import opened Transactions
  import opened Protocol
  import opened Mutex
  import opened Replication
  import opened Log
  import opened System
  import opened Progress

  // ------------------------------------------------------- mutual exclusion

  // At most one node is in its critical section, and okeyCS holds there until it leaves.
  lemma AtMostOneWriter(c: Config, scripts: map<Id, seq<TransactionData>>, s: State, i: Id, j: Id)
    requires Reachable(c, scripts, s) && i in s.node && j in s.node && InCs(s.node[i]) && InCs(s.node[j])
    ensures i == j && Okey(s.node[i].local, i, Peers(c, i))
  {
    Always(c, scripts, s);
    assert NodeOk(c, i, s.node[i]);
    MutualExclusion(c, s, i, j);
  }

  // ------------------------------------------------------------ replication

  // How much of the log a replica has.
  lemma ReplicaIsPrefix(c: Config, s: State, j: Id)
    requires RepInv(c, s) && j in s.node
    ensures |s.log| - 1 <= |s.node[j].applied| <= |s.log|
    ensures s.node[j].applied == Datas(s.log)[..|s.node[j].applied|]
    ensures s.node[j].local.version == Fold(s.node[j].applied)
    ensures Quiescent(s) ==> s.node[j].applied == Datas(s.log)
  {
    assert NodeRep(c, j, s.node[j]);
    if !Quiescent(s) {
      var i :| i in s.node && InCs(s.node[i]);
      assert Placed(s, i, j);
      DatasLast(s.log);
    }
  }

  // Every core replica is the fold of a prefix of one log, at most one write short of it,
  // and of the whole log whenever nobody is in the critical section.
  lemma OneLog(c: Config, scripts: map<Id, seq<TransactionData>>, s: State, i: Id, j: Id)
    requires Reachable(c, scripts, s) && i in s.node && j in s.node
    ensures |s.log| - 1 <= |s.node[i].applied| <= |s.log|
    ensures s.node[i].local.version == Fold(Datas(s.log)[..|s.node[i].applied|])
    ensures s.node[i].applied <= s.node[j].applied || s.node[j].applied <= s.node[i].applied
    ensures -1 <= |s.node[i].applied| - |s.node[j].applied| <= 1
    ensures Quiescent(s) ==> s.node[i].local.version == s.node[j].local.version == Fold(Datas(s.log))
  {
    Always(c, scripts, s);
    ReplicaIsPrefix(c, s, i);
    ReplicaIsPrefix(c, s, j);
  }

  // The common log is the writes in strictly increasing (ticks, id) order of their
  // requests, and restricted to one node it is a prefix of the writes of its script.
  lemma LogIsRequestOrder(c: Config, scripts: map<Id, seq<TransactionData>>, s: State, i: Id)
    requires Reachable(c, scripts, s) && i in s.node
    ensures forall p, q {:trigger s.log[p], s.log[q]} :: 0 <= p < q < |s.log| ==>
      s.log[p].ticks < s.log[q].ticks || (s.log[p].ticks == s.log[q].ticks && s.log[p].id < s.log[q].id)
    ensures ByNode(s.log, i) <= WritesOf(Script(scripts, i))
  {
    Always(c, scripts, s);
    forall p, q | 0 <= p < q < |s.log|
      ensures s.log[p].ticks < s.log[q].ticks || (s.log[p].ticks == s.log[q].ticks && s.log[p].id < s.log[q].id)
    {
      assert Before(s.log[p], s.log[q]);
    }
    assert ScriptOk(Script(scripts, i), s.log, i, s.node[i]);
    Reassociate(ByNode(s.log, i), Requesting(s.node[i]), WritesOf(s.node[i].todo));
  }

  // A request made now gets strictly more ticks than every write already granted.
  lemma LaterRequestsHaveMoreTicks(c: Config, scripts: map<Id, seq<TransactionData>>, s: State, k: Id, p: nat)
    requires Reachable(c, scripts, s) && Enabled(c, s, Start(k)) && p < |s.log|
    ensures Ticket(Exec(c, s, Start(k)).node[k], k) > s.log[p].ticks
  {
    Always(c, scripts, s);
    assert PastOk(s, k);
    ClocksReachLog(s, k, p);
    StartTicks(c, s, k);
  }

  lemma StartTicks(c: Config, s: State, k: Id)
    requires Enabled(c, s, Start(k))
    ensures Ticket(Exec(c, s, Start(k)).node[k], k) == Get(s.node[k].local.ticks, k) + 1
  {
  }

  lemma ClocksReachLog(s: State, k: Id, p: nat)
    requires Ordered(s.log) && k in s.node && p < |s.log| && PastOk(s, k)
    ensures Get(s.node[k].local.ticks, k) >= s.log[p].ticks
  {
    var last := s.log[|s.log| - 1];
    assert p < |s.log| - 1 ==> Before(s.log[p], last);
  }

  // ------------------------------------------------------------------ reads

  // A step only ever adds to what a replica has applied, and to the log.
  lemma StepAppends(c: Config, s: State, a: Action, j: Id)
    requires Enabled(c, s, a) && j in s.node
    ensures j in Exec(c, s, a).node
    ensures s.node[j].applied <= Exec(c, s, a).node[j].applied
    ensures s.log <= Exec(c, s, a).log
  {
  }

  lemma {:induction false} RunAppends(c: Config, s: State, run: seq<Action>, j: Id)
    requires RawRun(c, s, run) && j in s.node
    ensures j in After(c, s, run).node
    ensures s.node[j].applied <= After(c, s, run).node[j].applied
    ensures s.log <= After(c, s, run).log
    decreases |run|
  {
    if run == [] {
    } else {
      StepAppends(c, s, run[0], j);
      RunAppends(c, Exec(c, s, run[0]), run[1..], j);
    }
  }

  // The thread that entered the section for log entry p is back from the write: a later
  // entry exists, or nobody is in the section.
  ghost predicate Returned(s: State, p: nat) {
    p < |s.log| && (p < |s.log| - 1 || Quiescent(s))
  }

  // Once a write's ExecuteTransaction has returned, any core replica at any later time, whatever
  // its own thread is doing, holds a value that includes it and misses at most the write in
  // progress; and what a READ of the node's own script then prints is that value.
  lemma ReadsAreFresh(c: Config, scripts: map<Id, seq<TransactionData>>, s: State, more: seq<Action>, j: Id, p: nat)
    requires Reachable(c, scripts, s) && Returned(s, p)
    requires Run(c, s, more) && j in s.node
    ensures s.log <= After(c, s, more).log && j in After(c, s, more).node
    ensures exists n: nat ::
      && p < n <= |After(c, s, more).log| && |After(c, s, more).log| - 1 <= n
      && After(c, s, more).node[j].local.version == Fold(Datas(After(c, s, more).log)[..n])
    ensures var t := After(c, s, more);
      Enabled(c, t, Show(j)) ==> Exec(c, t, Show(j)).node[j].shown == t.node[j].shown + [t.node[j].local.version]
  {
    var s' := After(c, s, more);
    Always(c, scripts, s);
    InvRun(c, scripts, s, more);
    RunAppends(c, s, more, j);
    FreshAt(c, s, s', j, p);
    if Enabled(c, s', Show(j)) {
      ShownByRead(c, s', j);
    }
  }

  lemma FreshAt(c: Config, s: State, s': State, j: Id, p: nat)
    requires RepInv(c, s) && RepInv(c, s') && Returned(s, p) && j in s.node && j in s'.node
    requires s.node[j].applied <= s'.node[j].applied
    ensures exists n: nat ::
      && p < n <= |s'.log| && |s'.log| - 1 <= n
      && s'.node[j].local.version == Fold(Datas(s'.log)[..n])
  {
    ReplicaIsPrefix(c, s, j);
    ReplicaIsPrefix(c, s', j);
    assert p < |s'.node[j].applied|;
  }

  lemma ShownByRead(c: Config, s: State, j: Id)
    requires Enabled(c, s, Show(j))
    ensures Exec(c, s, Show(j)).node[j].shown == s.node[j].shown + [s.node[j].local.version]
  {
  }

  // -------------------------------------------------------- READY accounting

  // Write messages still to be sent by i, on the wire, or answered by a READY on the wire.
  ghost function Expected(c: Config, s: State, i: Id): int
    requires i in s.node
  {
    Sum(Peers(c, i), j => ExpectedFrom(s, i, j))
  }

  function ExpectedFrom(s: State, i: Id, j: Id): int {
    if i in s.node then B(j in Unsent(s.node[i])) + Writes(Chan(s.net, i, j)) + Readies(Chan(s.net, j, i)) else 0
  }

  lemma {:induction false} CountMembers(s: seq<int>, S: set<int>)
    requires NoDup(s) && S <= Elems(s)
    ensures Sum(s, x => B(x in S)) == |S|
  {
    if s == [] {
      assert S <= {};
    } else {
      var h := s[0];
      var T := S - {h};
      assert forall x :: x in Elems(s) <==> x == h || x in Elems(s[1..]);
      CountMembers(s[1..], T);
      SumSame(s[1..], x => B(x in S), x => B(x in T));
      if h in S {
        assert S == T + {h} && |S| == |T| + 1;
      } else {
        assert S == T;
      }
    }
  }

  lemma PeerAccounts(c: Config, s: State, i: Id)
    requires MutexInv(c, s) && RepInv(c, s) && i in s.node
    ensures Expected(c, s, i) + Sum(Peers(c, i), x => B(x in s.node[i].counted)) == B(Owes(s.node[i])) * |Peers(c, i)|
  {
    var n := s.node[i];
    var e := j => ExpectedFrom(s, i, j);
    var d := x => B(x in n.counted);
    var t := j => e(j) + d(j);
    forall j | j in Peers(c, i) ensures t(j) == B(Owes(n)) {
      assert AccountOk(s, i, j);
    }
    SumConst(Peers(c, i), t, B(Owes(n)));
    SumAdd(Peers(c, i), e, d, t);
    SumSame(Peers(c, i), d, x => B(x in s.node[i].counted));
    SumSame(Peers(c, i), e, j => ExpectedFrom(s, i, j));
  }

  // While a write is under way, READYs counted and expected add up to the number of peers;
  // otherwise there are none, so no READY is ever counted for another write.
  lemma ReadyAccounting(c: Config, scripts: map<Id, seq<TransactionData>>, s: State, i: Id)
    requires Reachable(c, scripts, s) && i in s.node
    ensures s.node[i].local.finished + Expected(c, s, i) == if Owes(s.node[i]) then |Peers(c, i)| else 0
  {
    Always(c, scripts, s);
    PeerAccounts(c, s, i);
    assert NodeRep(c, i, s.node[i]);
    forall j | j in s.node[i].counted ensures j in Elems(Peers(c, i)) {
      assert j in Peers(c, i);
    }
    CountMembers(Peers(c, i), s.node[i].counted);
  }

  // ------------------------------------------------------------- completion

  lemma TodoStaysValid(c: Config, scripts: map<Id, seq<TransactionData>>, s: State)
    requires LogInv(scripts, s) && forall i :: ValidScript(Script(scripts, i))
    ensures forall i :: i in s.node ==> ValidScript(s.node[i].todo)
  {
    forall i | i in s.node ensures ValidScript(s.node[i].todo) {
      assert ScriptOk(Script(scripts, i), s.log, i, s.node[i]);
    }
  }

  // No core node can move.
  ghost predicate CoreIsStuck(c: Config, s: State) {
    forall a {:trigger Enabled(c, s, a)} :: IsCore(a) && Enabled(c, s, a) ==> !Gate(s, a)
  }

  lemma FinishedIsStuck(c: Config, s: State, a: Action)
    requires Finished(s) && IsCore(a)
    ensures !Enabled(c, s, a)
  {
  }

  lemma UnfinishedIsNotStuck(c: Config, s: State)
    requires MutexInv(c, s) && RepInv(c, s) && !Finished(s)
    requires forall i :: i in s.node ==> ValidScript(s.node[i].todo)
    ensures !CoreIsStuck(c, s)
  {
    var a := FindStep(c, s);
    assert IsCore(a) && Enabled(c, s, a) && Gate(s, a);
  }

  // The core stops exactly when the work is done.
  lemma StuckIffFinished(c: Config, scripts: map<Id, seq<TransactionData>>, s: State)
    requires Reachable(c, scripts, s) && forall i :: ValidScript(Script(scripts, i))
    ensures CoreIsStuck(c, s) <==> Finished(s)
  {
    Always(c, scripts, s);
    TodoStaysValid(c, scripts, s);
    if !Finished(s) {
      UnfinishedIsNotStuck(c, s);
    } else {
      forall a {:trigger Enabled(c, s, a)} | IsCore(a) ensures !Enabled(c, s, a) {
        FinishedIsStuck(c, s, a);
      }
    }
  }

  // Then every core replica holds the same interleaving of all the scripts' writes.
  lemma FinishedIsComplete(c: Config, scripts: map<Id, seq<TransactionData>>, s: State, i: Id)
    requires Reachable(c, scripts, s) && Finished(s) && i in s.node
    ensures s.node[i].local.version == Fold(Datas(s.log))
    ensures ByNode(s.log, i) == WritesOf(Script(scripts, i))
    ensures forall p :: 0 <= p < |s.log| ==> s.log[p].id in s.node
  {
    Always(c, scripts, s);
    ReplicaIsPrefix(c, s, i);
    FinishedIsQuiescent(s);
    assert ScriptOk(Script(scripts, i), s.log, i, s.node[i]);
    NothingLeft(Script(scripts, i), s.log, i, s.node[i]);
    assert Datas(s.log)[..|s.log|] == Datas(s.log);
  }

  lemma FinishedIsQuiescent(s: State)
    requires Finished(s)
    ensures Quiescent(s)
  {
  }

  lemma NothingLeft(script: seq<TransactionData>, log: seq<Grant>, i: Id, n: Node)
    requires ScriptOk(script, log, i, n) && n.phase.Idle? && n.todo == []
    ensures ByNode(log, i) == WritesOf(script)
  {
    assert ByNode(log, i) + [] + [] == ByNode(log, i);
  }

  // From every reachable state the work can be completed.
  lemma {:induction false} CanComplete(c: Config, scripts: map<Id, seq<TransactionData>>, s: State) returns (rest: seq<Action>)
    requires Inv(c, scripts, s) && forall i :: ValidScript(Script(scripts, i))
    ensures Run(c, s, rest) && Finished(After(c, s, rest))
    decreases Budget(c, s)
  {
    if Finished(s) {
      rest := [];
    } else {
      TodoStaysValid(c, scripts, s);
      BudgetNonNegative(c, s);
      var a := FindStep(c, s);
      InvStep(c, scripts, s, a);
      CoreStepUsesBudget(c, s, a);
      var more := CanComplete(c, scripts, Exec(c, s, a));
      rest := [a] + more;
      assert rest[0] == a && rest[1..] == more;
    }
  }

  lemma WorkCanComplete(c: Config, scripts: map<Id, seq<TransactionData>>, s: State)
    requires Reachable(c, scripts, s) && forall i :: ValidScript(Script(scripts, i))
    ensures exists rest :: Run(c, s, rest) && Finished(After(c, s, rest))
  {
    Always(c, scripts, s);
    var rest := CanComplete(c, scripts, s);
  }
}
