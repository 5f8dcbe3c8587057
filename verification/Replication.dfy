// CoreNode::ExecuteTransaction and HandleMsg: one write at a time reaches every core
// replica, and the READYs counted are exactly those of that write.
module Replication {
  import opened Basics
  import opened Transactions
  import opened Protocol
  import opened Mutex

  // The writes of a log, in order.
  function Datas(log: seq<Grant>): (r: seq<TransactionData>)
    ensures |r| == |log|
  {
    seq(|log|, k requires 0 <= k < |log| => log[k].data)
  }

  lemma DatasSnoc(log: seq<Grant>, g: Grant)
    ensures Datas(log + [g]) == Datas(log) + [g.data]
    ensures (log + [g])[..|log|] == log
  {
  }

  function B(b: bool): int {
    if b then 1 else 0
  }

  // How many write messages, and how many READYs, a channel carries.
  function Writes(ch: seq<Msg>): nat {
    if ch == [] then 0 else (if ch[0].Write? then 1 else 0) + Writes(ch[1..])
  }

  function Readies(ch: seq<Msg>): nat {
    if ch == [] then 0 else (if ch[0].Ready? then 1 else 0) + Readies(ch[1..])
  }

  lemma {:induction false} TallyAppend(ch: seq<Msg>, m: Msg)
    ensures Writes(ch + [m]) == Writes(ch) + B(m.Write?)
    ensures Readies(ch + [m]) == Readies(ch) + B(m.Ready?)
  {
    if ch == [] {
      assert [] + [m] == [m];
    } else {
      assert (ch + [m])[1..] == ch[1..] + [m];
      TallyAppend(ch[1..], m);
    }
  }

  // Peers the node's current write has not been sent to yet.
  function Unsent(n: Node): seq<Id> {
    if n.phase.Sending? then n.phase.unsent else []
  }

  // The node's write still has READYs to collect.
  predicate Owes(n: Node) {
    n.phase.Sending? || n.phase.Counting? || n.phase.Awaiting?
  }

  // Writer i and peer j: the write is yet to be sent, on its way, answered, or counted,
  // and exactly one of these; nothing of the kind exists when i has no write.
  ghost predicate Account(i: Id, j: Id, ni: Node, cij: seq<Msg>, cji: seq<Msg>) {
    && B(j in Unsent(ni)) + Writes(cij) + Readies(cji) + B(j in ni.counted) == B(Owes(ni))
    && (forall m :: m in cij && m.Write? ==> Owes(ni) && m.data == ni.phase.data)
  }

  ghost predicate AccountOk(s: State, i: Id, j: Id)
    requires i in s.node
  {
    Account(i, j, s.node[i], Chan(s.net, i, j), Chan(s.net, j, i))
  }

  ghost predicate NodeRep(c: Config, i: Id, n: Node) {
    && (forall j :: j in n.counted ==> j in Peers(c, i))
    && n.local.finished == |n.counted|
    && NoDup(Unsent(n)) && (forall j :: j in Unsent(n) ==> j in Peers(c, i))
    && n.local.version == Fold(n.applied)
  }

  // The write of i, which is in its critical section, has not been applied at j.
  predicate Missing(s: State, i: Id, j: Id)
    requires i in s.node
  {
    if j == i then s.node[i].phase.Sending?
    else j in Unsent(s.node[i]) || Writes(Chan(s.net, i, j)) > 0
  }

  // The last log entry is the passage node i is in.
  predicate LastIs(s: State, i: Id)
    requires i in s.node && InCs(s.node[i])
  {
    |s.log| > 0 && s.log[|s.log| - 1] == Grant(Ticket(s.node[i], i), i, s.node[i].phase.data)
  }

  // While i is in the section, j has applied the whole log, or all but i's write.
  predicate Placed(s: State, i: Id, j: Id)
    requires i in s.node && j in s.node && InCs(s.node[i])
  {
    && LastIs(s, i)
    && s.node[j].applied == if Missing(s, i, j) then Datas(s.log[..|s.log| - 1]) else Datas(s.log)
  }

  ghost predicate Quiescent(s: State) {
    forall i :: i in s.node ==> !InCs(s.node[i])
  }

  ghost predicate RepInv(c: Config, s: State) {
    && (forall i {:trigger NodeRep(c, i, s.node[i])} :: i in s.node ==> NodeRep(c, i, s.node[i]))
    && (forall i, j {:trigger AccountOk(s, i, j)} :: i in s.node && j in s.node && i != j ==> AccountOk(s, i, j))
    && (forall i, j {:trigger Placed(s, i, j)} :: i in s.node && j in s.node && InCs(s.node[i]) ==> Placed(s, i, j))
    && (Quiescent(s) ==> forall j {:trigger s.node[j]} :: j in s.node ==> s.node[j].applied == Datas(s.log))
  }

  lemma RepInit(c: Config, scripts: map<Id, seq<TransactionData>>)
    requires FullMesh(c)
    ensures RepInv(c, Init(c, scripts))
  {
    var s := Init(c, scripts);
    assert forall i {:trigger s.node[i]} :: i in s.node ==> s.node[i] == InitNode(i, s.node[i].todo);
    forall i | i in s.node ensures NodeRep(c, i, s.node[i]) {
      InitNodeRep(c, i, s.node[i].todo);
    }
    forall i, j | i in s.node && j in s.node && i != j ensures AccountOk(s, i, j) {
      InitAccount(i, j, s.node[i].todo);
    }
  }

  lemma InitNodeRep(c: Config, i: Id, script: seq<TransactionData>)
    ensures NodeRep(c, i, InitNode(i, script))
  {
  }

  lemma InitAccount(i: Id, j: Id, script: seq<TransactionData>)
    ensures Account(i, j, InitNode(i, script), [], [])
  {
  }

  // ------------------------------------------- steps that do not concern writes

  // n' differs from n in nothing the replication looks at.
  ghost predicate SameWriter(i: Id, n: Node, n': Node) {
    && Unsent(n') == Unsent(n) && n'.counted == n.counted && (Owes(n') <==> Owes(n))
    && (InCs(n') <==> InCs(n)) && (n'.phase.Sending? <==> n.phase.Sending?)
    && (InCs(n) ==> n'.phase.data == n.phase.data && Ticket(n', i) == Ticket(n, i))
    && n'.applied == n.applied && n'.local.version == n.local.version && n'.local.finished == n.local.finished
  }

  // ch' holds the same write messages and READYs as ch.
  ghost predicate SameTraffic(ch: seq<Msg>, ch': seq<Msg>) {
    && Writes(ch') == Writes(ch) && Readies(ch') == Readies(ch)
    && (forall m :: m in ch' && m.Write? ==> m in ch)
  }

  lemma RepQuiet(c: Config, s: State, s': State)
    requires RepInv(c, s) && s'.log == s.log
    requires forall i :: i in s'.node <==> i in s.node
    requires forall i {:trigger SameWriter(i, s.node[i], s'.node[i])} :: i in s.node ==> SameWriter(i, s.node[i], s'.node[i])
    requires forall i, j {:trigger Chan(s'.net, i, j)} :: i in s.node && j in s.node && i != j ==>
      SameTraffic(Chan(s.net, i, j), Chan(s'.net, i, j))
    ensures RepInv(c, s')
  {
    forall i | i in s'.node ensures NodeRep(c, i, s'.node[i]) {
      assert NodeRep(c, i, s.node[i]) && SameWriter(i, s.node[i], s'.node[i]);
    }
    forall i, j | i in s'.node && j in s'.node && i != j ensures AccountOk(s', i, j) {
      assert AccountOk(s, i, j) && SameWriter(i, s.node[i], s'.node[i]);
      assert SameTraffic(Chan(s.net, i, j), Chan(s'.net, i, j)) && SameTraffic(Chan(s.net, j, i), Chan(s'.net, j, i));
    }
    forall i, j | i in s'.node && j in s'.node && InCs(s'.node[i]) ensures Placed(s', i, j) {
      assert SameWriter(i, s.node[i], s'.node[i]) && SameWriter(j, s.node[j], s'.node[j]);
      assert Placed(s, i, j);
      assert i != j ==> SameTraffic(Chan(s.net, i, j), Chan(s'.net, i, j));
    }
    if Quiescent(s') {
      assert Quiescent(s) by {
        forall i | i in s.node ensures !InCs(s.node[i]) {
          assert SameWriter(i, s.node[i], s'.node[i]);
        }
      }
      forall j | j in s'.node ensures s'.node[j].applied == Datas(s'.log) {
        assert SameWriter(j, s.node[j], s'.node[j]);
      }
    }
  }

  predicate IsSilent(s: State, a: Action) {
    || a.Show? || a.Start? || a.SendRequest? || a.Count? || a.SendRelease? || a.Return? || a.Tick? || a.DeliverUpdate?
    || (a.Deliver? && Chan(s.net, a.i, a.j) != [] &&
        (var m := Chan(s.net, a.i, a.j)[0]; m.Request? || m.Ack? || m.Release? || m.Read?))
  }

  lemma SilentActor(c: Config, s: State, a: Action)
    requires Enabled(c, s, a) && IsSilent(s, a) && !a.Deliver? && a.i in s.node
    ensures a.i in Exec(c, s, a).node && SameWriter(a.i, s.node[a.i], Exec(c, s, a).node[a.i])
  {
  }

  lemma SilentReceiver(i: Id, j: Id, n: Node, m: Msg, n': Node)
    requires i != j && (m.Request? || m.Ack? || m.Release? || m.Read?)
    requires n' == n.(local := Handled(n.local, j, i, m))
    ensures SameWriter(j, n, n')
  {
    HandledEffect(n.local, j, i, m);
    assert Lookup(n'.local.queue, j) == Lookup(n.local.queue, j);
  }

  lemma SilentNodes(c: Config, s: State, a: Action, i: Id)
    requires Enabled(c, s, a) && IsSilent(s, a) && i in s.node
    ensures i in Exec(c, s, a).node && SameWriter(i, s.node[i], Exec(c, s, a).node[i])
  {
    if i != if a.Deliver? then a.j else a.i {
      OnlyActor(c, s, a, i);
    } else if a.Deliver? {
      SilentReceiver(a.i, a.j, s.node[a.j], Chan(s.net, a.i, a.j)[0], Exec(c, s, a).node[a.j]);
    } else {
      SilentActor(c, s, a);
    }
  }

  lemma SilentChannels(c: Config, s: State, a: Action, x: Id, y: Id)
    requires Enabled(c, s, a) && IsSilent(s, a)
    requires forall i :: y !in Kids(c, i)
    requires forall i :: NoDup(Kids(c, i))
    ensures SameTraffic(Chan(s.net, x, y), Chan(Exec(c, s, a).net, x, y))
  {
    var ch, ch' := Chan(s.net, x, y), Chan(Exec(c, s, a).net, x, y);
    if a.Deliver? {
      DeliverChannels(c, s, a.i, a.j, x, y);
    }
    if |ch'| == |ch| + 1 {
      TallyAppend(ch, ch'[|ch|]);
    }
  }

  lemma SilentRest(c: Config, s: State, a: Action)
    requires Enabled(c, s, a) && IsSilent(s, a)
    ensures Exec(c, s, a).log == s.log
    ensures forall i :: i in Exec(c, s, a).node <==> i in s.node
  {
    forall i ensures i in Exec(c, s, a).node <==> i in s.node {
      SameNodes(c, s, a, i);
    }
  }

  lemma RepSilent(c: Config, s: State, a: Action)
    requires MutexInv(c, s) && RepInv(c, s) && Enabled(c, s, a) && IsSilent(s, a)
    ensures RepInv(c, Exec(c, s, a))
  {
    var s' := Exec(c, s, a);
    forall i {:trigger SameWriter(i, s.node[i], s'.node[i])} | i in s.node ensures i in s'.node && SameWriter(i, s.node[i], s'.node[i]) {
      SilentNodes(c, s, a, i);
    }
    SilentRest(c, s, a);
    forall i, j {:trigger Chan(s'.net, i, j)} | i in s.node && j in s.node && i != j
      ensures SameTraffic(Chan(s.net, i, j), Chan(s'.net, i, j))
    {
      SilentChannels(c, s, a, i, j);
    }
    RepQuiet(c, s, s');
  }

  // ----------------------------------------------------------- the write path

  lemma SoleWriter(c: Config, s: State, i: Id)
    requires MutexInv(c, s) && i in s.node && InCs(s.node[i])
    ensures forall x :: x in s.node && InCs(s.node[x]) ==> x == i
  {
    forall x | x in s.node && InCs(s.node[x]) ensures x == i {
      MutualExclusion(c, s, x, i);
    }
  }

  // Nobody is in the section when okeyCS lets a node in.
  lemma EntryIsQuiescent(c: Config, s: State, i: Id)
    requires MutexInv(c, s) && Enabled(c, s, Enter(i))
    ensures Quiescent(s)
  {
    forall k | k in s.node ensures !InCs(s.node[k]) {
      if InCs(s.node[k]) {
        assert NodeOk(c, k, s.node[k]);
        OkeyIsLeast(c, s, i, k);
        OkeyIsLeast(c, s, k, i);
      }
    }
  }

  lemma RepEnter(c: Config, s: State, i: Id)
    requires MutexInv(c, s) && RepInv(c, s) && Enabled(c, s, Enter(i))
    ensures RepInv(c, Exec(c, s, Enter(i)))
  {
    var s' := Exec(c, s, Enter(i));
    var n := s.node[i];
    EntryIsQuiescent(c, s, i);
    DatasSnoc(s.log, Grant(Ticket(n, i), i, n.phase.data));
    forall x | x in s'.node ensures NodeRep(c, x, s'.node[x]) {
      assert NodeRep(c, x, s.node[x]);
    }
    forall x, y | x in s'.node && y in s'.node && x != y ensures AccountOk(s', x, y) {
      assert AccountOk(s, x, y);
    }
    forall x, y | x in s'.node && y in s'.node && InCs(s'.node[x]) ensures Placed(s', x, y) {
      assert x == i;
      assert s.node[y].applied == Datas(s.log);
    }
    assert InCs(s'.node[i]);
  }

  // The writer i acts and stays in the section: it is enough to look at it.
  lemma RepWriter(c: Config, s: State, i: Id, s': State)
    requires MutexInv(c, s) && RepInv(c, s) && i in s.node && InCs(s.node[i])
    requires i in s'.node && s'.node == s.node[i := s'.node[i]] && InCs(s'.node[i])
    requires NodeRep(c, i, s'.node[i])
    requires forall x, y {:trigger AccountOk(s', x, y)} :: x in s.node && y in s.node && x != y ==> AccountOk(s', x, y)
    requires forall y {:trigger Placed(s', i, y)} :: y in s.node ==> Placed(s', i, y)
    ensures RepInv(c, s')
  {
    SoleWriter(c, s, i);
    forall x | x in s'.node ensures NodeRep(c, x, s'.node[x]) {
      if x != i {
        assert NodeRep(c, x, s.node[x]);
      }
    }
  }

  lemma SendWriteNode(c: Config, i: Id, n: Node, n': Node)
    requires NodeRep(c, i, n) && n.phase.Sending? && n.phase.unsent != []
    requires n' == n.(phase := Sending(n.phase.data, n.phase.unsent[1..]))
    ensures NodeRep(c, i, n')
    ensures forall y :: y in Unsent(n) && y != n.phase.unsent[0] <==> y in Unsent(n')
  {
    TailOk(c, i, n.phase.unsent);
  }

  lemma SendWriteAccount(c: Config, s: State, i: Id, x: Id, y: Id)
    requires Enabled(c, s, SendWrite(i)) && NodeRep(c, i, s.node[i])
    requires x in s.node && x != y && AccountOk(s, x, y)
    ensures AccountOk(Exec(c, s, SendWrite(i)), x, y)
  {
    var n := s.node[i];
    TallyAppend(Chan(s.net, x, y), Write(n.phase.data));
    TallyAppend(Chan(s.net, y, x), Write(n.phase.data));
    SendWriteNode(c, i, n, Exec(c, s, SendWrite(i)).node[i]);
  }

  lemma RepSendWrite(c: Config, s: State, i: Id)
    requires MutexInv(c, s) && RepInv(c, s) && Enabled(c, s, SendWrite(i))
    ensures RepInv(c, Exec(c, s, SendWrite(i)))
  {
    var s' := Exec(c, s, SendWrite(i));
    var n := s.node[i];
    assert NodeRep(c, i, n);
    SendWriteNode(c, i, n, s'.node[i]);
    forall x, y | x in s.node && y in s.node && x != y ensures AccountOk(s', x, y) {
      assert AccountOk(s, x, y);
      SendWriteAccount(c, s, i, x, y);
    }
    forall y | y in s.node ensures Placed(s', i, y) {
      assert Placed(s, i, y);
      TallyAppend(Chan(s.net, i, y), Write(n.phase.data));
    }
    RepWriter(c, s, i, s');
  }

  // The last entry of a log and the rest of it.
  lemma DatasLast(log: seq<Grant>)
    requires log != []
    ensures Datas(log) == Datas(log[..|log| - 1]) + [log[|log| - 1].data]
  {
  }

  lemma RepApplyLocal(c: Config, s: State, i: Id)
    requires MutexInv(c, s) && RepInv(c, s) && Enabled(c, s, ApplyLocal(i))
    ensures RepInv(c, Exec(c, s, ApplyLocal(i)))
  {
    var s' := Exec(c, s, ApplyLocal(i));
    var n := s.node[i];
    assert Placed(s, i, i) && NodeRep(c, i, n);
    FoldSnoc(n.applied, n.phase.data);
    forall x, y | x in s.node && y in s.node && x != y ensures AccountOk(s', x, y) {
      assert AccountOk(s, x, y);
      ApplyAccount(c, s, i, x, y);
    }
    forall y | y in s.node ensures Placed(s', i, y) {
      assert Placed(s, i, y);
      ApplyPlaced(c, s, i, y);
    }
    RepWriter(c, s, i, s');
  }

  lemma ApplyAccount(c: Config, s: State, i: Id, x: Id, y: Id)
    requires Enabled(c, s, ApplyLocal(i)) && x in s.node && AccountOk(s, x, y)
    ensures AccountOk(Exec(c, s, ApplyLocal(i)), x, y)
  {
  }

  lemma ApplyPlaced(c: Config, s: State, i: Id, y: Id)
    requires Enabled(c, s, ApplyLocal(i)) && y in s.node && Placed(s, i, y)
    ensures Placed(Exec(c, s, ApplyLocal(i)), i, y)
  {
    DatasLast(s.log);
  }

  // When as many READYs have come as there are peers, each peer has sent its one.
  lemma AllCounted(c: Config, i: Id, n: Node)
    requires NoDup(Peers(c, i)) && NodeRep(c, i, n) && n.local.finished == |Peers(c, i)|
    ensures forall j :: j in Peers(c, i) ==> j in n.counted
  {
    var all := Elems(Peers(c, i));
    forall j | j in n.counted ensures j in all {
      assert j in Peers(c, i);
    }
    var rest := all - n.counted;
    assert all == n.counted + rest && |all| == |n.counted| + |rest|;
    forall j | j in Peers(c, i) ensures j in n.counted {
      assert j in n.counted + rest;
    }
  }

  lemma {:induction false} NoWrites(ch: seq<Msg>)
    ensures (forall m :: m in ch ==> !m.Write?) <==> Writes(ch) == 0
  {
    if ch == [] {
    } else {
      NoWrites(ch[1..]);
      assert forall m :: m in ch <==> m == ch[0] || m in ch[1..];
    }
  }

  lemma RepCollect(c: Config, s: State, i: Id)
    requires MutexInv(c, s) && RepInv(c, s) && Enabled(c, s, Collect(i))
    ensures RepInv(c, Exec(c, s, Collect(i)))
  {
    var s' := Exec(c, s, Collect(i));
    assert NodeRep(c, i, s.node[i]);
    AllCounted(c, i, s.node[i]);
    forall x, y | x in s.node && y in s.node && x != y ensures AccountOk(s', x, y) {
      assert AccountOk(s, x, y);
      CollectAccount(c, s, i, x, y);
    }
    forall y | y in s.node ensures Placed(s', i, y) {
      assert Placed(s, i, y);
    }
    RepWriter(c, s, i, s');
  }

  lemma CollectAccount(c: Config, s: State, i: Id, x: Id, y: Id)
    requires Enabled(c, s, Collect(i)) && x in s.node && AccountOk(s, x, y) && (x == i ==> y in s.node[i].counted)
    ensures AccountOk(Exec(c, s, Collect(i)), x, y)
  {
    NoWrites(Chan(s.net, x, y));
  }

  // Once the READYs are in, everybody has applied the write.
  lemma AllApplied(c: Config, s: State, i: Id, j: Id)
    requires RepInv(c, s) && i in s.node && j in s.node && s.node[i].phase.Leaving?
    ensures s.node[j].applied == Datas(s.log)
  {
    assert Placed(s, i, j);
    assert i != j ==> AccountOk(s, i, j);
  }

  lemma LeaveEffect(c: Config, s: State, i: Id, x: Id)
    requires Enabled(c, s, Leave(i)) && x in s.node && NodeRep(c, x, s.node[x]) && (InCs(s.node[x]) ==> x == i)
    ensures var s' := Exec(c, s, Leave(i));
      s'.log == s.log && x in s'.node && NodeRep(c, x, s'.node[x]) && !InCs(s'.node[x]) && s'.node[x].applied == s.node[x].applied
  {
  }

  lemma LeaveAccount(c: Config, s: State, i: Id, x: Id, y: Id)
    requires Enabled(c, s, Leave(i)) && x in s.node && AccountOk(s, x, y)
    ensures x in Exec(c, s, Leave(i)).node && AccountOk(Exec(c, s, Leave(i)), x, y)
  {
  }

  lemma RepLeave(c: Config, s: State, i: Id)
    requires MutexInv(c, s) && RepInv(c, s) && Enabled(c, s, Leave(i))
    ensures RepInv(c, Exec(c, s, Leave(i)))
  {
    var s' := Exec(c, s, Leave(i));
    SoleWriter(c, s, i);
    forall j | j in s'.node ensures NodeRep(c, j, s'.node[j]) && !InCs(s'.node[j]) && s'.node[j].applied == Datas(s'.log) {
      assert NodeRep(c, j, s.node[j]);
      LeaveEffect(c, s, i, j);
      AllApplied(c, s, i, j);
    }
    forall x, y | x in s'.node && y in s'.node && x != y ensures AccountOk(s', x, y) {
      assert AccountOk(s, x, y);
      LeaveAccount(c, s, i, x, y);
    }
  }

  // ---------------------------------------------- messages of the write path

  // Handling a write message or a READY moves the sender's share of the account.
  lemma DeliverAccount(c: Config, s: State, i: Id, j: Id, x: Id, y: Id)
    requires Enabled(c, s, Deliver(i, j)) && (Chan(s.net, i, j)[0].Write? || Chan(s.net, i, j)[0].Ready?)
    requires NoDup(Kids(c, j)) && x !in Kids(c, j) && y !in Kids(c, j)
    requires AccountOk(s, j, i)
    requires x in s.node && x != y && AccountOk(s, x, y)
    ensures AccountOk(Exec(c, s, Deliver(i, j)), x, y)
  {
    DeliverChannels(c, s, i, j, x, y);
    DeliverChannels(c, s, i, j, y, x);
    var m := Chan(s.net, i, j)[0];
    if m.Write? {
      TallyAppend(Chan(s.net, j, i), Ready(m.data.value));
    }
  }

  lemma DeliverAccounts(c: Config, s: State, i: Id, j: Id)
    requires MutexInv(c, s) && RepInv(c, s)
    requires Enabled(c, s, Deliver(i, j)) && (Chan(s.net, i, j)[0].Write? || Chan(s.net, i, j)[0].Ready?)
    ensures forall x, y {:trigger AccountOk(Exec(c, s, Deliver(i, j)), x, y)} ::
      x in s.node && y in s.node && x != y ==> AccountOk(Exec(c, s, Deliver(i, j)), x, y)
  {
    forall x, y | x in s.node && y in s.node && x != y ensures AccountOk(Exec(c, s, Deliver(i, j)), x, y) {
      assert AccountOk(s, x, y) && AccountOk(s, j, i);
      assert x !in Kids(c, j) && y !in Kids(c, j);
      DeliverAccount(c, s, i, j, x, y);
    }
  }

  // The receiver j of i's write has everything but that write.
  lemma DeliverWriteNode(c: Config, s: State, i: Id, j: Id)
    requires MutexInv(c, s) && RepInv(c, s) && Enabled(c, s, Deliver(i, j)) && Chan(s.net, i, j)[0].Write?
    ensures InCs(s.node[i]) && !InCs(s.node[j]) && s.log != []
    ensures s.node[j].applied + [Chan(s.net, i, j)[0].data] == Datas(s.log)
  {
    assert AccountOk(s, i, j) && Chan(s.net, i, j)[0] in Chan(s.net, i, j);
    assert Placed(s, i, j);
    DatasLast(s.log);
    SoleWriter(c, s, i);
  }

  lemma DeliverWriteRep(c: Config, s: State, i: Id, j: Id, x: Id)
    requires Enabled(c, s, Deliver(i, j)) && Chan(s.net, i, j)[0].Write?
    requires x in s.node && NodeRep(c, x, s.node[x])
    ensures NodeRep(c, x, Exec(c, s, Deliver(i, j)).node[x])
  {
    FoldSnoc(s.node[j].applied, Chan(s.net, i, j)[0].data);
  }

  // Only the writer's own row decides where its write is missing.
  lemma RepReader(c: Config, s: State, i: Id, s': State)
    requires MutexInv(c, s) && i in s.node && InCs(s.node[i])
    requires forall x :: x in s'.node <==> x in s.node
    requires forall x {:trigger s'.node[x]} :: x in s.node ==> s'.node[x].phase == s.node[x].phase
    requires forall x {:trigger NodeRep(c, x, s'.node[x])} :: x in s.node ==> NodeRep(c, x, s'.node[x])
    requires forall x, y {:trigger AccountOk(s', x, y)} :: x in s.node && y in s.node && x != y ==> AccountOk(s', x, y)
    requires forall y {:trigger Placed(s', i, y)} :: y in s.node ==> InCs(s'.node[i]) && Placed(s', i, y)
    ensures RepInv(c, s')
  {
    SoleWriter(c, s, i);
    assert InCs(s'.node[i]);
  }

  lemma DeliverWritePlaced(c: Config, s: State, i: Id, j: Id, y: Id)
    requires Enabled(c, s, Deliver(i, j)) && Chan(s.net, i, j)[0].Write?
    requires NoDup(Kids(c, j)) && y !in Kids(c, j) && y in s.node && InCs(s.node[i])
    requires Placed(s, i, y) && AccountOk(s, i, j)
    requires s.node[j].applied + [Chan(s.net, i, j)[0].data] == Datas(s.log)
    ensures Placed(Exec(c, s, Deliver(i, j)), i, y)
  {
    DeliverChannels(c, s, i, j, i, y);
  }

  lemma DeliverWriteEverywhere(c: Config, s: State, i: Id, j: Id)
    requires MutexInv(c, s) && RepInv(c, s) && Enabled(c, s, Deliver(i, j)) && Chan(s.net, i, j)[0].Write?
    ensures forall x {:trigger NodeRep(c, x, Exec(c, s, Deliver(i, j)).node[x])} :: x in s.node ==>
      NodeRep(c, x, Exec(c, s, Deliver(i, j)).node[x])
    ensures forall y {:trigger Placed(Exec(c, s, Deliver(i, j)), i, y)} :: y in s.node ==>
      InCs(Exec(c, s, Deliver(i, j)).node[i]) && Placed(Exec(c, s, Deliver(i, j)), i, y)
  {
    DeliverWriteNode(c, s, i, j);
    forall x | x in s.node ensures NodeRep(c, x, Exec(c, s, Deliver(i, j)).node[x]) {
      assert NodeRep(c, x, s.node[x]);
      DeliverWriteRep(c, s, i, j, x);
    }
    var s' := Exec(c, s, Deliver(i, j));
    forall y | y in s.node ensures InCs(s'.node[i]) && Placed(s', i, y) {
      assert Placed(s, i, y) && AccountOk(s, i, j);
      assert y !in Kids(c, j);
      DeliverWritePlaced(c, s, i, j, y);
    }
  }

  lemma RepDeliverWrite(c: Config, s: State, i: Id, j: Id)
    requires MutexInv(c, s) && RepInv(c, s) && Enabled(c, s, Deliver(i, j)) && Chan(s.net, i, j)[0].Write?
    ensures RepInv(c, Exec(c, s, Deliver(i, j)))
  {
    DeliverWriteNode(c, s, i, j);
    DeliverWriteEverywhere(c, s, i, j);
    DeliverAccounts(c, s, i, j);
    RepReader(c, s, i, Exec(c, s, Deliver(i, j)));
  }

  lemma RepDeliverReady(c: Config, s: State, i: Id, j: Id)
    requires MutexInv(c, s) && RepInv(c, s) && Enabled(c, s, Deliver(i, j)) && Chan(s.net, i, j)[0].Ready?
    ensures RepInv(c, Exec(c, s, Deliver(i, j)))
  {
    var s' := Exec(c, s, Deliver(i, j));
    var n := s.node[j];
    assert AccountOk(s, j, i) && NodeRep(c, j, n);
    DeliverAccounts(c, s, i, j);
    forall y | y in s.node ensures Placed(s', j, y) {
      assert Placed(s, j, y);
      assert y !in Kids(c, j);
      DeliverChannels(c, s, i, j, j, y);
    }
    RepWriter(c, s, j, s');
  }

  lemma RepStep(c: Config, s: State, a: Action)
    requires MutexInv(c, s) && RepInv(c, s) && Enabled(c, s, a)
    ensures RepInv(c, Exec(c, s, a))
  {
    match a {
      case Enter(i) => RepEnter(c, s, i);
      case SendWrite(i) => RepSendWrite(c, s, i);
      case ApplyLocal(i) => RepApplyLocal(c, s, i);
      case Collect(i) => RepCollect(c, s, i);
      case Leave(i) => RepLeave(c, s, i);
      case Deliver(i, j) =>
        var ch := Chan(s.net, i, j);
        NoUpdates(c, s, i, j);
        if ch[0].Write? {
          RepDeliverWrite(c, s, i, j);
        } else if ch[0].Ready? {
          RepDeliverReady(c, s, i, j);
        } else {
          RepSilent(c, s, a);
        }
      case _ => RepSilent(c, s, a);
    }
  }
}
