// Exactly when the race of module RequestRace can break mutual exclusion: whenever two
// core nodes have a write to do, however many nodes there are and whatever else they do.
module RaceCondition {
  import opened Basics
  import opened Transactions
  import opened Protocol
  import opened Mutex
  import opened Log
  import opened Steps
  import opened System

  // ------------------------------------------------ asking every peer in turn

  // Node k has its REQUEST with stamp t on the channel to p, and nothing from p to read.
  predicate Asking(s: State, k: Id, t: int, p: Id) {
    p in s.node && p != k && Chan(s.net, k, p) == [Request(t)] && Chan(s.net, p, k) == []
  }

  // What node x knows and where it stands, but for its clock table.
  ghost predicate SameStand(n: Node, n': Node) {
    n'.phase == n.phase && n'.todo == n.todo && n'.local.queue == n.local.queue
  }

  // s' is s after p has answered k's REQUEST and k has read the answer.
  ghost predicate Exchanged(s: State, k: Id, t: int, p: Id, s': State) {
    && k in s.node && p in s.node && (forall x :: x in s'.node <==> x in s.node)
    && (forall x {:trigger s'.node[x]} :: x in s.node && x != k && x != p ==> s'.node[x] == s.node[x])
    && SameStand(s.node[k], s'.node[k]) && Get(s'.node[k].local.ticks, p) > t
    && (forall x {:trigger Get(s'.node[k].local.ticks, x)} :: x != k && x != p ==>
          Get(s'.node[k].local.ticks, x) == Get(s.node[k].local.ticks, x))
    && SameStand(s.node[p].(local := s.node[p].local.(queue := s.node[p].local.queue[k := t])), s'.node[p])
    && (forall x, y {:trigger Chan(s'.net, x, y)} ::
          Chan(s'.net, x, y) == if x == k && y == p then [] else Chan(s.net, x, y))
  }

  lemma Answer(c: Config, s: State, k: Id, t: int, p: Id)
    requires k in s.node && Asking(s, k, t, p)
    ensures Enabled(c, s, Deliver(k, p))
    ensures var s' := Exec(c, s, Deliver(k, p));
      var n, n' := s.node[p], Exec(c, s, Deliver(k, p)).node[p];
      && s'.node == s.node[p := n']
      && n'.phase == n.phase && n'.todo == n.todo && n'.local.queue == n.local.queue[k := t]
      && Get(n'.local.ticks, p) > t
      && Chan(s'.net, k, p) == [] && Chan(s'.net, p, k) == [Ack(Get(n'.local.ticks, p))]
      && forall x, y :: (x, y) != (k, p) && (x, y) != (p, k) ==> Chan(s'.net, x, y) == Chan(s.net, x, y)
  {
    assert Chan(s.net, k, p)[1..] == [];
  }

  lemma ReadAnswer(c: Config, s: State, k: Id, p: Id, a: int)
    requires k in s.node && p in s.node && k != p && Chan(s.net, p, k) == [Ack(a)]
    ensures Enabled(c, s, Deliver(p, k))
    ensures var s' := Exec(c, s, Deliver(p, k));
      var n, n' := s.node[k], Exec(c, s, Deliver(p, k)).node[k];
      && s'.node == s.node[k := n'] && SameStand(n, n')
      && Get(n'.local.ticks, p) >= a
      && (forall x :: x != k && x != p ==> Get(n'.local.ticks, x) == Get(n.local.ticks, x))
      && Chan(s'.net, p, k) == []
      && forall x, y :: (x, y) != (p, k) ==> Chan(s'.net, x, y) == Chan(s.net, x, y)
  {
    assert Chan(s.net, p, k)[1..] == [];
  }

  lemma Exchange(c: Config, s: State, k: Id, t: int, p: Id) returns (s': State)
    requires k in s.node && Asking(s, k, t, p)
    ensures Leads(c, false, s, s') && Exchanged(s, k, t, p, s')
  {
    Answer(c, s, k, t, p);
    var s1 := Exec(c, s, Deliver(k, p));
    ReadAnswer(c, s1, k, p, Get(s1.node[p].local.ticks, p));
    s' := Exec(c, s1, Deliver(p, k));
    LeadsStep(c, false, s, Deliver(k, p));
    LeadsStep(c, false, s1, Deliver(p, k));
    LeadsOn(c, false, s, s1, s');
  }

  // s' is s after all of `peers` have answered k's REQUEST.
  ghost predicate Answered(s: State, k: Id, t: int, peers: seq<Id>, s': State) {
    && k in s.node && (forall x :: x in s'.node <==> x in s.node)
    && SameStand(s.node[k], s'.node[k])
    && (forall p {:trigger Get(s'.node[k].local.ticks, p)} :: p != k ==>
          if p in peers then Get(s'.node[k].local.ticks, p) > t
          else Get(s'.node[k].local.ticks, p) == Get(s.node[k].local.ticks, p))
    && (forall x {:trigger s'.node[x]} :: x in s.node && x != k ==>
          && s'.node[x].phase == s.node[x].phase && s'.node[x].todo == s.node[x].todo
          && s'.node[x].local.queue == if x in peers then s.node[x].local.queue[k := t] else s.node[x].local.queue)
    && (forall x, y {:trigger Chan(s'.net, x, y)} ::
          Chan(s'.net, x, y) == if x == k && y in peers then [] else Chan(s.net, x, y))
  }

  lemma AnsweredCons(s: State, k: Id, t: int, peers: seq<Id>, s1: State, s': State)
    requires peers != [] && NoDup(peers) && peers[0] != k
    requires Exchanged(s, k, t, peers[0], s1) && Answered(s1, k, t, peers[1..], s')
    ensures Answered(s, k, t, peers, s')
  {
    assert forall p :: p in peers <==> p == peers[0] || p in peers[1..];
    assert peers[0] !in peers[1..];
    forall p {:trigger Get(s'.node[k].local.ticks, p)} | p != k
      ensures if p in peers then Get(s'.node[k].local.ticks, p) > t
        else Get(s'.node[k].local.ticks, p) == Get(s.node[k].local.ticks, p)
    {
      assert Get(s1.node[k].local.ticks, p) == Get(s1.node[k].local.ticks, p);
    }
  }

  lemma {:induction false} AskAround(c: Config, s: State, k: Id, t: int, peers: seq<Id>) returns (s': State)
    requires k in s.node && NoDup(peers)
    requires forall p {:trigger Asking(s, k, t, p)} :: p in peers ==> Asking(s, k, t, p)
    ensures Leads(c, false, s, s') && Answered(s, k, t, peers, s')
    decreases |peers|
  {
    if peers == [] {
      s' := s;
      LeadsNowhere(c, false, s);
    } else {
      var first, rest := peers[0], peers[1..];
      assert first in peers && Asking(s, k, t, first);
      var s1 := Exchange(c, s, k, t, first);
      forall p | p in rest ensures Asking(s1, k, t, p) {
        assert p in peers && p != first && Asking(s, k, t, p);
      }
      s' := AskAround(c, s1, k, t, rest);
      LeadsOn(c, false, s, s1, s');
      AnsweredCons(s, k, t, peers, s1, s');
    }
  }

  // ----------------------------------------------------------- the collision

  // Node k sends its REQUESTs, everybody answers, and it enters, if no request it knows of
  // comes first.
  lemma AskAndEnter(c: Config, s: State, k: Id, t: int) returns (s': State)
    requires k in s.node && NoDup(Peers(c, k)) && (forall p :: p in Peers(c, k) ==> p in s.node && p != k)
    requires s.node[k].phase.Waiting? && s.node[k].phase.unsent == Peers(c, k) && Lookup(s.node[k].local.queue, k) == Some(t)
    requires forall x, y {:trigger Chan(s.net, x, y)} :: Chan(s.net, x, y) == []
    requires forall p :: p in Peers(c, k) && p in s.node[k].local.queue ==> !IsGreater(t, k, s.node[k].local.queue[p], p)
    ensures Leads(c, false, s, s') && (forall x :: x in s'.node <==> x in s.node) && InCs(s'.node[k])
    ensures forall x {:trigger s'.node[x]} :: x in s.node && x != k ==>
      && s'.node[x].phase == s.node[x].phase
      && s'.node[x].local.queue == if x in Peers(c, k) then s.node[x].local.queue[k := t] else s.node[x].local.queue
    ensures forall x, y {:trigger Chan(s'.net, x, y)} :: Chan(s'.net, x, y) == []
  {
    var peers := Peers(c, k);
    var s1 := Sent(s, k, Waiting(s.node[k].phase.data, []), peers, Request(t));
    SendToAll(c, false, s, k, t);
    forall p | p in peers ensures Asking(s1, k, t, p) {
      assert Chan(s1.net, k, p) == [] + [Request(t)];
    }
    var s2 := AskAround(c, s1, k, t, peers);
    LeadsOn(c, false, s, s1, s2);
    EntryIsOpen(c, s2, k, t);
    s' := Exec(c, s2, Enter(k));
    LeadsStep(c, false, s2, Enter(k));
    LeadsOn(c, false, s, s2, s');
  }

  lemma SendToAll(c: Config, gated: bool, s: State, k: Id, t: int)
    requires k in s.node && s.node[k].phase.Waiting? && Lookup(s.node[k].local.queue, k) == Some(t)
    ensures Leads(c, gated, s, Sent(s, k, Waiting(s.node[k].phase.data, []), s.node[k].phase.unsent, Request(t)))
  {
    RequestLoop(c, s, k);
  }

  lemma EntryIsOpen(c: Config, s: State, k: Id, t: int)
    requires k in s.node && s.node[k].phase.Waiting? && s.node[k].phase.unsent == [] && Lookup(s.node[k].local.queue, k) == Some(t)
    requires forall p :: p in Peers(c, k) ==> p != k && Get(s.node[k].local.ticks, p) > t
    requires forall p :: p in Peers(c, k) && p in s.node[k].local.queue ==> !IsGreater(t, k, s.node[k].local.queue[p], p)
    ensures Enabled(c, s, Enter(k))
  {
    forall p | p in Peers(c, k) ensures Yields(s.node[k].local, k, p) {
    }
  }

  predicate HasWrite(script: seq<TransactionData>) {
    WritesOf(script) != []
  }

  lemma OneRead(c: Config, gated: bool, s: State, i: Id) returns (s': State)
    requires Enabled(c, s, Show(i)) && ValidScript(s.node[i].todo)
    ensures Leads(c, gated, s, s') && i in s'.node && s'.node == s.node[i := s'.node[i]] && s'.net == s.net
    ensures s'.node[i].local == s.node[i].local && s'.node[i].phase.Idle? && s'.node[i].todo == s.node[i].todo[1..]
    ensures ValidScript(s'.node[i].todo)
  {
    var todo := s.node[i].todo;
    s' := Exec(c, s, Show(i));
    LeadsStep(c, gated, s, Show(i));
    assert forall u :: u in todo[1..] ==> u in todo;
  }

  // Node i gets through the reads before its first write, and asks for the section.
  lemma {:induction false} FirstWrite(c: Config, gated: bool, s: State, i: Id) returns (s': State)
    requires i in s.node && s.node[i].phase.Idle? && ValidScript(s.node[i].todo) && HasWrite(s.node[i].todo)
    ensures Leads(c, gated, s, s') && i in s'.node && s'.node == s.node[i := s'.node[i]] && s'.net == s.net
    ensures s'.node[i].local == Requested(s.node[i].local, i)
    ensures s'.node[i].phase.Waiting? && s'.node[i].phase.unsent == Peers(c, i)
    decreases |s.node[i].todo|
  {
    var t := s.node[i].todo[0];
    assert t in s.node[i].todo;
    if t.kind.READ? {
      var s1 := OneRead(c, gated, s, i);
      s' := FirstWrite(c, gated, s1, i);
      LeadsOn(c, gated, s, s1, s');
      assert s'.node == s.node[i := s'.node[i]];
    } else {
      s' := Exec(c, s, Start(i));
      LeadsStep(c, gated, s, Start(i));
    }
  }

  lemma FirstTicks(i: Id, script: seq<TransactionData>)
    ensures Requested(InitNode(i, script).local, i).queue == map[i := 2]
  {
  }

  // Both have asked with ticks 2; the one with the larger id asks around first.
  lemma BothEnter(c: Config, s: State, i: Id, j: Id) returns (s': State)
    requires i in s.node && j in s.node && i < j && j in Peers(c, i) && i in Peers(c, j)
    requires NoDup(Peers(c, i)) && (forall p :: p in Peers(c, i) ==> p in s.node && p != i)
    requires NoDup(Peers(c, j)) && (forall p :: p in Peers(c, j) ==> p in s.node && p != j)
    requires s.node[i].phase.Waiting? && s.node[i].phase.unsent == Peers(c, i) && s.node[i].local.queue == map[i := 2]
    requires s.node[j].phase.Waiting? && s.node[j].phase.unsent == Peers(c, j) && s.node[j].local.queue == map[j := 2]
    requires forall x, y {:trigger Chan(s.net, x, y)} :: Chan(s.net, x, y) == []
    ensures Leads(c, false, s, s') && i in s'.node && j in s'.node && InCs(s'.node[i]) && InCs(s'.node[j])
  {
    var s1 := AskAndEnter(c, s, j, 2);
    assert s1.node[i].local.queue == map[i := 2, j := 2];
    s' := AskAndEnter(c, s1, i, 2);
    LeadsOn(c, false, s, s1, s');
  }

  lemma Collision(c: Config, scripts: map<Id, seq<TransactionData>>, i: Id, j: Id) returns (s: State)
    requires FullMesh(c) && i in c.cores && j in c.cores && i < j
    requires ValidScript(Script(scripts, i)) && HasWrite(Script(scripts, i))
    requires ValidScript(Script(scripts, j)) && HasWrite(Script(scripts, j))
    ensures Leads(c, false, Init(c, scripts), s) && i in s.node && j in s.node && InCs(s.node[i]) && InCs(s.node[j])
  {
    var s0 := Init(c, scripts);
    assert s0.node[i] == InitNode(i, Script(scripts, i)) && s0.node[j] == InitNode(j, Script(scripts, j));
    FirstTicks(i, Script(scripts, i));
    FirstTicks(j, Script(scripts, j));
    var s1 := FirstWrite(c, false, s0, i);
    var s2 := FirstWrite(c, false, s1, j);
    LeadsOn(c, false, s0, s1, s2);
    s := BothEnter(c, s2, i, j);
    LeadsOn(c, false, s0, s2, s);
  }

  // ------------------------------------------------------- without two writers

  // A node that has nothing to write never asks for the section.
  predicate OnlyReads(n: Node) {
    n.phase.Idle? && !HasWrite(n.todo)
  }

  lemma OnlyReadsStep(c: Config, s: State, a: Action, i: Id)
    requires Enabled(c, s, a) && i in s.node && OnlyReads(s.node[i])
    ensures i in Exec(c, s, a).node && OnlyReads(Exec(c, s, a).node[i])
  {
    if i != if a.Deliver? then a.j else a.i {
      OnlyActor(c, s, a, i);
    }
  }

  lemma {:induction false} OnlyReadsRun(c: Config, s: State, run: seq<Action>, i: Id)
    requires RawRun(c, s, run) && i in s.node && OnlyReads(s.node[i])
    ensures i in After(c, s, run).node && OnlyReads(After(c, s, run).node[i])
    decreases |run|
  {
    if run == [] {
    } else {
      OnlyReadsStep(c, s, run[0], i);
      OnlyReadsRun(c, Exec(c, s, run[0]), run[1..], i);
    }
  }

  lemma {:induction false} NodesStay(c: Config, s: State, run: seq<Action>, i: Id)
    requires RawRun(c, s, run)
    ensures i in After(c, s, run).node <==> i in s.node
    decreases |run|
  {
    if run == [] {
    } else {
      SameNodes(c, s, run[0], i);
      NodesStay(c, Exec(c, s, run[0]), run[1..], i);
    }
  }

  lemma InsideHasWrite(c: Config, scripts: map<Id, seq<TransactionData>>, s: State, i: Id)
    requires Leads(c, false, Init(c, scripts), s) && i in s.node && InCs(s.node[i])
    ensures i in c.cores && HasWrite(Script(scripts, i))
  {
    var s0 := Init(c, scripts);
    var run :| RawRun(c, s0, run) && After(c, s0, run) == s;
    NodesStay(c, s0, run, i);
    if !HasWrite(Script(scripts, i)) {
      assert s0.node[i] == InitNode(i, Script(scripts, i));
      OnlyReadsRun(c, s0, run, i);
    }
  }

  // ------------------------------------------------------------- the condition

  ghost predicate TwoInside(s: State) {
    exists i, j {:trigger s.node[i], s.node[j]} :: i in s.node && j in s.node && i != j && InCs(s.node[i]) && InCs(s.node[j])
  }

  predicate BothWrite(c: Config, scripts: map<Id, seq<TransactionData>>, i: Id, j: Id) {
    i in c.cores && j in c.cores && i != j && HasWrite(Script(scripts, i)) && HasWrite(Script(scripts, j))
  }

  // With the message callbacks free to run inside requestCS, mutual exclusion can fail
  // exactly when two core nodes have writes in their scripts.
  lemma RacePossibleExactlyWhen(c: Config, scripts: map<Id, seq<TransactionData>>)
    requires FullMesh(c) && forall i :: ValidScript(Script(scripts, i))
    ensures (exists s {:trigger Leads(c, false, Init(c, scripts), s)} :: Leads(c, false, Init(c, scripts), s) && TwoInside(s))
      <==> (exists i, j :: BothWrite(c, scripts, i, j))
  {
    if s :| Leads(c, false, Init(c, scripts), s) && TwoInside(s) {
      var i, j :| i in s.node && j in s.node && i != j && InCs(s.node[i]) && InCs(s.node[j]);
      InsideHasWrite(c, scripts, s, i);
      InsideHasWrite(c, scripts, s, j);
      assert BothWrite(c, scripts, i, j);
    }
    if i, j :| BothWrite(c, scripts, i, j) {
      var s := Collision(c, scripts, if i < j then i else j, if i < j then j else i);
      assert TwoInside(s);
    }
  }
}
