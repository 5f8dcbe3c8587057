// The sequential log behind the replicas: critical sections are entered in strict
// (ticks, id) order, and each node's writes enter the log in script order.
module Log {
  import opened Basics
  import opened Transactions
  import opened Protocol
  import opened Mutex

  // a is requested before b in Lamport's total order.
  predicate Before(a: Grant, b: Grant) {
    IsGreater(b.ticks, b.id, a.ticks, a.id)
  }

  // Node k's clock has reached g, and a request k still waits with comes after g.
  predicate Past(g: Grant, k: Id, n: Node) {
    && g.ticks <= Get(n.local.ticks, k)
    && (n.phase.Waiting? ==> IsGreater(Ticket(n, k), k, g.ticks, g.id))
  }

  predicate PastOk(s: State, k: Id)
    requires s.log != [] && k in s.node
  {
    Past(s.log[|s.log| - 1], k, s.node[k])
  }

  ghost predicate Ordered(log: seq<Grant>) {
    forall p, q {:trigger log[p], log[q]} :: 0 <= p < q < |log| ==> Before(log[p], log[q])
  }

  // The writes of a script, in order.
  function WritesOf(script: seq<TransactionData>): seq<TransactionData> {
    if script == [] then []
    else (if script[0].kind.READ? then [] else [script[0]]) + WritesOf(script[1..])
  }

  // The writes node i has in the log, in order.
  function ByNode(log: seq<Grant>, i: Id): seq<TransactionData> {
    if log == [] then []
    else ByNode(log[..|log| - 1], i) + (if log[|log| - 1].id == i then [log[|log| - 1].data] else [])
  }

  // The write node i has requested but not yet been granted.
  function Requesting(n: Node): seq<TransactionData> {
    if n.phase.Waiting? then [n.phase.data] else []
  }

  // Nothing of the script is lost, invented or reordered.
  predicate ScriptOk(script: seq<TransactionData>, log: seq<Grant>, i: Id, n: Node) {
    && ByNode(log, i) + Requesting(n) + WritesOf(n.todo) == WritesOf(script)
    && (ValidScript(script) ==> ValidScript(n.todo))
  }

  function Script(scripts: map<Id, seq<TransactionData>>, i: Id): seq<TransactionData> {
    if i in scripts then scripts[i] else []
  }

  ghost predicate LogInv(scripts: map<Id, seq<TransactionData>>, s: State) {
    && Ordered(s.log)
    && (forall p {:trigger s.log[p]} :: 0 <= p < |s.log| ==> s.log[p].id in s.node)
    && (s.log != [] ==> forall k {:trigger PastOk(s, k)} :: k in s.node ==> PastOk(s, k))
    && (forall i {:trigger ScriptOk(Script(scripts, i), s.log, i, s.node[i])} ::
          i in s.node ==> ScriptOk(Script(scripts, i), s.log, i, s.node[i]))
  }

  lemma LogInit(c: Config, scripts: map<Id, seq<TransactionData>>)
    ensures LogInv(scripts, Init(c, scripts))
  {
    var s := Init(c, scripts);
    forall i | i in s.node ensures ScriptOk(Script(scripts, i), s.log, i, s.node[i]) {
      assert s.node[i] == InitNode(i, Script(scripts, i));
      assert [] + [] + WritesOf(s.node[i].todo) == WritesOf(Script(scripts, i));
    }
  }

  // Whoever may enter has a request that every clock has reached and no other request precedes.
  lemma EntrantIsPast(c: Config, s: State, i: Id, k: Id)
    requires MutexInv(c, s) && Enabled(c, s, Enter(i)) && k in s.node && k != i
    ensures Past(Grant(Ticket(s.node[i], i), i, s.node[i].phase.data), k, s.node[k])
  {
    assert NodeOk(c, i, s.node[i]);
    assert Yields(s.node[i].local, i, k) && LinkOk(s, k, i) && NodeOk(c, k, s.node[k]);
    BoundedMeaning(Chan(s.net, k, i), Get(s.node[i].local.ticks, k), Cap(k, i, s.node[k]));
    if s.node[k].phase.Waiting? {
      OkeyIsLeast(c, s, i, k);
    }
  }

  lemma EnterPast(c: Config, s: State, i: Id, k: Id)
    requires MutexInv(c, s) && Enabled(c, s, Enter(i)) && k in s.node
    ensures PastOk(Exec(c, s, Enter(i)), k)
  {
    assert NodeOk(c, i, s.node[i]);
    if k != i {
      EntrantIsPast(c, s, i, k);
    }
  }

  lemma EnterScript(c: Config, s: State, i: Id, k: Id, script: seq<TransactionData>)
    requires Enabled(c, s, Enter(i)) && k in s.node && ScriptOk(script, s.log, k, s.node[k])
    ensures ScriptOk(script, Exec(c, s, Enter(i)).log, k, Exec(c, s, Enter(i)).node[k])
  {
    var s' := Exec(c, s, Enter(i));
    assert s'.log[..|s.log|] == s.log;
  }

  lemma EnterOrdered(c: Config, s: State, i: Id)
    requires Enabled(c, s, Enter(i)) && Ordered(s.log) && (s.log != [] ==> PastOk(s, i))
    ensures Ordered(Exec(c, s, Enter(i)).log)
  {
    var log' := Exec(c, s, Enter(i)).log;
    forall p, q | 0 <= p < q < |log'| ensures Before(log'[p], log'[q]) {
      if q == |s.log| && p < q - 1 {
        assert Before(s.log[p], s.log[q - 1]);
      }
    }
  }

  // Entering appends the one grant and changes nothing else of the history.
  lemma EnterLog(c: Config, s: State, i: Id)
    requires Enabled(c, s, Enter(i))
    ensures Exec(c, s, Enter(i)).log == s.log + [Grant(Ticket(s.node[i], i), i, s.node[i].phase.data)]
    ensures forall k :: k in Exec(c, s, Enter(i)).node <==> k in s.node
  {
  }

  lemma LogEnter(c: Config, scripts: map<Id, seq<TransactionData>>, s: State, i: Id)
    requires MutexInv(c, s) && LogInv(scripts, s) && Enabled(c, s, Enter(i))
    ensures LogInv(scripts, Exec(c, s, Enter(i)))
  {
    var s' := Exec(c, s, Enter(i));
    assert s.log != [] ==> PastOk(s, i);
    EnterLog(c, s, i);
    EnterOrdered(c, s, i);
    forall k | k in s'.node ensures PastOk(s', k) && ScriptOk(Script(scripts, k), s'.log, k, s'.node[k]) {
      assert ScriptOk(Script(scripts, k), s.log, k, s.node[k]);
      EnterPast(c, s, i, k);
      EnterScript(c, s, i, k, Script(scripts, k));
    }
  }

  // Any other step leaves the log; clocks only advance and requests only get later.
  lemma LogNode(c: Config, s: State, a: Action, k: Id)
    requires Enabled(c, s, a) && !a.Enter? && k in s.node
    requires a.Deliver? ==> !Chan(s.net, a.i, a.j)[0].Update?
    ensures var s' := Exec(c, s, a);
      && s'.log == s.log && k in s'.node
      && Get(s'.node[k].local.ticks, k) >= Get(s.node[k].local.ticks, k)
      && (s'.node[k].phase.Waiting? ==>
            || (s.node[k].phase.Waiting? && Ticket(s'.node[k], k) == Ticket(s.node[k], k))
            || Ticket(s'.node[k], k) > Get(s.node[k].local.ticks, k))
  {
    if a.Deliver? {
      HandledEffect(s.node[a.j].local, a.j, a.i, Chan(s.net, a.i, a.j)[0]);
      assert a.j == k ==> Lookup(Exec(c, s, a).node[k].local.queue, k) == Lookup(s.node[k].local.queue, k);
    }
  }

  lemma LogTodo(c: Config, s: State, a: Action, k: Id)
    requires Enabled(c, s, a) && !a.Enter? && k in s.node
    ensures var s' := Exec(c, s, a);
      && s'.log == s.log && k in s'.node
      && Requesting(s'.node[k]) + WritesOf(s'.node[k].todo) == Requesting(s.node[k]) + WritesOf(s.node[k].todo)
      && (s'.node[k].todo == s.node[k].todo || (s.node[k].todo != [] && s'.node[k].todo == s.node[k].todo[1..]))
  {
  }

  lemma OtherPast(c: Config, s: State, a: Action, k: Id)
    requires Enabled(c, s, a) && !a.Enter? && k in s.node && s.log != [] && PastOk(s, k)
    requires a.Deliver? ==> !Chan(s.net, a.i, a.j)[0].Update?
    ensures Exec(c, s, a).log == s.log && k in Exec(c, s, a).node && PastOk(Exec(c, s, a), k)
  {
    LogNode(c, s, a, k);
  }

  lemma ScriptShift(script: seq<TransactionData>, log: seq<Grant>, k: Id, n: Node, n': Node)
    requires ScriptOk(script, log, k, n)
    requires Requesting(n') + WritesOf(n'.todo) == Requesting(n) + WritesOf(n.todo)
    requires n'.todo == n.todo || (n.todo != [] && n'.todo == n.todo[1..])
    ensures ScriptOk(script, log, k, n')
  {
    Reassociate(ByNode(log, k), Requesting(n), WritesOf(n.todo));
    Reassociate(ByNode(log, k), Requesting(n'), WritesOf(n'.todo));
    assert forall t :: t in n'.todo ==> t in n.todo;
  }

  lemma OtherScript(c: Config, s: State, a: Action, k: Id, script: seq<TransactionData>)
    requires Enabled(c, s, a) && !a.Enter? && k in s.node && ScriptOk(script, s.log, k, s.node[k])
    ensures Exec(c, s, a).log == s.log && k in Exec(c, s, a).node
    ensures ScriptOk(script, Exec(c, s, a).log, k, Exec(c, s, a).node[k])
  {
    LogTodo(c, s, a, k);
    ScriptShift(script, s.log, k, s.node[k], Exec(c, s, a).node[k]);
  }

  lemma LogNodes(c: Config, s: State, a: Action)
    requires Enabled(c, s, a) && !a.Enter?
    ensures Exec(c, s, a).log == s.log
    ensures forall k :: k in Exec(c, s, a).node <==> k in s.node
  {
    forall k ensures k in Exec(c, s, a).node <==> k in s.node {
      SameNodes(c, s, a, k);
    }
  }

  lemma LogStep(c: Config, scripts: map<Id, seq<TransactionData>>, s: State, a: Action)
    requires LogInv(scripts, s) && Enabled(c, s, a)
    requires a.Enter? ==> MutexInv(c, s)
    requires a.Deliver? ==> !Chan(s.net, a.i, a.j)[0].Update?
    ensures LogInv(scripts, Exec(c, s, a))
  {
    if a.Enter? {
      LogEnter(c, scripts, s, a.i);
    } else {
      var s' := Exec(c, s, a);
      LogNodes(c, s, a);
      forall k | k in s'.node ensures ScriptOk(Script(scripts, k), s'.log, k, s'.node[k]) {
        assert ScriptOk(Script(scripts, k), s.log, k, s.node[k]);
        OtherScript(c, s, a, k, Script(scripts, k));
      }
      if s.log != [] {
        forall k | k in s'.node ensures PastOk(s', k) {
          assert PastOk(s, k);
          OtherPast(c, s, a, k);
        }
      }
    }
  }
}
