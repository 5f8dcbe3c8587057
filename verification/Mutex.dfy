// Lamport's mutual exclusion as LamportMutex.cpp implements it: the invariant that ties
// clocks, request queues and messages in flight together, and mutual exclusion from it.
module Mutex {
  import opened Basics
  import opened Protocol

  // The ticks of node i's own outstanding request.
  function Ticket(n: Node, i: Id): int {
    Get(n.local.queue, i)
  }

  // Between okeyCS returning true and releaseCS erasing the request.
  predicate InCs(n: Node) {
    n.phase.Sending? || n.phase.Counting? || n.phase.Awaiting? || n.phase.Leaving?
  }

  // The node has a request of its own outstanding.
  predicate Pending(n: Node) {
    n.phase.Waiting? || InCs(n)
  }

  // Peers the node's current REQUEST, respectively RELEASE, has not been sent to yet.
  function Unrequested(n: Node): seq<Id> {
    if n.phase.Waiting? then n.phase.unsent else []
  }

  function Unreleased(n: Node): seq<Id> {
    if n.phase.Releasing? then n.phase.unsent else []
  }

  // No stamp on the channel exceeds hi, and each REQUEST is above lo and above every
  // stamp sent before it; lo is what the receiver has recorded of the sender.
  predicate Bounded(ch: seq<Msg>, lo: int, hi: int) {
    if ch == [] then lo <= hi else
      match ch[0]
      case Request(t) => lo < t && Bounded(ch[1..], t, hi)
      case Ack(t) => Bounded(ch[1..], Max(lo, t), hi)
      case Release(t) => Bounded(ch[1..], Max(lo, t), hi)
      case Write(_) => Bounded(ch[1..], lo, hi)
      case Ready(_) => Bounded(ch[1..], lo, hi)
      case Read(_) => Bounded(ch[1..], lo, hi)
      case Update(_) => false
  }

  // What the receiver's queue will hold for the sender once the channel is drained,
  // if it holds q now.
  function Drained(ch: seq<Msg>, q: Option<int>): Option<int> {
    if ch == [] then q else
      match ch[0]
      case Request(t) => Drained(ch[1..], Some(t))
      case Release(_) => Drained(ch[1..], None)
      case _ => Drained(ch[1..], q)
  }

  ghost predicate HasAckAbove(ch: seq<Msg>, t: int) {
    exists m :: m in ch && m.Ack? && m.ticks > t
  }

  // The largest stamp i can have put on the channel to j.
  function Cap(i: Id, j: Id, ni: Node): int {
    if j in Unrequested(ni) then Ticket(ni, i) - 1 else Get(ni.local.ticks, i)
  }

  // Node i, seen from j: cij and cji are the two channels between them.
  ghost predicate Link(i: Id, j: Id, ni: Node, nj: Node, cij: seq<Msg>, cji: seq<Msg>) {
    // the clocks
    && Bounded(cij, Get(nj.local.ticks, i), Cap(i, j, ni))
    // the queue: j holds, or will hold, exactly i's outstanding request
    && (j !in Unreleased(ni) ==>
          Drained(cij, Lookup(nj.local.queue, i))
          == if j in Unrequested(ni) then None else Lookup(ni.local.queue, i))
    // the acknowledgement: on its way there, on its way back, or already seen
    && (Pending(ni) && j !in Unrequested(ni) ==>
          || Request(Ticket(ni, i)) in cij
          || HasAckAbove(cji, Ticket(ni, i))
          || Get(ni.local.ticks, j) > Ticket(ni, i))
  }

  ghost predicate NodeOk(c: Config, i: Id, n: Node) {
    && (i in n.local.queue <==> Pending(n))
    && (Pending(n) ==> Ticket(n, i) <= Get(n.local.ticks, i))
    && NoDup(Unrequested(n)) && (forall j :: j in Unrequested(n) ==> j in Peers(c, i))
    && NoDup(Unreleased(n)) && (forall j :: j in Unreleased(n) ==> j in Peers(c, i))
    && (n.phase.Releasing? ==> n.phase.stamp <= Get(n.local.ticks, i))
    && (InCs(n) ==> Okey(n.local, i, Peers(c, i)))
  }

  ghost predicate LinkOk(s: State, i: Id, j: Id)
    requires i in s.node && j in s.node
  {
    Link(i, j, s.node[i], s.node[j], Chan(s.net, i, j), Chan(s.net, j, i))
  }

  ghost predicate MutexInv(c: Config, s: State) {
    && FullMesh(c)
    && (forall i :: i in s.node <==> i in c.cores)
    && (forall i {:trigger NodeOk(c, i, s.node[i])} :: i in s.node ==> NodeOk(c, i, s.node[i]))
    && (forall i, j {:trigger LinkOk(s, i, j)} :: i in s.node && j in s.node && i != j ==> LinkOk(s, i, j))
  }

  // ------------------------------------------------------ facts about channels

  lemma {:induction false} BoundedAppend(ch: seq<Msg>, lo: int, hi: int, m: Msg, hi': int)
    requires Bounded(ch, lo, hi) && hi <= hi'
    requires !m.Update?
    requires m.Request? ==> hi < m.ticks <= hi'
    requires m.Ack? || m.Release? ==> m.ticks <= hi'
    ensures Bounded(ch + [m], lo, hi')
  {
    if ch == [] {
      assert [] + [m] == [m];
    } else {
      var lo' := match ch[0]
        case Request(t) => t
        case Ack(t) => Max(lo, t)
        case Release(t) => Max(lo, t)
        case _ => lo;
      BoundedAppend(ch[1..], lo', hi, m, hi');
      assert (ch + [m])[1..] == ch[1..] + [m];
    }
  }

  lemma {:induction false} BoundedRaise(ch: seq<Msg>, lo: int, hi: int, hi': int)
    requires Bounded(ch, lo, hi) && hi <= hi'
    ensures Bounded(ch, lo, hi')
  {
    if ch == [] {
    } else {
      var lo' := match ch[0]
        case Request(t) => t
        case Ack(t) => Max(lo, t)
        case Release(t) => Max(lo, t)
        case _ => lo;
      BoundedRaise(ch[1..], lo', hi, hi');
    }
  }

  // What Bounded says about the ends and about every REQUEST.
  lemma {:induction false} BoundedMeaning(ch: seq<Msg>, lo: int, hi: int)
    requires Bounded(ch, lo, hi)
    ensures lo <= hi
    ensures forall m :: m in ch ==> !m.Update? && (m.Request? ==> lo < m.ticks <= hi)
  {
    if ch == [] {
    } else {
      var lo' := match ch[0]
        case Request(t) => t
        case Ack(t) => Max(lo, t)
        case Release(t) => Max(lo, t)
        case _ => lo;
      BoundedMeaning(ch[1..], lo', hi);
      assert forall m :: m in ch ==> m == ch[0] || m in ch[1..];
    }
  }

  lemma {:induction false} DrainedAppend(ch: seq<Msg>, q: Option<int>, m: Msg)
    ensures Drained(ch + [m], q) ==
      match m
      case Request(t) => Some(t)
      case Release(_) => None
      case _ => Drained(ch, q)
  {
    if ch == [] {
      assert [] + [m] == [m];
    } else {
      assert (ch + [m])[1..] == ch[1..] + [m];
      DrainedAppend(ch[1..], match ch[0] case Request(t) => Some(t) case Release(_) => None case _ => q, m);
    }
  }

  // A request the receiver will end up with is either queued already or on the channel.
  lemma {:induction false} DrainedSource(ch: seq<Msg>, q: Option<int>)
    ensures Drained(ch, q).Some? ==> Drained(ch, q) == q || Request(Drained(ch, q).value) in ch
  {
    if ch == [] {
    } else {
      DrainedSource(ch[1..], match ch[0] case Request(t) => Some(t) case Release(_) => None case _ => q);
    }
  }

  // -------------------------------------------------------- mutual exclusion

  // okeyCS compares with everyone: whoever passes it has the least request of all.
  lemma OkeyIsLeast(c: Config, s: State, i: Id, k: Id)
    requires MutexInv(c, s) && i in s.node && k in s.node && i != k
    requires Pending(s.node[i]) && Okey(s.node[i].local, i, Peers(c, i))
    requires Pending(s.node[k])
    ensures IsGreater(Ticket(s.node[k], k), k, Ticket(s.node[i], i), i)
  {
    assert NodeOk(c, i, s.node[i]) && NodeOk(c, k, s.node[k]);
    var ni, nk := s.node[i], s.node[k];
    var ch := Chan(s.net, k, i);
    assert LinkOk(s, k, i) && Yields(ni.local, i, k);
    BoundedMeaning(ch, Get(ni.local.ticks, k), Cap(k, i, nk));
    DrainedSource(ch, Lookup(ni.local.queue, k));
  }

  lemma MutualExclusion(c: Config, s: State, i: Id, k: Id)
    requires MutexInv(c, s) && i in s.node && k in s.node
    requires InCs(s.node[i]) && InCs(s.node[k])
    ensures i == k
  {
    assert NodeOk(c, i, s.node[i]) && NodeOk(c, k, s.node[k]);
    if i != k {
      OkeyIsLeast(c, s, i, k);
      OkeyIsLeast(c, s, k, i);
    }
  }

  // No SET travels between core nodes.
  lemma NoUpdates(c: Config, s: State, i: Id, j: Id)
    requires MutexInv(c, s) && i in s.node && j in s.node && i != j
    ensures forall m :: m in Chan(s.net, i, j) ==> !m.Update?
    ensures Chan(s.net, i, j) != [] ==> !Chan(s.net, i, j)[0].Update?
  {
    assert LinkOk(s, i, j);
    BoundedMeaning(Chan(s.net, i, j), Get(s.node[j].local.ticks, i), Cap(i, j, s.node[i]));
  }

  // ------------------------------------------------ the invariant is inductive

  // A node that has just been built, and the empty channels between two of them.
  ghost predicate Untouched(i: Id, n: Node) {
    n.phase.Idle? && n.local.queue == map[] && n.local.ticks == map[i := 1]
  }

  lemma UntouchedNode(c: Config, i: Id, n: Node)
    requires Untouched(i, n)
    ensures NodeOk(c, i, n)
  {
  }

  lemma UntouchedLink(i: Id, j: Id, ni: Node, nj: Node)
    requires Untouched(i, ni) && Untouched(j, nj) && i != j
    ensures Link(i, j, ni, nj, [], [])
  {
  }

  lemma InitUntouched(c: Config, scripts: map<Id, seq<Transactions.TransactionData>>)
    ensures forall i :: i in Init(c, scripts).node <==> i in c.cores
    ensures forall i :: i in c.cores ==> Untouched(i, Init(c, scripts).node[i])
    ensures Init(c, scripts).net == map[]
  {
  }

  lemma MutexInit(c: Config, scripts: map<Id, seq<Transactions.TransactionData>>)
    requires FullMesh(c)
    ensures MutexInv(c, Init(c, scripts))
  {
    var s := Init(c, scripts);
    InitUntouched(c, scripts);
    forall i | i in s.node ensures NodeOk(c, i, s.node[i]) {
      UntouchedNode(c, i, s.node[i]);
    }
    forall i, j | i in s.node && j in s.node && i != j ensures LinkOk(s, i, j) {
      UntouchedLink(i, j, s.node[i], s.node[j]);
    }
  }

  // n' differs from n in nothing the mutex looks at.
  ghost predicate SameMutex(n: Node, n': Node) {
    && n'.local.ticks == n.local.ticks && n'.local.queue == n.local.queue
    && Unrequested(n') == Unrequested(n) && Unreleased(n') == Unreleased(n)
    && (Pending(n') <==> Pending(n))
  }

  // ch' is ch, possibly followed by one message that carries no stamp.
  ghost predicate SameChannel(ch: seq<Msg>, ch': seq<Msg>) {
    || ch' == ch
    || (|ch'| == |ch| + 1 && ch' == ch + [ch'[|ch|]] && (ch'[|ch|].Write? || ch'[|ch|].Ready?))
  }

  lemma QuietLink(i: Id, j: Id, ni: Node, nj: Node, ch: seq<Msg>, back: seq<Msg>, ni': Node, nj': Node, ch': seq<Msg>, back': seq<Msg>)
    requires Link(i, j, ni, nj, ch, back)
    requires SameMutex(ni, ni') && SameMutex(nj, nj') && SameChannel(ch, ch') && SameChannel(back, back')
    ensures Link(i, j, ni', nj', ch', back')
  {
    if ch' != ch {
      BoundedAppend(ch, Get(nj.local.ticks, i), Cap(i, j, ni), ch'[|ch|], Cap(i, j, ni));
      DrainedAppend(ch, Lookup(nj.local.queue, i), ch'[|ch|]);
    }
  }

  lemma QuietNode(c: Config, i: Id, n: Node, n': Node)
    requires NodeOk(c, i, n) && QuietTurn(c, i, n, n')
    ensures NodeOk(c, i, n')
  {
    if InCs(n') {
      forall other | other in Peers(c, i) ensures Yields(n'.local, i, other) {
        assert Yields(n.local, i, other);
      }
    }
  }

  // Node i has changed, if at all, in nothing the mutex looks at, except perhaps to enter.
  ghost predicate QuietTurn(c: Config, i: Id, n: Node, n': Node) {
    && SameMutex(n, n')
    && (InCs(n') ==> InCs(n) || Okey(n.local, i, Peers(c, i)))
    && (n'.phase.Releasing? ==> n.phase.Releasing? && n.phase.stamp == n'.phase.stamp)
  }

  // s' differs from s in nothing the mutex looks at, except that somebody may have entered.
  ghost predicate QuietChange(c: Config, s: State, s': State) {
    && (forall i :: i in s'.node <==> i in s.node)
    && (forall i {:trigger QuietTurn(c, i, s.node[i], s'.node[i])} :: i in s.node ==> QuietTurn(c, i, s.node[i], s'.node[i]))
    && (forall i, j {:trigger Chan(s'.net, i, j)} :: i in s.node && j in s.node ==>
          SameChannel(Chan(s.net, i, j), Chan(s'.net, i, j)))
  }

  // Steps that leave clocks, queues and the REQUEST/RELEASE broadcasts alone.
  predicate IsQuiet(a: Action) {
    a.Show? || a.Enter? || a.SendWrite? || a.ApplyLocal? || a.Count? || a.Collect? || a.Return? || a.Tick? || a.DeliverUpdate?
  }

  // No step makes a core node appear or vanish.
  lemma SameNodes(c: Config, s: State, a: Action, k: Id)
    requires Enabled(c, s, a)
    ensures k in Exec(c, s, a).node <==> k in s.node
  {
  }

  // A step changes at most one core node.
  lemma OnlyActor(c: Config, s: State, a: Action, k: Id)
    requires Enabled(c, s, a) && k in s.node
    requires k != if a.Deliver? then a.j else a.i
    ensures k in Exec(c, s, a).node && Exec(c, s, a).node[k] == s.node[k]
  {
  }

  lemma QuietActor(c: Config, s: State, a: Action)
    requires Enabled(c, s, a) && IsQuiet(a) && a.i in s.node
    ensures a.i in Exec(c, s, a).node && QuietTurn(c, a.i, s.node[a.i], Exec(c, s, a).node[a.i])
  {
  }

  lemma QuietNodes(c: Config, s: State, a: Action, i: Id)
    requires Enabled(c, s, a) && IsQuiet(a)
    ensures i in Exec(c, s, a).node <==> i in s.node
    ensures i in s.node ==> QuietTurn(c, i, s.node[i], Exec(c, s, a).node[i])
  {
    SameNodes(c, s, a, i);
    if i in s.node {
      if i == a.i {
        QuietActor(c, s, a);
      } else {
        OnlyActor(c, s, a, i);
      }
    }
  }

  lemma QuietChannels(c: Config, s: State, a: Action, i: Id, j: Id)
    requires Enabled(c, s, a) && IsQuiet(a)
    requires NoDup(Kids(c, a.i)) && j !in Kids(c, a.i)
    ensures SameChannel(Chan(s.net, i, j), Chan(Exec(c, s, a).net, i, j))
  {
  }

  lemma QuietEffect(c: Config, s: State, a: Action)
    requires FullMesh(c) && forall i :: i in s.node <==> i in c.cores
    requires Enabled(c, s, a) && IsQuiet(a)
    ensures QuietChange(c, s, Exec(c, s, a))
  {
    forall i
      ensures i in Exec(c, s, a).node <==> i in s.node
      ensures i in s.node ==> QuietTurn(c, i, s.node[i], Exec(c, s, a).node[i])
    {
      QuietNodes(c, s, a, i);
    }
    forall i, j | i in s.node && j in s.node
      ensures SameChannel(Chan(s.net, i, j), Chan(Exec(c, s, a).net, i, j))
    {
      QuietChannels(c, s, a, i, j);
    }
  }

  lemma MutexQuiet(c: Config, s: State, a: Action)
    requires MutexInv(c, s) && Enabled(c, s, a) && IsQuiet(a)
    ensures MutexInv(c, Exec(c, s, a))
  {
    QuietEffect(c, s, a);
    QuietKeeps(c, s, Exec(c, s, a));
  }

  lemma QuietKeeps(c: Config, s: State, s': State)
    requires MutexInv(c, s) && QuietChange(c, s, s')
    ensures MutexInv(c, s')
  {
    forall i | i in s'.node ensures NodeOk(c, i, s'.node[i]) {
      assert NodeOk(c, i, s.node[i]) && QuietTurn(c, i, s.node[i], s'.node[i]);
      QuietNode(c, i, s.node[i], s'.node[i]);
    }
    forall i, j | i in s'.node && j in s'.node && i != j ensures LinkOk(s', i, j) {
      assert LinkOk(s, i, j) && QuietTurn(c, i, s.node[i], s'.node[i]) && QuietTurn(c, j, s.node[j], s'.node[j]);
      QuietLink(i, j, s.node[i], s.node[j], Chan(s.net, i, j), Chan(s.net, j, i),
                s'.node[i], s'.node[j], Chan(s'.net, i, j), Chan(s'.net, j, i));
    }
  }

  // ch' is ch, possibly with one more message.
  ghost predicate Extends(ch: seq<Msg>, ch': seq<Msg>) {
    ch' == ch || (|ch'| == |ch| + 1 && ch' == ch + [ch'[|ch|]])
  }

  // Node j changes, and says something to i, but what it knows of i stays.
  lemma PeerLink(i: Id, j: Id, ni: Node, nj: Node, ch: seq<Msg>, back: seq<Msg>, nj': Node, back': seq<Msg>)
    requires Link(i, j, ni, nj, ch, back)
    requires Get(nj'.local.ticks, i) == Get(nj.local.ticks, i)
    requires Lookup(nj'.local.queue, i) == Lookup(nj.local.queue, i)
    requires Extends(back, back')
    ensures Link(i, j, ni, nj', ch, back')
  {
    assert HasAckAbove(back, Ticket(ni, i)) ==> HasAckAbove(back', Ticket(ni, i)) by {
      assert forall m :: m in back ==> m in back';
    }
  }

  // Node i alone acts, and its own links are known to hold afterwards.
  lemma OwnStep(c: Config, s: State, i: Id, s': State)
    requires MutexInv(c, s) && i in s.node && i in s'.node
    requires s'.node == s.node[i := s'.node[i]]
    requires NodeOk(c, i, s'.node[i])
    requires forall j :: j != i ==>
      && Get(s'.node[i].local.ticks, j) == Get(s.node[i].local.ticks, j)
      && Lookup(s'.node[i].local.queue, j) == Lookup(s.node[i].local.queue, j)
    requires forall x, y {:trigger Chan(s'.net, x, y)} ::
      if x == i then Extends(Chan(s.net, x, y), Chan(s'.net, x, y)) else Chan(s'.net, x, y) == Chan(s.net, x, y)
    requires forall j {:trigger s.node[j]} :: j in s.node && j != i ==>
      Link(i, j, s'.node[i], s.node[j], Chan(s'.net, i, j), Chan(s.net, j, i))
    ensures MutexInv(c, s')
  {
    forall x | x in s'.node ensures NodeOk(c, x, s'.node[x]) {
      if x != i {
        assert NodeOk(c, x, s.node[x]);
      }
    }
    forall x, y | x in s'.node && y in s'.node && x != y ensures LinkOk(s', x, y) {
      assert LinkOk(s, x, y);
      if y == i {
        PeerLink(x, i, s.node[x], s.node[i], Chan(s.net, x, i), Chan(s.net, i, x), s'.node[i], Chan(s'.net, i, x));
      }
    }
  }

  lemma StartLink(i: Id, j: Id, ni: Node, nj: Node, ch: seq<Msg>, back: seq<Msg>, ni': Node)
    requires Link(i, j, ni, nj, ch, back) && ni.phase.Idle? && i !in ni.local.queue
    requires ni'.local == Requested(ni.local, i) && ni'.phase.Waiting? && j in ni'.phase.unsent
    ensures Link(i, j, ni', nj, ch, back)
  {
  }

  lemma MutexStart(c: Config, s: State, i: Id)
    requires MutexInv(c, s) && Enabled(c, s, Start(i))
    ensures MutexInv(c, Exec(c, s, Start(i)))
  {
    var s' := Exec(c, s, Start(i));
    assert NodeOk(c, i, s.node[i]);
    forall j {:trigger s.node[j]} | j in s.node && j != i
      ensures Link(i, j, s'.node[i], s.node[j], Chan(s'.net, i, j), Chan(s.net, j, i))
    {
      assert LinkOk(s, i, j);
      StartLink(i, j, s.node[i], s.node[j], Chan(s.net, i, j), Chan(s.net, j, i), s'.node[i]);
    }
    OwnStep(c, s, i, s');
  }

  // Sending the next REQUEST: j is the peer it goes to iff it was first in line.
  lemma SendRequestLink(i: Id, j: Id, ni: Node, nj: Node, ch: seq<Msg>, back: seq<Msg>, ni': Node)
    requires Link(i, j, ni, nj, ch, back)
    requires ni.phase.Waiting? && ni.phase.unsent != [] && NoDup(ni.phase.unsent)
    requires i in ni.local.queue && Ticket(ni, i) <= Get(ni.local.ticks, i)
    requires ni'.local == ni.local && ni'.phase.Waiting? && ni'.phase.unsent == ni.phase.unsent[1..]
    ensures Link(i, j, ni', nj, if j == ni.phase.unsent[0] then ch + [Request(Ticket(ni, i))] else ch, back)
  {
    if j == ni.phase.unsent[0] {
      var m := Request(Ticket(ni, i));
      BoundedAppend(ch, Get(nj.local.ticks, i), Cap(i, j, ni), m, Get(ni.local.ticks, i));
      DrainedAppend(ch, Lookup(nj.local.queue, i), m);
      assert m in ch + [m];
    } else {
      assert j in ni.phase.unsent <==> j in ni.phase.unsent[1..];
    }
  }

  // The rest of a list of peers still to be sent to.
  lemma TailOk(c: Config, i: Id, unsent: seq<Id>)
    requires unsent != [] && NoDup(unsent) && forall j :: j in unsent ==> j in Peers(c, i)
    ensures NoDup(unsent[1..]) && forall j :: j in unsent[1..] ==> j in Peers(c, i)
  {
  }

  lemma SendRequestNode(c: Config, i: Id, n: Node)
    requires NodeOk(c, i, n) && n.phase.Waiting? && n.phase.unsent != []
    ensures NodeOk(c, i, n.(phase := Waiting(n.phase.data, n.phase.unsent[1..])))
  {
    TailOk(c, i, n.phase.unsent);
  }

  lemma MutexSendRequest(c: Config, s: State, i: Id)
    requires MutexInv(c, s) && Enabled(c, s, SendRequest(i))
    ensures MutexInv(c, Exec(c, s, SendRequest(i)))
  {
    var s' := Exec(c, s, SendRequest(i));
    assert NodeOk(c, i, s.node[i]);
    SendRequestNode(c, i, s.node[i]);
    forall j {:trigger s.node[j]} | j in s.node && j != i
      ensures Link(i, j, s'.node[i], s.node[j], Chan(s'.net, i, j), Chan(s.net, j, i))
    {
      assert LinkOk(s, i, j);
      SendRequestLink(i, j, s.node[i], s.node[j], Chan(s.net, i, j), Chan(s.net, j, i), s'.node[i]);
    }
    OwnStep(c, s, i, s');
  }

  lemma LeaveLink(i: Id, j: Id, ni: Node, nj: Node, ch: seq<Msg>, back: seq<Msg>, ni': Node)
    requires Link(i, j, ni, nj, ch, back) && ni.phase.Leaving?
    requires ni'.local.ticks == ni.local.ticks && ni'.local.queue == Erase(ni.local.queue, i)
    requires ni'.phase.Releasing? && j in ni'.phase.unsent
    ensures Link(i, j, ni', nj, ch, back)
  {
  }

  lemma MutexLeave(c: Config, s: State, i: Id)
    requires MutexInv(c, s) && Enabled(c, s, Leave(i))
    ensures MutexInv(c, Exec(c, s, Leave(i)))
  {
    var s' := Exec(c, s, Leave(i));
    assert NodeOk(c, i, s.node[i]);
    forall j {:trigger s.node[j]} | j in s.node && j != i
      ensures Link(i, j, s'.node[i], s.node[j], Chan(s'.net, i, j), Chan(s.net, j, i))
    {
      assert LinkOk(s, i, j);
      LeaveLink(i, j, s.node[i], s.node[j], Chan(s.net, i, j), Chan(s.net, j, i), s'.node[i]);
    }
    OwnStep(c, s, i, s');
  }

  lemma SendReleaseLink(i: Id, j: Id, ni: Node, nj: Node, ch: seq<Msg>, back: seq<Msg>, ni': Node)
    requires Link(i, j, ni, nj, ch, back)
    requires ni.phase.Releasing? && ni.phase.unsent != [] && NoDup(ni.phase.unsent)
    requires i !in ni.local.queue && ni.phase.stamp <= Get(ni.local.ticks, i)
    requires ni'.local == ni.local && ni'.phase == Releasing(ni.phase.stamp, ni.phase.unsent[1..])
    ensures Link(i, j, ni', nj, if j == ni.phase.unsent[0] then ch + [Release(ni.phase.stamp)] else ch, back)
  {
    if j == ni.phase.unsent[0] {
      var m := Release(ni.phase.stamp);
      BoundedAppend(ch, Get(nj.local.ticks, i), Cap(i, j, ni), m, Get(ni.local.ticks, i));
      DrainedAppend(ch, Lookup(nj.local.queue, i), m);
    } else {
      assert j in ni.phase.unsent <==> j in ni.phase.unsent[1..];
    }
  }

  lemma SendReleaseNode(c: Config, i: Id, n: Node)
    requires NodeOk(c, i, n) && n.phase.Releasing? && n.phase.unsent != []
    ensures NodeOk(c, i, n.(phase := Releasing(n.phase.stamp, n.phase.unsent[1..])))
  {
    TailOk(c, i, n.phase.unsent);
  }

  lemma MutexSendRelease(c: Config, s: State, i: Id)
    requires MutexInv(c, s) && Enabled(c, s, SendRelease(i))
    ensures MutexInv(c, Exec(c, s, SendRelease(i)))
  {
    var s' := Exec(c, s, SendRelease(i));
    assert NodeOk(c, i, s.node[i]);
    SendReleaseNode(c, i, s.node[i]);
    forall j {:trigger s.node[j]} | j in s.node && j != i
      ensures Link(i, j, s'.node[i], s.node[j], Chan(s'.net, i, j), Chan(s.net, j, i))
    {
      assert LinkOk(s, i, j);
      SendReleaseLink(i, j, s.node[i], s.node[j], Chan(s.net, i, j), Chan(s.net, j, i), s'.node[i]);
    }
    OwnStep(c, s, i, s');
  }

  // ------------------------------------------------------- handling a message

  // What a handler does to the clock and the queue of node j when m comes from i.
  lemma HandledEffect(l: Local, j: Id, i: Id, m: Msg)
    requires i != j && !m.Update?
    ensures var l' := Handled(l, j, i, m);
      && Get(l'.ticks, j) >= Get(l.ticks, j)
      && (m.Request? || m.Ack? || m.Release? ==>
            Get(l'.ticks, j) > m.ticks && Get(l'.ticks, i) == Max(Get(l.ticks, i), m.ticks))
      && (m.Write? || m.Ready? || m.Read? ==> l'.ticks == l.ticks)
      && (forall x :: x != i && x != j ==> Get(l'.ticks, x) == Get(l.ticks, x))
      && Lookup(l'.queue, i) == (match m case Request(t) => Some(t) case Release(_) => None case _ => Lookup(l.queue, i))
      && (forall x :: x != i ==> Lookup(l'.queue, x) == Lookup(l.queue, x))
  {
  }

  // okeyCS, once true, is not undone by a message: a new REQUEST comes with a stamp
  // above the clock value okeyCS already compared with.
  lemma HandledNode(c: Config, j: Id, i: Id, n: Node, m: Msg, n': Node)
    requires NodeOk(c, j, n) && i != j && !m.Update?
    requires m.Request? ==> Get(n.local.ticks, i) < m.ticks
    requires n'.local == Handled(n.local, j, i, m) && n'.phase == n.phase
    ensures NodeOk(c, j, n')
  {
    HandledEffect(n.local, j, i, m);
    assert Lookup(n'.local.queue, j) == Lookup(n.local.queue, j);
    if InCs(n') {
      forall other | other in Peers(c, j) ensures Yields(n'.local, j, other) {
        assert Yields(n.local, j, other);
        assert other != i && other != j ==> Get(n'.local.ticks, other) == Get(n.local.ticks, other);
        assert other != i ==> Lookup(n'.local.queue, other) == Lookup(n.local.queue, other);
      }
    }
  }

  // The link the message came over.
  lemma ReceiveLink(i: Id, j: Id, ni: Node, nj: Node, ch: seq<Msg>, back: seq<Msg>, nj': Node, back': seq<Msg>)
    requires i != j && ch != [] && Link(i, j, ni, nj, ch, back)
    requires nj'.local == Handled(nj.local, j, i, ch[0])
    requires Extends(back, back')
    requires ch[0].Request? ==> back' == back + [Ack(Get(nj'.local.ticks, j))]
    ensures Link(i, j, ni, nj', ch[1..], back')
  {
    HandledEffect(nj.local, j, i, ch[0]);
    assert forall m :: m in ch ==> m == ch[0] || m in ch[1..];
    var t := Ticket(ni, i);
    if ch[0] == Request(t) {
      assert back'[|back|] in back';
      assert HasAckAbove(back', t);
    }
    assert HasAckAbove(back, t) ==> HasAckAbove(back', t) by {
      assert forall m :: m in back ==> m in back';
    }
  }

  // The link the answer goes over.
  lemma ReplyLink(i: Id, j: Id, ni: Node, nj: Node, ch: seq<Msg>, back: seq<Msg>, nj': Node, back': seq<Msg>)
    requires i != j && ch != [] && !ch[0].Update? && Link(j, i, nj, ni, back, ch)
    requires nj'.local == Handled(nj.local, j, i, ch[0]) && nj'.phase == nj.phase
    requires ch[0].Request? ==> i !in Unrequested(nj)
    requires match ch[0]
      case Request(_) => back' == back + [Ack(Get(nj'.local.ticks, j))]
      case Write(d) => back' == back + [Ready(d.value)]
      case _ => back' == back
    ensures Link(j, i, nj', ni, back', ch[1..])
  {
    HandledEffect(nj.local, j, i, ch[0]);
    assert Lookup(nj'.local.queue, j) == Lookup(nj.local.queue, j);
    var t := Ticket(nj, j);
    var cap := Cap(j, i, nj');
    if back' != back {
      BoundedAppend(back, Get(ni.local.ticks, j), Cap(j, i, nj), back'[|back|], cap);
      DrainedAppend(back, Lookup(ni.local.queue, j), back'[|back|]);
      assert forall m :: m in back ==> m in back';
    } else {
      BoundedRaise(back, Get(ni.local.ticks, j), Cap(j, i, nj), cap);
    }
    if HasAckAbove(ch, t) && !HasAckAbove(ch[1..], t) {
      var m :| m in ch && m.Ack? && m.ticks > t;
      assert m == ch[0] || m in ch[1..];
      assert Get(nj'.local.ticks, i) > t;
    }
  }

  // The other links of the node that handled the message.
  lemma BystanderLink(j: Id, b: Id, nj: Node, nb: Node, ch: seq<Msg>, back: seq<Msg>, nj': Node)
    requires Link(j, b, nj, nb, ch, back) && nj'.phase == nj.phase
    requires Get(nj'.local.ticks, j) >= Get(nj.local.ticks, j)
    requires Get(nj'.local.ticks, b) == Get(nj.local.ticks, b)
    requires Lookup(nj'.local.queue, j) == Lookup(nj.local.queue, j)
    ensures Link(j, b, nj', nb, ch, back)
  {
    BoundedRaise(ch, Get(nb.local.ticks, j), Cap(j, b, nj), Cap(j, b, nj'));
  }

  // The channels between core nodes after node j has handled the head of channel i -> j.
  lemma DeliverChannels(c: Config, s: State, i: Id, j: Id, x: Id, y: Id)
    requires Enabled(c, s, Deliver(i, j)) && NoDup(Kids(c, j)) && y !in Kids(c, j)
    ensures Chan(Exec(c, s, Deliver(i, j)).net, x, y) ==
      var ch, back := Chan(s.net, i, j), Chan(s.net, j, i);
      if x == i && y == j then ch[1..]
      else if x == j && y == i then
        (match ch[0]
         case Request(_) => back + [Ack(Get(Handled(s.node[j].local, j, i, ch[0]).ticks, j))]
         case Write(d) => back + [Ready(d.value)]
         case _ => back)
      else Chan(s.net, x, y)
  {
  }

  lemma MutexDeliver(c: Config, s: State, i: Id, j: Id)
    requires MutexInv(c, s) && Enabled(c, s, Deliver(i, j)) && Gate(s, Deliver(i, j))
    ensures MutexInv(c, Exec(c, s, Deliver(i, j)))
  {
    var s' := Exec(c, s, Deliver(i, j));
    var ch, n, n' := Chan(s.net, i, j), s.node[j], s'.node[j];
    assert LinkOk(s, i, j) && NodeOk(c, j, n);
    BoundedMeaning(ch, Get(n.local.ticks, i), Cap(i, j, s.node[i]));
    assert ch[0] in ch;
    HandledNode(c, j, i, n, ch[0], n');
    forall x | x in s'.node ensures NodeOk(c, x, s'.node[x]) {
      if x != j {
        assert NodeOk(c, x, s.node[x]);
      }
    }
    forall x, y | x in s'.node && y in s'.node && x != y ensures LinkOk(s', x, y) {
      assert LinkOk(s, x, y);
      assert x !in Kids(c, j) && y !in Kids(c, j);
      DeliverLink(c, s, i, j, x, y);
    }
  }

  lemma DeliverLink(c: Config, s: State, i: Id, j: Id, x: Id, y: Id)
    requires Enabled(c, s, Deliver(i, j)) && Gate(s, Deliver(i, j)) && !Chan(s.net, i, j)[0].Update?
    requires NoDup(Kids(c, j)) && x !in Kids(c, j) && y !in Kids(c, j)
    requires x in s.node && y in s.node && x != y && LinkOk(s, x, y)
    ensures var s' := Exec(c, s, Deliver(i, j)); x in s'.node && y in s'.node && LinkOk(s', x, y)
  {
    var s' := Exec(c, s, Deliver(i, j));
    var m, n' := Chan(s.net, i, j)[0], s'.node[j];
    HandledEffect(s.node[j].local, j, i, m);
    DeliverChannels(c, s, i, j, x, y);
    DeliverChannels(c, s, i, j, y, x);
    var nx, ny, cxy, cyx := s.node[x], s.node[y], Chan(s.net, x, y), Chan(s.net, y, x);
    if x == i && y == j {
      ReceiveLink(i, j, nx, ny, cxy, cyx, n', Chan(s'.net, j, i));
    } else if x == j && y == i {
      ReplyLink(i, j, ny, nx, cyx, cxy, n', Chan(s'.net, j, i));
    } else if x == j {
      BystanderLink(j, y, nx, ny, cxy, cyx, n');
    } else if y == j {
      PeerLink(x, j, nx, ny, cxy, cyx, n', cyx);
    }
  }

  // Every step the code can take, Gate respected, keeps the invariant.
  lemma MutexStep(c: Config, s: State, a: Action)
    requires MutexInv(c, s) && Enabled(c, s, a) && Gate(s, a)
    ensures MutexInv(c, Exec(c, s, a))
  {
    match a {
      case Start(i) => MutexStart(c, s, i);
      case SendRequest(i) => MutexSendRequest(c, s, i);
      case Leave(i) => MutexLeave(c, s, i);
      case SendRelease(i) => MutexSendRelease(c, s, i);
      case Deliver(i, j) => MutexDeliver(c, s, i, j);
      case _ => MutexQuiet(c, s, a);
    }
  }
}
