// In what order Lamport stamps travel on a channel. releaseCS reads its clock once and then
// sends; a REQUEST handled in between is answered with a later stamp, and the RELEASE follows
// it. Where that does not happen stamps never decrease.
module StampOrder {
  import opened Basics
  import opened Transactions
  import opened Protocol
  import opened Mutex

  predicate Stamped(m: Msg) {
    m.Request? || m.Ack? || m.Release?
  }

  function Stamp(m: Msg): int
    requires Stamped(m)
  {
    match m case Request(t) => t case Ack(t) => t case Release(t) => t
  }

  // The stamps on the channel do not decrease, and lie between lo and hi.
  predicate Ascending(ch: seq<Msg>, lo: int, hi: int) {
    if ch == [] then lo <= hi
    else if Stamped(ch[0]) then lo <= Stamp(ch[0]) && Ascending(ch[1..], Stamp(ch[0]), hi)
    else Ascending(ch[1..], lo, hi)
  }

  // The same, without recursion.
  ghost predicate InOrder(ch: seq<Msg>, lo: int, hi: int) {
    && (forall p :: 0 <= p < |ch| && Stamped(ch[p]) ==> lo <= Stamp(ch[p]) <= hi)
    && (forall p, q :: 0 <= p < q < |ch| && Stamped(ch[p]) && Stamped(ch[q]) ==> Stamp(ch[p]) <= Stamp(ch[q]))
  }

  // Two stamps are the wrong way round.
  ghost predicate OutOfOrder(ch: seq<Msg>) {
    exists p, q :: 0 <= p < q < |ch| && Stamped(ch[p]) && Stamped(ch[q]) && Stamp(ch[p]) > Stamp(ch[q])
  }

  lemma {:induction false} AscendingMeaning(ch: seq<Msg>, lo: int, hi: int)
    requires Ascending(ch, lo, hi)
    ensures lo <= hi && InOrder(ch, lo, hi)
  {
    if ch == [] {
    } else {
      var rest := ch[1..];
      AscendingMeaning(rest, if Stamped(ch[0]) then Stamp(ch[0]) else lo, hi);
      assert forall p :: 0 < p < |ch| ==> ch[p] == rest[p - 1];
    }
  }

  lemma {:induction false} AscendingRaise(ch: seq<Msg>, lo: int, hi: int, hi': int)
    requires Ascending(ch, lo, hi) && hi <= hi'
    ensures Ascending(ch, lo, hi')
  {
    if ch == [] {
    } else {
      AscendingRaise(ch[1..], if Stamped(ch[0]) then Stamp(ch[0]) else lo, hi, hi');
    }
  }

  lemma {:induction false} AscendingAppend(ch: seq<Msg>, lo: int, hi: int, m: Msg, hi': int)
    requires Ascending(ch, lo, hi) && hi <= hi'
    requires Stamped(m) ==> hi <= Stamp(m) <= hi'
    ensures Ascending(ch + [m], lo, hi')
  {
    if ch == [] {
      assert [] + [m] == [m] && [m][1..] == [];
    } else {
      assert (ch + [m])[0] == ch[0] && (ch + [m])[1..] == ch[1..] + [m];
      AscendingAppend(ch[1..], if Stamped(ch[0]) then Stamp(ch[0]) else lo, hi, m, hi');
    }
  }

  // ------------------------------------------- what keeps the stamps in order

  // Node j does not handle a REQUEST of i between reading its clock for a RELEASE and sending
  // that RELEASE to i.
  predicate ReleaseGate(s: State, a: Action) {
    a.Deliver? && a.j in s.node && Chan(s.net, a.i, a.j) != [] && Chan(s.net, a.i, a.j)[0].Request? ==>
      !(s.node[a.j].phase.Releasing? && a.i in s.node[a.j].phase.unsent)
  }

  predicate CalmRun(c: Config, s: State, run: seq<Action>)
    decreases |run|
  {
    run == [] || (
      && Enabled(c, s, run[0]) && Gate(s, run[0]) && ReleaseGate(s, run[0])
      && CalmRun(c, Exec(c, s, run[0]), run[1..]))
  }

  // The least stamp that may still follow on the channel from i to j.
  function NextStamp(i: Id, j: Id, ni: Node): int {
    if j in Unrequested(ni) then Ticket(ni, i)
    else if j in Unreleased(ni) then ni.phase.stamp
    else Get(ni.local.ticks, i)
  }

  ghost predicate StampsOk(s: State, i: Id, j: Id)
    requires i in s.node && j in s.node
  {
    Ascending(Chan(s.net, i, j), Get(s.node[j].local.ticks, i), NextStamp(i, j, s.node[i]))
  }

  ghost predicate StampInv(s: State) {
    forall i, j {:trigger StampsOk(s, i, j)} :: i in s.node && j in s.node && i != j ==> StampsOk(s, i, j)
  }

  lemma NextStampBound(c: Config, i: Id, j: Id, n: Node)
    requires NodeOk(c, i, n)
    ensures NextStamp(i, j, n) <= Get(n.local.ticks, i)
  {
  }

  lemma StampInit(c: Config, scripts: map<Id, seq<TransactionData>>)
    ensures StampInv(Init(c, scripts))
  {
    var s := Init(c, scripts);
    InitUntouched(c, scripts);
    forall i, j | i in s.node && j in s.node && i != j ensures StampsOk(s, i, j) {
      UntouchedStamps(i, j, s.node[i], s.node[j]);
    }
  }

  lemma UntouchedStamps(i: Id, j: Id, ni: Node, nj: Node)
    requires Untouched(i, ni) && Untouched(j, nj) && i != j
    ensures Ascending([], Get(nj.local.ticks, i), NextStamp(i, j, ni))
  {
  }

  // A channel on which at most one message appears, at a receiver that learns nothing.
  lemma StampsKeep(i: Id, j: Id, ni: Node, nj: Node, ch: seq<Msg>, ni': Node, nj': Node, ch': seq<Msg>)
    requires Ascending(ch, Get(nj.local.ticks, i), NextStamp(i, j, ni))
    requires Get(nj'.local.ticks, i) == Get(nj.local.ticks, i)
    requires NextStamp(i, j, ni) <= NextStamp(i, j, ni') && Extends(ch, ch')
    requires ch' != ch && Stamped(ch'[|ch|]) ==> NextStamp(i, j, ni) <= Stamp(ch'[|ch|]) <= NextStamp(i, j, ni')
    ensures Ascending(ch', Get(nj'.local.ticks, i), NextStamp(i, j, ni'))
  {
    if ch' == ch {
      AscendingRaise(ch, Get(nj.local.ticks, i), NextStamp(i, j, ni), NextStamp(i, j, ni'));
    } else {
      AscendingAppend(ch, Get(nj.local.ticks, i), NextStamp(i, j, ni), ch'[|ch|], NextStamp(i, j, ni'));
    }
  }

  lemma StampQuiet(c: Config, s: State, a: Action)
    requires MutexInv(c, s) && StampInv(s) && Enabled(c, s, a) && IsQuiet(a)
    ensures StampInv(Exec(c, s, a))
  {
    QuietEffect(c, s, a);
    StampQuietChange(c, s, Exec(c, s, a));
  }

  lemma StampQuietChange(c: Config, s: State, s': State)
    requires StampInv(s) && QuietChange(c, s, s')
    ensures StampInv(s')
  {
    forall i, j | i in s'.node && j in s'.node && i != j ensures StampsOk(s', i, j) {
      assert StampsOk(s, i, j);
      assert QuietTurn(c, i, s.node[i], s'.node[i]) && QuietTurn(c, j, s.node[j], s'.node[j]);
      assert SameChannel(Chan(s.net, i, j), Chan(s'.net, i, j));
      StampsKeep(i, j, s.node[i], s.node[j], Chan(s.net, i, j), s'.node[i], s'.node[j], Chan(s'.net, i, j));
    }
  }

  // Node i alone acts, learns nothing of the others, and keeps to its own next stamps.
  ghost predicate OwnStamps(s: State, i: Id, s': State) {
    && i in s.node && i in s'.node && s'.node == s.node[i := s'.node[i]]
    && (forall j {:trigger Get(s'.node[i].local.ticks, j)} :: j != i ==>
          Get(s'.node[i].local.ticks, j) == Get(s.node[i].local.ticks, j))
    && (forall x, y {:trigger Chan(s'.net, x, y)} ::
          if x == i then Extends(Chan(s.net, x, y), Chan(s'.net, x, y)) else Chan(s'.net, x, y) == Chan(s.net, x, y))
    && (forall j {:trigger NextStamp(i, j, s'.node[i])} :: j in s.node && j != i ==>
          && NextStamp(i, j, s.node[i]) <= NextStamp(i, j, s'.node[i])
          && (var ch, ch' := Chan(s.net, i, j), Chan(s'.net, i, j);
              ch' != ch && Stamped(ch'[|ch|]) ==> NextStamp(i, j, s.node[i]) <= Stamp(ch'[|ch|]) <= NextStamp(i, j, s'.node[i])))
  }

  lemma StampOwn(s: State, i: Id, s': State)
    requires StampInv(s) && OwnStamps(s, i, s')
    ensures StampInv(s')
  {
    forall x, y | x in s'.node && y in s'.node && x != y ensures StampsOk(s', x, y) {
      assert StampsOk(s, x, y);
      if x == i {
        var _ := NextStamp(i, y, s'.node[i]);
        StampsKeep(i, y, s.node[i], s.node[y], Chan(s.net, i, y), s'.node[i], s'.node[y], Chan(s'.net, i, y));
      } else if y == i {
        StampsKeep(x, i, s.node[x], s.node[i], Chan(s.net, x, i), s'.node[x], s'.node[i], Chan(s'.net, x, i));
      }
    }
  }

  lemma StampStart(c: Config, s: State, i: Id)
    requires Enabled(c, s, Start(i))
    ensures OwnStamps(s, i, Exec(c, s, Start(i)))
  {
  }

  lemma StampLeave(c: Config, s: State, i: Id)
    requires Enabled(c, s, Leave(i))
    ensures OwnStamps(s, i, Exec(c, s, Leave(i)))
  {
  }

  lemma StampSendRequest(c: Config, s: State, i: Id)
    requires Enabled(c, s, SendRequest(i)) && NodeOk(c, i, s.node[i])
    ensures OwnStamps(s, i, Exec(c, s, SendRequest(i)))
  {
    var unsent := s.node[i].phase.unsent;
    assert forall j :: j in unsent <==> j == unsent[0] || j in unsent[1..];
  }

  lemma StampSendRelease(c: Config, s: State, i: Id)
    requires Enabled(c, s, SendRelease(i)) && NodeOk(c, i, s.node[i])
    ensures OwnStamps(s, i, Exec(c, s, SendRelease(i)))
  {
    var unsent := s.node[i].phase.unsent;
    assert forall j :: j in unsent <==> j == unsent[0] || j in unsent[1..];
  }

  lemma StampDeliver(c: Config, s: State, i: Id, j: Id, x: Id, y: Id)
    requires Enabled(c, s, Deliver(i, j)) && Gate(s, Deliver(i, j)) && ReleaseGate(s, Deliver(i, j))
    requires !Chan(s.net, i, j)[0].Update? && NodeOk(c, j, s.node[j])
    requires NoDup(Kids(c, j)) && x !in Kids(c, j) && y !in Kids(c, j)
    requires x in s.node && y in s.node && x != y && StampsOk(s, x, y)
    ensures var s' := Exec(c, s, Deliver(i, j)); x in s'.node && y in s'.node && StampsOk(s', x, y)
  {
    var s' := Exec(c, s, Deliver(i, j));
    var m, n, n' := Chan(s.net, i, j)[0], s.node[j], s'.node[j];
    HandledEffect(n.local, j, i, m);
    assert Lookup(n'.local.queue, j) == Lookup(n.local.queue, j);
    DeliverChannels(c, s, i, j, x, y);
    if !(x == i && y == j) {
      if x == j {
        HandledNextStamp(c, j, y, n, n');
      }
      StampsKeep(x, y, s.node[x], s.node[y], Chan(s.net, x, y), s'.node[x], s'.node[y], Chan(s'.net, x, y));
    }
  }

  lemma HandledNextStamp(c: Config, j: Id, y: Id, n: Node, n': Node)
    requires NodeOk(c, j, n) && n'.phase == n.phase
    requires Lookup(n'.local.queue, j) == Lookup(n.local.queue, j) && Get(n'.local.ticks, j) >= Get(n.local.ticks, j)
    ensures NextStamp(j, y, n) <= NextStamp(j, y, n')
    ensures y !in Unrequested(n) && y !in Unreleased(n) ==>
      NextStamp(j, y, n) == Get(n.local.ticks, j) && NextStamp(j, y, n') == Get(n'.local.ticks, j)
  {
  }

  lemma StampStep(c: Config, s: State, a: Action)
    requires MutexInv(c, s) && StampInv(s) && Enabled(c, s, a) && Gate(s, a) && ReleaseGate(s, a)
    ensures StampInv(Exec(c, s, a))
  {
    match a {
      case Start(i) =>
        StampStart(c, s, i);
        StampOwn(s, i, Exec(c, s, a));
      case SendRequest(i) =>
        assert NodeOk(c, i, s.node[i]);
        StampSendRequest(c, s, i);
        StampOwn(s, i, Exec(c, s, a));
      case Leave(i) =>
        StampLeave(c, s, i);
        StampOwn(s, i, Exec(c, s, a));
      case SendRelease(i) =>
        assert NodeOk(c, i, s.node[i]);
        StampSendRelease(c, s, i);
        StampOwn(s, i, Exec(c, s, a));
      case Deliver(i, j) =>
        StampDeliveries(c, s, i, j);
      case _ => StampQuiet(c, s, a);
    }
  }

  lemma StampDeliveries(c: Config, s: State, i: Id, j: Id)
    requires MutexInv(c, s) && StampInv(s)
    requires Enabled(c, s, Deliver(i, j)) && Gate(s, Deliver(i, j)) && ReleaseGate(s, Deliver(i, j))
    ensures StampInv(Exec(c, s, Deliver(i, j)))
  {
    var s' := Exec(c, s, Deliver(i, j));
    NoUpdates(c, s, i, j);
    assert NodeOk(c, j, s.node[j]);
    forall x, y | x in s'.node && y in s'.node && x != y ensures StampsOk(s', x, y) {
      SameNodes(c, s, Deliver(i, j), x);
      SameNodes(c, s, Deliver(i, j), y);
      assert StampsOk(s, x, y);
      assert x !in Kids(c, j) && y !in Kids(c, j);
      StampDeliver(c, s, i, j, x, y);
    }
  }

  lemma {:induction false} StampRun(c: Config, s: State, run: seq<Action>)
    requires MutexInv(c, s) && StampInv(s) && CalmRun(c, s, run)
    ensures Run(c, s, run)
    ensures MutexInv(c, After(c, s, run)) && StampInv(After(c, s, run))
    decreases |run|
  {
    if run == [] {
    } else {
      MutexStep(c, s, run[0]);
      StampStep(c, s, run[0]);
      StampRun(c, Exec(c, s, run[0]), run[1..]);
    }
  }

  // Wherever no REQUEST is handled in the middle of a release towards its sender, the stamps on
  // every channel are in order, at least the receiver's record and at most the sender's clock.
  lemma CalmRunsKeepOrder(c: Config, scripts: map<Id, seq<TransactionData>>, run: seq<Action>, i: Id, j: Id)
    requires FullMesh(c) && CalmRun(c, Init(c, scripts), run)
    ensures Run(c, Init(c, scripts), run)
    ensures var s := After(c, Init(c, scripts), run);
      i in s.node && j in s.node && i != j ==>
        InOrder(Chan(s.net, i, j), Get(s.node[j].local.ticks, i), Get(s.node[i].local.ticks, i))
  {
    MutexInit(c, scripts);
    StampInit(c, scripts);
    StampRun(c, Init(c, scripts), run);
    var s := After(c, Init(c, scripts), run);
    if i in s.node && j in s.node && i != j {
      assert StampsOk(s, i, j) && NodeOk(c, i, s.node[i]);
      StampsInOrder(c, s, i, j);
    }
  }

  lemma StampsInOrder(c: Config, s: State, i: Id, j: Id)
    requires i in s.node && j in s.node && NodeOk(c, i, s.node[i]) && StampsOk(s, i, j)
    ensures InOrder(Chan(s.net, i, j), Get(s.node[j].local.ticks, i), Get(s.node[i].local.ticks, i))
  {
    NextStampBound(c, i, j, s.node[i]);
    AscendingMeaning(Chan(s.net, i, j), Get(s.node[j].local.ticks, i), NextStamp(i, j, s.node[i]));
  }
}
