// The methods of module Nodes that broadcast do in one go what the state machine does one
// SendMsg at a time: each is a run of its actions, the one in which nobody interrupts.
module Steps {
  import opened Basics
  import opened Protocol

  function Repeat(a: Action, n: nat): seq<Action> {
    if n == 0 then [] else [a] + Repeat(a, n - 1)
  }

  lemma RunCons(c: Config, s: State, a: Action, s': State, rest: seq<Action>)
    requires Enabled(c, s, a) && Gate(s, a) && Exec(c, s, a) == s' && Run(c, s', rest)
    ensures Run(c, s, [a] + rest) && After(c, s, [a] + rest) == After(c, s', rest)
  {
    assert ([a] + rest)[1..] == rest;
  }

  // s after node i has sent m to everybody in `dests` and moved to phase p.
  function Sent(s: State, i: Id, p: Phase, dests: seq<Id>, m: Msg): State
    requires i in s.node
  {
    s.(node := s.node[i := s.node[i].(phase := p)], net := Broadcast(s.net, i, dests, m))
  }

  lemma SendOne(net: Net, i: Id, d: Id, m: Msg)
    ensures Broadcast(net, i, [d], m) == Send(net, i, d, m)
  {
    assert [d][1..] == [];
    assert Broadcast(Send(net, i, d, m), i, [], m) == Send(net, i, d, m);
  }

  // Sending to the first and then to the rest is sending to all.
  lemma SentStep(s: State, i: Id, p: Phase, p': Phase, dests: seq<Id>, m: Msg)
    requires i in s.node && dests != []
    ensures Sent(Sent(s, i, p', [dests[0]], m), i, p, dests[1..], m) == Sent(s, i, p, dests, m)
  {
    SendOne(s.net, i, dests[0], m);
    var s1 := Sent(s, i, p', [dests[0]], m);
    assert s1.node[i := s1.node[i].(phase := p)] == s.node[i := s.node[i].(phase := p)];
  }

  // The loops of requestCS, of the write, and of releaseCS: the first turn, and all of them.
  lemma RequestFirst(c: Config, s: State, i: Id, rest: seq<Action>)
    requires i in s.node && s.node[i].phase.Waiting? && s.node[i].phase.unsent != []
    requires var n := s.node[i];
      Run(c, Sent(s, i, Waiting(n.phase.data, n.phase.unsent[1..]), [n.phase.unsent[0]], Request(Get(n.local.queue, i))), rest)
    ensures var n := s.node[i];
      && Run(c, s, [SendRequest(i)] + rest)
      && After(c, s, [SendRequest(i)] + rest) == After(c, Sent(s, i, Waiting(n.phase.data, n.phase.unsent[1..]), [n.phase.unsent[0]], Request(Get(n.local.queue, i))), rest)
  {
    SendOne(s.net, i, s.node[i].phase.unsent[0], Request(Get(s.node[i].local.queue, i)));
    RunCons(c, s, SendRequest(i), Exec(c, s, SendRequest(i)), rest);
  }

  lemma {:induction false} RequestLoop(c: Config, s: State, i: Id)
    requires i in s.node && s.node[i].phase.Waiting?
    ensures var n := s.node[i];
      var run := Repeat(SendRequest(i), |n.phase.unsent|);
      && Run(c, s, run)
      && After(c, s, run) == Sent(s, i, Waiting(n.phase.data, []), n.phase.unsent, Request(Get(n.local.queue, i)))
    decreases |s.node[i].phase.unsent|
  {
    var n := s.node[i];
    var unsent, m := n.phase.unsent, Request(Get(n.local.queue, i));
    if unsent == [] {
      assert s.node[i := n] == s.node;
    } else {
      var rest := Repeat(SendRequest(i), |unsent| - 1);
      RequestLoop(c, Sent(s, i, Waiting(n.phase.data, unsent[1..]), [unsent[0]], m), i);
      SentStep(s, i, Waiting(n.phase.data, []), Waiting(n.phase.data, unsent[1..]), unsent, m);
      RequestFirst(c, s, i, rest);
    }
  }

  lemma WriteFirst(c: Config, s: State, i: Id, rest: seq<Action>)
    requires i in s.node && s.node[i].phase.Sending? && s.node[i].phase.unsent != []
    requires var n := s.node[i];
      Run(c, Sent(s, i, Sending(n.phase.data, n.phase.unsent[1..]), [n.phase.unsent[0]], Write(n.phase.data)), rest)
    ensures var n := s.node[i];
      && Run(c, s, [SendWrite(i)] + rest)
      && After(c, s, [SendWrite(i)] + rest) == After(c, Sent(s, i, Sending(n.phase.data, n.phase.unsent[1..]), [n.phase.unsent[0]], Write(n.phase.data)), rest)
  {
    SendOne(s.net, i, s.node[i].phase.unsent[0], Write(s.node[i].phase.data));
    RunCons(c, s, SendWrite(i), Exec(c, s, SendWrite(i)), rest);
  }

  lemma {:induction false} WriteLoop(c: Config, s: State, i: Id)
    requires i in s.node && s.node[i].phase.Sending?
    ensures var n := s.node[i];
      var run := Repeat(SendWrite(i), |n.phase.unsent|);
      && Run(c, s, run)
      && After(c, s, run) == Sent(s, i, Sending(n.phase.data, []), n.phase.unsent, Write(n.phase.data))
    decreases |s.node[i].phase.unsent|
  {
    var n := s.node[i];
    var unsent, m := n.phase.unsent, Write(n.phase.data);
    if unsent == [] {
      assert s.node[i := n] == s.node;
    } else {
      var rest := Repeat(SendWrite(i), |unsent| - 1);
      WriteLoop(c, Sent(s, i, Sending(n.phase.data, unsent[1..]), [unsent[0]], m), i);
      SentStep(s, i, Sending(n.phase.data, []), Sending(n.phase.data, unsent[1..]), unsent, m);
      WriteFirst(c, s, i, rest);
    }
  }

  lemma ReleaseFirst(c: Config, s: State, i: Id, rest: seq<Action>)
    requires i in s.node && s.node[i].phase.Releasing? && s.node[i].phase.unsent != []
    requires var n := s.node[i];
      Run(c, Sent(s, i, Releasing(n.phase.stamp, n.phase.unsent[1..]), [n.phase.unsent[0]], Release(n.phase.stamp)), rest)
    ensures var n := s.node[i];
      && Run(c, s, [SendRelease(i)] + rest)
      && After(c, s, [SendRelease(i)] + rest) == After(c, Sent(s, i, Releasing(n.phase.stamp, n.phase.unsent[1..]), [n.phase.unsent[0]], Release(n.phase.stamp)), rest)
  {
    SendOne(s.net, i, s.node[i].phase.unsent[0], Release(s.node[i].phase.stamp));
    RunCons(c, s, SendRelease(i), Exec(c, s, SendRelease(i)), rest);
  }

  lemma {:induction false} ReleaseLoop(c: Config, s: State, i: Id)
    requires i in s.node && s.node[i].phase.Releasing?
    ensures var n := s.node[i];
      var run := Repeat(SendRelease(i), |n.phase.unsent|);
      && Run(c, s, run)
      && After(c, s, run) == Sent(s, i, Releasing(n.phase.stamp, []), n.phase.unsent, Release(n.phase.stamp))
    decreases |s.node[i].phase.unsent|
  {
    var n := s.node[i];
    var unsent, m := n.phase.unsent, Release(n.phase.stamp);
    if unsent == [] {
      assert s.node[i := n] == s.node;
    } else {
      var rest := Repeat(SendRelease(i), |unsent| - 1);
      ReleaseLoop(c, Sent(s, i, Releasing(n.phase.stamp, unsent[1..]), [unsent[0]], m), i);
      SentStep(s, i, Releasing(n.phase.stamp, []), Releasing(n.phase.stamp, unsent[1..]), unsent, m);
      ReleaseFirst(c, s, i, rest);
    }
  }
}
