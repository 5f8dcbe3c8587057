// Why Gate is needed. requestCS chooses its ticks, queues them and only then sends its
// REQUESTs, holding no lock against the message callbacks. If the REQUEST of a peer is
// handled in between, the ACK overtakes the node's own REQUEST with a later stamp, and
// two nodes can be in the critical section at once.
module RequestRace {
  import opened Transactions
  import opened Protocol
  import opened Mutex
  import opened Log
  import opened System
  import opened RaceCondition

  const PAIR := Config([1, 2], {}, {}, map[1 := [2], 2 := [1]], map[])
  const TWENTY := TransactionData(SUM, 20)
  const SCRIPTS: map<Id, seq<TransactionData>> := map[1 := [TWENTY], 2 := [TWENTY]]

  lemma PairIsValid()
    ensures ValidConfig(PAIR)
  {
  }

  predicate BothInside(s: State) {
    1 in s.node && 2 in s.node && InCs(s.node[1]) && InCs(s.node[2])
  }

  // Without Gate the code as written lets two nodes in together: both request with ticks 2,
  // and node 1 answers node 2 before sending its own REQUEST (RaceCondition has the run) ...
  lemma RaceBreaksMutualExclusion() returns (s: State)
    ensures ValidConfig(PAIR) && Leads(PAIR, false, Init(PAIR, SCRIPTS), s) && BothInside(s)
  {
    PairIsValid();
    assert WritesOf([TWENTY]) == [TWENTY] + WritesOf([TWENTY][1..]);
    s := Collision(PAIR, SCRIPTS, 1, 2);
  }

  // ... and only a step that breaks Gate can.
  lemma OnlyTheRace(c: Config, scripts: map<Id, seq<TransactionData>>, run: seq<Action>, i: Id, j: Id)
    requires ValidConfig(c) && RawRun(c, Init(c, scripts), run)
    requires var s := After(c, Init(c, scripts), run);
      i in s.node && j in s.node && i != j && InCs(s.node[i]) && InCs(s.node[j])
    ensures exists n: nat :: n < |run| && RawRun(c, Init(c, scripts), run[..n]) && !Gate(After(c, Init(c, scripts), run[..n]), run[n])
  {
    if forall n: nat :: n < |run| && RawRun(c, Init(c, scripts), run[..n]) ==> Gate(After(c, Init(c, scripts), run[..n]), run[n]) {
      Ungated(c, Init(c, scripts), run);
      InvInit(c, scripts);
      InvRun(c, scripts, Init(c, scripts), run);
      MutualExclusion(c, After(c, Init(c, scripts), run), i, j);
    }
  }

  lemma {:induction false} Ungated(c: Config, s: State, run: seq<Action>)
    requires RawRun(c, s, run)
    requires forall n: nat :: n < |run| && RawRun(c, s, run[..n]) ==> Gate(After(c, s, run[..n]), run[n])
    ensures Run(c, s, run)
    decreases |run|
  {
    if run == [] {
    } else {
      var s1, rest := Exec(c, s, run[0]), run[1..];
      assert run[..0] == [] && RawRun(c, s, run[..0]);
      forall n: nat | n < |rest| && RawRun(c, s1, rest[..n]) ensures Gate(After(c, s1, rest[..n]), rest[n]) {
        assert run[..n + 1][0] == run[0] && run[..n + 1][1..] == rest[..n];
        assert RawRun(c, s, run[..n + 1]);
      }
      Ungated(c, s1, rest);
    }
  }
}
