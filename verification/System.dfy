// The invariants together, over every run.
module System {
  import opened Transactions
  import opened Protocol
  import opened Mutex
  import opened Replication
  import opened Log
  import opened Epidemic

  ghost predicate Inv(c: Config, scripts: map<Id, seq<TransactionData>>, s: State) {
    ValidConfig(c) && MutexInv(c, s) && RepInv(c, s) && LogInv(scripts, s) && EpiInv(c, s)
  }

  lemma InvInit(c: Config, scripts: map<Id, seq<TransactionData>>)
    requires ValidConfig(c)
    ensures Inv(c, scripts, Init(c, scripts))
  {
    MutexInit(c, scripts);
    RepInit(c, scripts);
    LogInit(c, scripts);
    EpiInit(c, scripts);
  }

  lemma InvStep(c: Config, scripts: map<Id, seq<TransactionData>>, s: State, a: Action)
    requires Inv(c, scripts, s) && Enabled(c, s, a) && Gate(s, a)
    ensures Inv(c, scripts, Exec(c, s, a))
  {
    if a.Deliver? {
      NoUpdates(c, s, a.i, a.j);
    }
    MutexStep(c, s, a);
    RepStep(c, s, a);
    LogStep(c, scripts, s, a);
    EpiStep(c, s, a);
  }

  lemma {:induction false} InvRun(c: Config, scripts: map<Id, seq<TransactionData>>, s: State, run: seq<Action>)
    requires Inv(c, scripts, s) && Run(c, s, run)
    ensures Inv(c, scripts, After(c, s, run))
    decreases |run|
  {
    if run == [] {
    } else {
      InvStep(c, scripts, s, run[0]);
      InvRun(c, scripts, Exec(c, s, run[0]), run[1..]);
    }
  }

  // ------------------------------------------------- runs, Gate or no Gate

  // Some run the code permits, respecting Gate if `gated`, leads from s to t.
  ghost predicate Leads(c: Config, gated: bool, s: State, t: State) {
    exists run {:trigger RawRun(c, s, run)} ::
      RawRun(c, s, run) && (gated ==> Run(c, s, run)) && After(c, s, run) == t
  }

  lemma LeadsNowhere(c: Config, gated: bool, s: State)
    ensures Leads(c, gated, s, s)
  {
    assert RawRun(c, s, []);
  }

  lemma LeadsStep(c: Config, gated: bool, s: State, a: Action)
    requires Enabled(c, s, a) && (gated ==> Gate(s, a))
    ensures Leads(c, gated, s, Exec(c, s, a))
  {
    var s' := Exec(c, s, a);
    assert [a][0] == a && [a][1..] == [];
    assert RawRun(c, s', []) && Run(c, s', []) && After(c, s', []) == s';
    assert RawRun(c, s, [a]) && After(c, s, [a]) == s';
  }

  lemma {:induction false} Concatenate(c: Config, s: State, run: seq<Action>, more: seq<Action>)
    requires RawRun(c, s, run) && RawRun(c, After(c, s, run), more)
    ensures RawRun(c, s, run + more) && After(c, s, run + more) == After(c, After(c, s, run), more)
    decreases |run|
  {
    if run == [] {
      assert [] + more == more;
    } else {
      assert (run + more)[0] == run[0] && (run + more)[1..] == run[1..] + more;
      Concatenate(c, Exec(c, s, run[0]), run[1..], more);
    }
  }

  lemma {:induction false} ConcatenateGated(c: Config, s: State, run: seq<Action>, more: seq<Action>)
    requires Run(c, s, run) && Run(c, After(c, s, run), more)
    ensures Run(c, s, run + more)
    decreases |run|
  {
    if run == [] {
      assert [] + more == more;
    } else {
      assert (run + more)[0] == run[0] && (run + more)[1..] == run[1..] + more;
      ConcatenateGated(c, Exec(c, s, run[0]), run[1..], more);
    }
  }

  lemma LeadsOn(c: Config, gated: bool, s: State, t: State, u: State)
    requires Leads(c, gated, s, t) && Leads(c, gated, t, u)
    ensures Leads(c, gated, s, u)
  {
    var run :| RawRun(c, s, run) && (gated ==> Run(c, s, run)) && After(c, s, run) == t;
    var more :| RawRun(c, t, more) && (gated ==> Run(c, t, more)) && After(c, t, more) == u;
    Concatenate(c, s, run, more);
    if gated {
      ConcatenateGated(c, s, run, more);
    }
  }

  // ---------------------------------------------------------- reachable states

  // s is the end of some run of the whole system.
  ghost predicate Reachable(c: Config, scripts: map<Id, seq<TransactionData>>, s: State) {
    ValidConfig(c) && Leads(c, true, Init(c, scripts), s)
  }

  // Every reachable state satisfies the invariants.
  lemma Always(c: Config, scripts: map<Id, seq<TransactionData>>, s: State)
    requires Reachable(c, scripts, s)
    ensures Inv(c, scripts, s)
  {
    var s0 := Init(c, scripts);
    var run :| RawRun(c, s0, run) && Run(c, s0, run) && After(c, s0, run) == s;
    InvInit(c, scripts);
    InvRun(c, scripts, s0, run);
  }

  // If no node handles a message between choosing its ticks and sending its last REQUEST,
  // that is, if requestCS up to its wait is one step, Gate is never broken.
  predicate AtomicRequests(c: Config, s: State, run: seq<Action>)
    decreases |run|
  {
    run == [] || (
      && Enabled(c, s, run[0]) && (run[0].Deliver? ==> Unrequested(s.node[run[0].j]) == [])
      && AtomicRequests(c, Exec(c, s, run[0]), run[1..]))
  }

  lemma {:induction false} AtomicRequestsAreGated(c: Config, s: State, run: seq<Action>)
    requires AtomicRequests(c, s, run)
    ensures Run(c, s, run)
    decreases |run|
  {
    if run == [] {
    } else {
      AtomicRequestsAreGated(c, Exec(c, s, run[0]), run[1..]);
    }
  }
}
