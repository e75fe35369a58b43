/**
 Runs that reach the stall of the pool of pthreads/pthreads6.c: how many calls of submit it takes.
 */
module GrowingPoolReach {
  import opened Threads
  import opened Tasks
  import opened GrowingPool
  import opened GrowingPoolSafety
  import opened GrowingPoolTheorems

  /** k calls of submit have come and gone, tasks 0 to k - 1 are queued, and no worker has moved yet. */
  ghost predicate Quiet(c: Config, s: State, k: nat) {
    && Inv(c, s)
    && c.submitters >= 1
    && s.queueOwner == Free && s.poolOwner == Free && s.dpc == DOut
    && (forall i :: 0 <= i < |s.spc| ==> s.spc[i] == SOut)
    && (forall i :: 0 <= i < |s.wpc| ==> s.wpc[i] == WLock)
    && s.ring.count == k
    && (forall x: nat :: x in s.called <==> x < k)
  }

  /** The call of submit by submitter 0 with task k, up to the growth test of line 99. */
  lemma CallUpToGrow(c: Config, s: State, k: nat) returns (run: seq<Step>)
    requires Quiet(c, s, k) && k < c.capacity
    ensures Legal(c, s, run)
    ensures Exec(c, s, run) == s.(queueOwner := Submitter(0), spc := s.spc[0 := SGrow], arg := s.arg[0 := k],
                                  called := s.called + {k}, ring := s.ring.Put(k), accepted := s.accepted + [k])
  {
    var call, go := CallSubmit(0, k), Submit(0, Choice({}, false, 0));
    run := [];
    Then(c, s, run, call);
    Then(c, s, run + [call], go);
    run := run + [call] + [go];
    assert Exec(c, s, run) == s.(queueOwner := Submitter(0), spc := s.spc[0 := STest], arg := s.arg[0 := k],
                                 called := s.called + {k});
    Then(c, s, run, go);
    Then(c, s, run + [go], go);
    run := run + [go] + [go];
    assert Exec(c, s, run).spc == s.spc[0 := SSignal];
    assert Wake(s.wpc, {}, WWoken) == s.wpc;
    Then(c, s, run, go);
    run := run + [go];
    assert Exec(c, s, run).spc == s.spc[0 := SGrow];
  }

  /** A call that does not fill the queue comes and goes. */
  lemma OneCall(c: Config, s: State, k: nat) returns (run: seq<Step>)
    requires Quiet(c, s, k) && k + 1 < c.capacity
    ensures Legal(c, s, run) && Quiet(c, Exec(c, s, run), k + 1) && Exec(c, s, run).num == s.num
  {
    run := CallUpToGrow(c, s, k);
    var go := Submit(0, Choice({}, false, 0));
    Then(c, s, run, go);
    run := run + [go];
    assert Exec(c, s, run).spc == s.spc[0 := SUnlock];
    Then(c, s, run, go);
    run := run + [go];
    assert Exec(c, s, run).spc == s.spc[0 := SOut];
    InvAlongRun(c, s, run);
  }

  /** n calls fill n slots, while one slot is left. */
  lemma {:induction false} Fill(c: Config, s: State, k: nat, n: nat) returns (run: seq<Step>)
    requires Quiet(c, s, k) && k <= n < c.capacity
    ensures Legal(c, s, run) && Quiet(c, Exec(c, s, run), n) && Exec(c, s, run).num == s.num
    decreases n - k
  {
    run := [];
    if k < n {
      run := OneCall(c, s, k);
      var more := Fill(c, Exec(c, s, run), k + 1, n);
      ThenRun(c, s, run, more);
      run := run + more;
    }
  }

  /** After the run some submit is past, or about to pass, its growth test: for good, by GrowthStallsForEver. */
  ghost predicate Stalls(c: Config, s: State, run: seq<Step>, n: nat)
    requires Legal(c, s, run)
  {
    var t := Exec(c, s, run);
    |t.called| <= n && exists i: nat :: Stalling(c, t, i)
  }

  /** Nobody has got past the test of line 90. */
  ghost predicate NobodyPuts(s: State) {
    forall i :: 0 <= i < |s.spc| ==>
      s.spc[i].SOut? || s.spc[i].SWait? || s.spc[i].SLock? || s.spc[i].SWoken? || s.spc[i].STest?
  }

  lemma NothingFitsStep(c: Config, s: State, step: Step)
    requires s.ring.Valid() && |s.ring.buf| == c.capacity == 0 && NobodyPuts(s) && Next(c, s, step).Some?
    ensures NobodyPuts(Next(c, s, step).value)
  {
  }

  /** With capacity 0 every submitter that gets to the test waits. */
  lemma {:induction false} NothingFits(c: Config, s: State, run: seq<Step>)
    requires Inv(c, s) && NobodyPuts(s) && Legal(c, s, run) && c.capacity == 0
    ensures NobodyPuts(Exec(c, s, run))
    decreases |run|
  {
    if run != [] {
      InvStep(c, s, run[0]);
      NothingFitsStep(c, s, run[0]);
      NothingFits(c, Next(c, s, run[0]).value, run[1..]);
    }
  }

  lemma StallNeedsCalls(c: Config, s: State, run: seq<Step>, n: nat)
    requires IsInit(c, s) && c.variant == AsWritten && Legal(c, s, run) && Stalls(c, s, run, n)
    ensures c.submitters >= 1 && s.num < c.maxThreads && n >= c.capacity >= 1
  {
    InitInv(c, s);
    InvAlongRun(c, s, run);
    NeverGrowsAsWritten(c, s, run);
    QueueHoldsAtMostTheCalls(c, Exec(c, s, run));
    if c.capacity == 0 { NothingFits(c, s, run); }
  }

  /**
   As written, with n calls of submit, some run stalls for ever if and only if there is a submitter,
   init created fewer threads than the maximum, and n reaches the capacity, which is not 0.
   */
  lemma StallsIff(c: Config, s: State, n: nat)
    requires IsInit(c, s) && c.variant == AsWritten
    ensures (exists run :: Legal(c, s, run) && Stalls(c, s, run, n))
       <==> c.submitters >= 1 && s.num < c.maxThreads && n >= c.capacity >= 1
  {
    InitInv(c, s);
    forall run | Legal(c, s, run) && Stalls(c, s, run, n)
      ensures c.submitters >= 1 && s.num < c.maxThreads && n >= c.capacity >= 1
    {
      StallNeedsCalls(c, s, run, n);
    }
    if c.submitters >= 1 && s.num < c.maxThreads && n >= c.capacity >= 1 {
      var run := Fill(c, s, 0, c.capacity - 1);
      var t := Exec(c, s, run);
      var more := CallUpToGrow(c, t, c.capacity - 1);
      ThenRun(c, s, run, more);
      var u := Exec(c, s, run + more);
      BelowCardinality(u.called, c.capacity);
      assert Stalling(c, u, 0);
      assert Stalls(c, s, run + more, n);
    }
  }
}
