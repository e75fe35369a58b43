/**
 Runs that reach the trouble of the pool of pthreads/pthreads10.c: how many calls of submit it takes
 until a submitter can be asleep on queue_not_full when destroy sets the flag.
 */
module ShutdownPoolReach {
  import opened Threads
  import opened Tasks
  import opened ShutdownPool
  import opened ShutdownPoolSafety

  /** k calls of submit have come and gone, tasks 0 to k - 1 are queued, and no worker has moved yet. */
  ghost predicate Quiet(c: Config, s: State, k: nat) {
    && Inv(c, s)
    && c.submitters >= 1
    && !s.shutdown && s.owner == Free && s.dpc == DOut
    && AllOut(s.spc)
    && (forall i :: 0 <= i < |s.wpc| ==> s.wpc[i] == WLock)
    && s.ring.count == k
    && (forall x: nat :: x in s.called <==> x < k)
  }

  /** The call of submit by submitter 0 with task k, up to the test of line 68. */
  lemma CallUpToTest(c: Config, s: State, k: nat) returns (run: seq<Step>)
    requires Quiet(c, s, k)
    ensures Legal(c, s, run)
    ensures Exec(c, s, run) == s.(owner := Submitter(0), spc := s.spc[0 := STest], arg := s.arg[0 := k],
                                  called := s.called + {k})
  {
    var call, lock := CallSubmit(0, k), Submit(0, {});
    run := [];
    Then(c, s, run, call);
    Then(c, s, run + [call], lock);
    run := run + [call] + [lock];
    assert s.spc[0 := SLock][0 := STest] == s.spc[0 := STest];
  }

  /** The rest of a call that finds room. */
  lemma CallFromTest(c: Config, s: State) returns (run: seq<Step>)
    requires Inv(c, s) && !s.shutdown && !Freed(s) && s.ring.count < c.capacity
    requires |s.spc| > 0 && s.spc[0] == STest && WWait !in s.wpc
    ensures Legal(c, s, run)
    ensures Exec(c, s, run) == s.(owner := Free, spc := s.spc[0 := SOut], ring := s.ring.Put(s.arg[0]),
                                  accepted := s.accepted + [s.arg[0]])
  {
    var go := Submit(0, {});
    run := [];
    Then(c, s, run, go);
    Then(c, s, run + [go], go);
    Then(c, s, run + [go] + [go], go);
    run := run + [go] + [go] + [go];
    var t := Exec(c, s, run);
    assert t.spc == s.spc[0 := SSignal];
    assert Wake(s.wpc, {}, WWoken) == s.wpc;
    Then(c, s, run, go);
    Then(c, s, run + [go], go);
    run := run + [go] + [go];
    assert s.spc[0 := SSignal][0 := SUnlock][0 := SOut] == s.spc[0 := SOut];
  }

  lemma OneCall(c: Config, s: State, k: nat) returns (run: seq<Step>)
    requires Quiet(c, s, k) && k < c.capacity
    ensures Legal(c, s, run) && Quiet(c, Exec(c, s, run), k + 1)
  {
    run := CallUpToTest(c, s, k);
    InvAlongRun(c, s, run);
    var t := Exec(c, s, run);
    var more := CallFromTest(c, t);
    ThenRun(c, s, run, more);
    run := run + more;
    InvAlongRun(c, s, run);
  }

  /** n calls fill n slots. */
  lemma {:induction false} Fill(c: Config, s: State, k: nat, n: nat) returns (run: seq<Step>)
    requires Quiet(c, s, k) && k <= n <= c.capacity
    ensures Legal(c, s, run) && Quiet(c, Exec(c, s, run), n)
    decreases n - k
  {
    run := [];
    if k < n {
      run := OneCall(c, s, k);
      var more := Fill(c, Exec(c, s, run), k + 1, n);
      ThenRun(c, s, run, more);
      run := run + more;
    }
  }

  /** A submitter that finds the queue full sleeps, and destroy sets the flag. */
  lemma SleepThenFlag(c: Config, s: State) returns (run: seq<Step>)
    requires Quiet(c, s, c.capacity)
    ensures Legal(c, s, run)
    ensures Exec(c, s, run).dpc == DWakeWorkers && SWait in Exec(c, s, run).spc
    ensures Exec(c, s, run).called == s.called + {c.capacity}
  {
    run := CallUpToTest(c, s, c.capacity);
    var go := Submit(0, {});
    Then(c, s, run, go);
    run := run + [go];
    Then(c, s, run, CallDestroy);
    run := run + [CallDestroy];
    Then(c, s, run, Destroy);
    run := run + [Destroy];
    assert Exec(c, s, run).dpc == DFlag && Exec(c, s, run).spc[0] == SWait;
    Then(c, s, run, Destroy);
    run := run + [Destroy];
    assert Exec(c, s, run).spc[0] == SWait;
  }

  lemma CalledBelow(s: State, k: nat)
    requires forall x: nat :: x in s.called <==> x < k
    ensures |s.called| == k
  {
    BelowCardinality(s.called, k);
  }

  /** Some submitter is in the wait of line 69. */
  predicate Asleep(spc: seq<SubmitPc>) {
    SWait in spc || SWoken in spc
  }

  /** Whoever sleeps, or has slept and not got the mutex back, has come after `capacity` other tasks. */
  ghost predicate SleepersCameLate(c: Config, s: State) {
    Asleep(s.spc) ==> |s.called| > c.capacity
  }

  lemma FallingAsleep(c: Config, s: State, i: nat)
    requires Inv(c, s) && i < |s.spc| && s.spc[i] == STest && s.ring.count == c.capacity
    ensures |s.called| > c.capacity
  {
    assert Pending(s.spc[i]);
    DistinctBound(s.accepted, s.called - {s.arg[i]});
  }

  /** Only a submitter that finds the queue full starts to sleep. */
  lemma SleptBefore(c: Config, s: State, step: Step)
    requires Next(c, s, step).Some? && Asleep(Next(c, s, step).value.spc)
    requires !(step.Submit? && s.spc[step.i] == STest && s.ring.count == c.capacity)
    ensures Asleep(s.spc)
  {
    var t := Next(c, s, step).value;
    var k :| 0 <= k < |t.spc| && (t.spc[k] == SWait || t.spc[k] == SWoken);
    assert k < |s.spc| && (s.spc[k] == SWait || s.spc[k] == SWoken);
  }

  lemma CalledGrows(c: Config, s: State, step: Step)
    requires Next(c, s, step).Some?
    ensures |s.called| <= |Next(c, s, step).value.called|
  {
    CardinalityOrder(s.called, Next(c, s, step).value.called);
  }

  lemma SleepersStep(c: Config, s: State, step: Step)
    requires Inv(c, s) && SleepersCameLate(c, s) && Next(c, s, step).Some?
    ensures SleepersCameLate(c, Next(c, s, step).value)
  {
    CalledGrows(c, s, step);
    if step.Submit? && s.spc[step.i] == STest && s.ring.count == c.capacity {
      FallingAsleep(c, s, step.i);
    } else if Asleep(Next(c, s, step).value.spc) {
      SleptBefore(c, s, step);
    }
  }

  lemma {:induction false} SleepersRun(c: Config, s: State, run: seq<Step>)
    requires Inv(c, s) && SleepersCameLate(c, s) && Legal(c, s, run)
    ensures SleepersCameLate(c, Exec(c, s, run))
    decreases |run|
  {
    if run != [] {
      SleepersStep(c, s, run[0]);
      InvStep(c, s, run[0]);
      SleepersRun(c, Next(c, s, run[0]).value, run[1..]);
    }
  }

  /** A submitter is asleep on queue_not_full just after destroy has set the flag. */
  ghost predicate Strands(c: Config, s: State, run: seq<Step>, n: nat)
    requires Legal(c, s, run)
  {
    var t := Exec(c, s, run);
    |t.called| <= n && t.dpc == DWakeWorkers && SWait in t.spc
  }

  /**
   With n calls of submit some run strands a submitter if and only if there is a submitter and n
   exceeds the capacity. So the failure occurs for every pool, and with no fewer calls.
   */
  lemma StrandsIff(c: Config, s: State, n: nat)
    requires IsInit(c, s)
    ensures (exists run :: Legal(c, s, run) && Strands(c, s, run, n)) <==> c.submitters >= 1 && n > c.capacity
  {
    InitInv(c, s);
    forall run | Legal(c, s, run) && Strands(c, s, run, n)
      ensures c.submitters >= 1 && n > c.capacity
    {
      SleepersRun(c, s, run);
      InvAlongRun(c, s, run);
    }
    if c.submitters >= 1 && n > c.capacity {
      var run := Fill(c, s, 0, c.capacity);
      var t := Exec(c, s, run);
      var more := SleepThenFlag(c, t);
      ThenRun(c, s, run, more);
      CalledBelow(t, c.capacity);
      assert Strands(c, s, run + more, n);
    }
  }
}
