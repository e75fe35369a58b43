/**
 What holds of every run of the growing pool of pthreads/pthreads6.c, as written and without the
 second lock of `pool_mutex`.
 */
module GrowingPoolTheorems {
  import opened Threads
  import opened Tasks
  import opened GrowingPool
  import opened GrowingPoolSafety

  // ---------------------------------------------------------------------------------------------
  // The queue
  // ---------------------------------------------------------------------------------------------

  /** No lost wakeup, with barging and spurious wakeups, while workers are being added. */
  lemma NoLostWakeup(c: Config, s: State)
    requires Reachable(c, s) && s.queueOwner == Free
    ensures WWait in s.wpc ==> Count(s.wpc, WWoken) >= s.ring.count
    ensures SWait in s.spc ==> Count(s.spc, SWoken) >= c.capacity - s.ring.count
  {
    ReachableInv(c, s);
  }

  /**
   Conservation: the removed tasks followed by the queue are the accepted tasks in acceptance order;
   every task ever passed to submit is still with its submitter or accepted, not both; and an
   accepted task is queued, held by a worker or started, in one place and once.
   */
  lemma TasksAreConserved(c: Config, s: State, x: Task)
    requires Reachable(c, s)
    ensures s.ring.Valid() && |s.ring.buf| == c.capacity && |s.wpc| == |s.local| && |s.spc| == |s.arg|
    ensures s.accepted == s.taken + s.ring.Contents()
    ensures x in s.called <==> x in s.accepted || InFlight(s.spc, s.arg, Pending, x)
    ensures !(x in s.accepted && InFlight(s.spc, s.arg, Pending, x))
    ensures multiset(s.ring.Contents())[x] + Held(s.wpc, s.local, Holding, x) + multiset(s.started)[x]
         == if x in s.accepted then 1 else 0
  {
    ReachableInv(c, s);
    DistinctOnce(s.accepted, x);
    assert multiset(s.taken + s.ring.Contents()) == multiset(s.taken) + multiset(s.ring.Contents());
  }

  // ---------------------------------------------------------------------------------------------
  // The lock hierarchy
  // ---------------------------------------------------------------------------------------------

  /** The thread that t has to wait for: the owner of the mutex it wants, or the worker it joins. */
  function WaitsFor(s: State, t: Owner): Owner {
    match t
    case Free => Free
    case Submitter(i) =>
      if i >= |s.spc| then Free
      else if s.spc[i] == SLock || s.spc[i] == SWoken then s.queueOwner
      else if s.spc[i] == SLockPool || s.spc[i] == SRelock then s.poolOwner
      else Free
    case Worker(i) =>
      if i < |s.wpc| && (s.wpc[i] == WLock || s.wpc[i] == WWoken) then s.queueOwner else Free
    case Destroyer =>
      if s.dpc == DLock then s.queueOwner
      else if s.dpc.DJoin? && s.dpc.k < s.num && s.dpc.k < |s.handles| then Worker(s.handles[s.dpc.k])
      else Free
  }

  /** A closed chain of threads each of which waits for the next. */
  ghost predicate WaitCycle(s: State, p: seq<Owner>) {
    && |p| >= 2
    && p[0] == p[|p| - 1]
    && (forall k :: 0 <= k < |p| ==> p[k] != Free)
    && (forall k :: 0 <= k < |p| - 1 ==> WaitsFor(s, p[k]) == p[k + 1])
  }

  /** Only the owner of a mutex is waited for by a submitter, a worker, or a destroyer that is not joining. */
  lemma OwnerWaitsOnlyForItself(c: Config, s: State, t: Owner)
    requires Inv(c, s) && t != Free && (t == s.queueOwner || t == s.poolOwner)
    requires WaitsFor(s, t) != Free
    ensures t.Submitter? && t.i < |s.spc| && s.spc[t.i] == SRelock && WaitsFor(s, t) == t
  {
  }

  lemma NobodyWaitsForAJoiner(c: Config, s: State, t: Owner)
    requires Inv(c, s) && WaitsFor(s, t) == Destroyer
    ensures !s.dpc.DJoin?
  {
  }

  lemma InCycle(c: Config, s: State, p: seq<Owner>, k: nat)
    requires Inv(c, s) && WaitCycle(s, p) && k < |p| - 1
    ensures p[k].Submitter? && p[k].i < |s.spc| && s.spc[p[k].i] == SRelock && p[k + 1] == p[k]
  {
    var before := if k == 0 then |p| - 2 else k - 1;
    assert WaitsFor(s, p[before]) == p[before + 1] && p[before + 1] == p[k];
    if p[before] == Destroyer {
      var earlier := if before == 0 then |p| - 2 else before - 1;
      assert WaitsFor(s, p[earlier]) == p[earlier + 1] && p[earlier + 1] == p[before];
      NobodyWaitsForAJoiner(c, s, p[earlier]);
    }
    assert WaitsFor(s, p[k]) == p[k + 1];
    OwnerWaitsOnlyForItself(c, s, p[k]);
  }

  /** The chain names one submitter only, which is at line 120. */
  ghost predicate CycleOfRelock(s: State, p: seq<Owner>) {
    && |p| > 0 && p[0].Submitter? && p[0].i < |s.spc| && s.spc[p[0].i] == SRelock
    && forall k :: 0 <= k < |p| ==> p[k] == p[0]
  }

  lemma CyclesAreRelocks(c: Config, s: State, p: seq<Owner>)
    requires Inv(c, s) && WaitCycle(s, p)
    ensures CycleOfRelock(s, p)
  {
    InCycle(c, s, p, 0);
    AllSame(c, s, p, |p| - 1);
  }

  /**
   Lock hierarchy: a holder of `pool_mutex` never asks for `queue_mutex`. The only closed chain of
   waiting threads is a submitter at line 120 waiting for itself; there is one exactly when some
   submitter has reached line 120, and without the relock there is none.
   */
  lemma OnlyCycleIsTheRelock(c: Config, s: State)
    requires Reachable(c, s)
    ensures s.poolOwner.Submitter? && s.poolOwner.i < |s.spc| ==>
      s.spc[s.poolOwner.i] != SLock && s.spc[s.poolOwner.i] != SWoken && s.queueOwner == s.poolOwner
    ensures forall p: seq<Owner> :: WaitCycle(s, p) ==> CycleOfRelock(s, p)
    ensures (exists p: seq<Owner> :: WaitCycle(s, p)) <==> SRelock in s.spc
    ensures c.variant == WithoutRelock ==> !exists p: seq<Owner> :: WaitCycle(s, p)
  {
    ReachableInv(c, s);
    forall p: seq<Owner> | WaitCycle(s, p)
      ensures CycleOfRelock(s, p)
    {
      CyclesAreRelocks(c, s, p);
      assert s.spc[p[0].i] == SRelock;
    }
    if SRelock in s.spc {
      var i: nat :| i < |s.spc| && s.spc[i] == SRelock;
      assert HoldsPool(s.spc[i]);
      assert WaitCycle(s, [Submitter(i), Submitter(i)]);
    }
  }

  lemma {:induction false} AllSame(c: Config, s: State, p: seq<Owner>, n: nat)
    requires Inv(c, s) && WaitCycle(s, p) && n < |p|
    ensures forall k :: 0 <= k <= n ==> p[k] == p[0]
  {
    if n > 0 {
      AllSame(c, s, p, n - 1);
      InCycle(c, s, p, n - 1);
    }
  }

  // ---------------------------------------------------------------------------------------------
  // The stall of the code as written
  // ---------------------------------------------------------------------------------------------

  /** The growth test of line 99. */
  predicate Grows(c: Config, s: State) {
    s.ring.count == c.capacity && s.num < c.maxThreads
  }

  /** Submitter i has passed the growth test of line 99, or is about to. */
  ghost predicate Stalling(c: Config, s: State, i: nat) {
    && i < |s.spc|
    && (s.spc[i] == SGrow || s.spc[i] == SLockPool || s.spc[i] == SRecheck || s.spc[i] == SRelock)
    && Grows(c, s)
  }

  lemma StallStep(c: Config, s: State, step: Step, i: nat)
    requires Inv(c, s) && c.variant == AsWritten && Stalling(c, s, i) && Next(c, s, step).Some?
    ensures var t := Next(c, s, step).value;
      && Stalling(c, t, i)
      && t.ring == s.ring && t.accepted == s.accepted && t.taken == s.taken && t.returned == s.returned
      && (s.spc[i] == SRelock ==> t.spc[i] == SRelock)
  {
    assert s.queueOwner == Submitter(i);
  }

  lemma {:induction false} StallRun(c: Config, s: State, run: seq<Step>, i: nat)
    requires Inv(c, s) && c.variant == AsWritten && Stalling(c, s, i) && Legal(c, s, run)
    ensures var t := Exec(c, s, run);
      && Inv(c, t)
      && Stalling(c, t, i)
      && t.ring == s.ring && t.accepted == s.accepted && t.taken == s.taken && t.returned == s.returned
      && (s.spc[i] == SRelock ==> t.spc[i] == SRelock)
    decreases |run|
  {
    if run != [] {
      StallStep(c, s, run[0], i);
      InvStep(c, s, run[0]);
      StallRun(c, Next(c, s, run[0]).value, run[1..], i);
    }
  }

  /**
   Permanent stall: as written, once a submit has filled the queue while `num_threads < max_threads`,
   in every continuation it keeps `queue_mutex` and never returns, nobody else acquires the mutex,
   no task is accepted or removed, and no submit returns.
   */
  lemma GrowthStallsForEver(c: Config, s: State, run: seq<Step>, i: nat)
    requires Reachable(c, s) && c.variant == AsWritten && Stalling(c, s, i) && Legal(c, s, run)
    ensures var t := Exec(c, s, run);
      && Stalling(c, t, i) && t.queueOwner == Submitter(i)
      && t.ring == s.ring && t.accepted == s.accepted && t.taken == s.taken && t.returned == s.returned
      && (forall j :: 0 <= j < |t.wpc| ==> !WHolds(t.wpc[j]))
      && (forall j :: 0 <= j < |t.spc| && j != i ==> !SHolds(t.spc[j]))
  {
    ReachableInv(c, s);
    StallRun(c, s, run, i);
  }

  /**
   As written, a submit at its growth test can ever return exactly when the test fails and the pool has
   not been freed under it (which a destroyer that finds no threads to join can do).
   */
  lemma ReturnsIffNoGrowth(c: Config, s: State, i: nat)
    requires Reachable(c, s) && c.variant == AsWritten && i < |s.spc| && s.spc[i] == SGrow
    ensures (exists run :: Legal(c, s, run) && Exec(c, s, run).returned > s.returned) <==> !Grows(c, s) && !Freed(s)
  {
    ReachableInv(c, s);
    if Grows(c, s) {
      forall run | Legal(c, s, run)
        ensures Exec(c, s, run).returned == s.returned
      {
        StallRun(c, s, run, i);
      }
    } else if Freed(s) {
      forall run | Legal(c, s, run)
        ensures Exec(c, s, run).returned == s.returned
      {
        FreedRun(c, s, run);
      }
    } else {
      var go := Submit(i, Choice({}, false, 0));
      Then(c, s, [], go);
      assert Exec(c, s, [] + [go]).spc[i] == SUnlock;
      Then(c, s, [] + [go], go);
    }
  }

  lemma {:induction false} FreedRun(c: Config, s: State, run: seq<Step>)
    requires Freed(s) && Legal(c, s, run)
    ensures Freed(Exec(c, s, run)) && Exec(c, s, run).returned == s.returned
    decreases |run|
  {
    if run != [] {
      FreedRun(c, Next(c, s, run[0]).value, run[1..]);
    }
  }

  /** As written the pool never grows at all: in every run it keeps the workers that init created. */
  lemma NeverGrowsAsWritten(c: Config, s: State, run: seq<Step>)
    requires IsInit(c, s) && c.variant == AsWritten && Legal(c, s, run)
    ensures Exec(c, s, run).num == s.num && |Exec(c, s, run).wpc| == |s.wpc|
  {
    InitInv(c, s);
    SameWorkers(c, s, run);
  }

  lemma SameWorkersStep(c: Config, s: State, step: Step)
    requires SubmitterPointInv(c, s) && c.variant == AsWritten && Next(c, s, step).Some?
    ensures Next(c, s, step).value.num == s.num && |Next(c, s, step).value.wpc| == |s.wpc|
  {
  }

  lemma {:induction false} SameWorkers(c: Config, s: State, run: seq<Step>)
    requires Inv(c, s) && c.variant == AsWritten && Legal(c, s, run)
    ensures Exec(c, s, run).num == s.num && |Exec(c, s, run).wpc| == |s.wpc|
    decreases |run|
  {
    if run != [] {
      SameWorkersStep(c, s, run[0]);
      InvStep(c, s, run[0]);
      SameWorkers(c, Next(c, s, run[0]).value, run[1..]);
    }
  }

  // ---------------------------------------------------------------------------------------------
  // Growth
  // ---------------------------------------------------------------------------------------------

  ghost predicate Grown(s: State, t: State) {
    && s.num <= t.num <= s.num + 1
    && |s.wpc| <= |t.wpc|
    && s.returned <= t.returned
    && |t.handles| == |s.handles|
    && (forall k :: 0 <= k < s.num && k < |s.handles| ==> t.handles[k] == s.handles[k])
  }

  lemma GrowthSubmit(c: Config, s: State, i: nat, x: Choice)
    requires SubmitterNext(c, s, i, x).Some?
    ensures Grown(s, SubmitterNext(c, s, i, x).value)
  {
  }

  lemma GrowthStep(c: Config, s: State, step: Step)
    requires Next(c, s, step).Some?
    ensures Grown(s, Next(c, s, step).value)
  {
    if step.Submit? { GrowthSubmit(c, s, step.i, step.x); }
  }

  /**
   Growth bound: along every run the number of threads never decreases and never exceeds the
   maximum, every counted handle denotes its worker and is never overwritten, and when no thread is
   inside add_worker exactly the counted workers exist, whatever pthread_create answers.
   */
  lemma GrowthBound(c: Config, s: State, run: seq<Step>)
    requires Reachable(c, s) && Legal(c, s, run)
    ensures var t := Exec(c, s, run);
      && s.num <= t.num <= c.maxThreads
      && |s.handles| == |t.handles| == c.maxThreads
      && (forall k :: 0 <= k < s.num ==> t.handles[k] == s.handles[k] == k)
      && (t.poolOwner == Free ==> |t.wpc| == t.num)
  {
    ReachableInv(c, s);
    InvAlongRun(c, s, run);
    GrowthRun(c, s, run);
  }

  lemma {:induction false} GrowthRun(c: Config, s: State, run: seq<Step>)
    requires Inv(c, s) && Legal(c, s, run)
    ensures var t := Exec(c, s, run);
      && s.num <= t.num
      && |t.handles| == |s.handles| && (forall k :: 0 <= k < s.num && k < |s.handles| ==> t.handles[k] == s.handles[k])
    decreases |run|
  {
    if run != [] {
      GrowthStep(c, s, run[0]);
      InvStep(c, s, run[0]);
      GrowthRun(c, Next(c, s, run[0]).value, run[1..]);
    }
  }

  /** Where submitter i stands after its growth test at n threads, until it returns (r calls had returned). */
  ghost predicate OneGrowth(s: State, i: nat, n: nat, r: nat) {
    || s.returned > r
    || ( && s.returned == r && i < |s.spc| && s.queueOwner == Submitter(i)
         && (s.spc[i] == SGrow || Growing(s.spc[i]) || s.spc[i] == SUnlockPool || s.spc[i] == SUnlock)
         && n <= s.num <= n + 1
         && (s.spc[i] == SGrow || Growing(s.spc[i]) ==> s.num == n))
  }

  lemma OneGrowthOwn(c: Config, s: State, i: nat, x: Choice, n: nat, r: nat)
    requires SubmitterPointInv(c, s) && OneGrowth(s, i, n, r) && SubmitterNext(c, s, i, x).Some?
    ensures OneGrowth(SubmitterNext(c, s, i, x).value, i, n, r)
  {
  }

  lemma OneGrowthOther(c: Config, s: State, step: Step, i: nat, n: nat, r: nat)
    requires MutexInv(c, s) && OneGrowth(s, i, n, r) && Next(c, s, step).Some?
    requires step.Submit? ==> step.i != i
    ensures OneGrowth(Next(c, s, step).value, i, n, r)
  {
  }

  lemma OneGrowthStep(c: Config, s: State, step: Step, i: nat, n: nat, r: nat)
    requires Inv(c, s) && OneGrowth(s, i, n, r) && Next(c, s, step).Some?
    ensures OneGrowth(Next(c, s, step).value, i, n, r)
  {
    if step.Submit? && step.i == i {
      OneGrowthOwn(c, s, i, step.x, n, r);
    } else {
      OneGrowthOther(c, s, step, i, n, r);
    }
  }

  lemma {:induction false} OneGrowthRun(c: Config, s: State, run: seq<Step>, i: nat, n: nat, r: nat)
    requires Inv(c, s) && OneGrowth(s, i, n, r) && Legal(c, s, run)
    ensures OneGrowth(Exec(c, s, run), i, n, r)
    decreases |run|
  {
    if run != [] {
      OneGrowthStep(c, s, run[0], i, n, r);
      InvStep(c, s, run[0]);
      OneGrowthRun(c, Next(c, s, run[0]).value, run[1..], i, n, r);
    }
  }

  /** A growth check adds at most one worker: until the submit that made it returns, at most one is counted. */
  lemma GrowthCheckAddsAtMostOne(c: Config, s: State, run: seq<Step>, i: nat)
    requires Reachable(c, s) && i < |s.spc| && s.spc[i] == SGrow && Legal(c, s, run)
    ensures var t := Exec(c, s, run);
      t.returned == s.returned ==> s.num <= t.num <= s.num + 1 && |t.wpc| <= |s.wpc| + 1
  {
    ReachableInv(c, s);
    assert SHolds(s.spc[i]);
    OneGrowthRun(c, s, run, i, s.num, s.returned);
    InvAlongRun(c, s, run);
  }

  // ---------------------------------------------------------------------------------------------
  // Runs with fewer submissions than the capacity
  // ---------------------------------------------------------------------------------------------

  lemma QueueHoldsAtMostTheCalls(c: Config, s: State)
    requires Inv(c, s)
    ensures s.ring.count <= |s.called|
  {
    DistinctBound(s.accepted, s.called);
  }

  /** No submitter waits or is inside the growth branch. */
  ghost predicate Calm(s: State) {
    forall i :: 0 <= i < |s.spc| ==>
      s.spc[i] == SOut || s.spc[i] == SLock || s.spc[i] == STest || s.spc[i] == SPut || s.spc[i] == SSignal
      || s.spc[i] == SGrow || s.spc[i] == SUnlock
  }

  lemma CalmStep(c: Config, s: State, step: Step)
    requires Calm(s) && s.ring.count < c.capacity && Next(c, s, step).Some?
    ensures Calm(Next(c, s, step).value) && Next(c, s, step).value.num == s.num
    ensures s.called <= Next(c, s, step).value.called
  {
  }

  lemma {:induction false} CallsGrow(c: Config, s: State, run: seq<Step>)
    requires Legal(c, s, run)
    ensures s.called <= Exec(c, s, run).called
    decreases |run|
  {
    if run != [] {
      CallsGrow(c, Next(c, s, run[0]).value, run[1..]);
    }
  }

  lemma {:induction false} CalmRun(c: Config, s: State, run: seq<Step>)
    requires Inv(c, s) && Calm(s) && Legal(c, s, run) && |Exec(c, s, run).called| < c.capacity
    ensures Calm(Exec(c, s, run)) && Exec(c, s, run).num == s.num
    decreases |run|
  {
    if run != [] {
      CallsGrow(c, s, run);
      CardinalityOrder(s.called, Exec(c, s, run).called);
      QueueHoldsAtMostTheCalls(c, s);
      CalmStep(c, s, run[0]);
      InvStep(c, s, run[0]);
      CalmRun(c, Next(c, s, run[0]).value, run[1..]);
    }
  }

  /**
   Below capacity: in a run with fewer submit calls than the capacity no submitter ever waits, the
   growth branch is never entered, and the number of threads stays what init made it.
   */
  lemma BelowCapacity(c: Config, s: State, run: seq<Step>)
    requires IsInit(c, s) && Legal(c, s, run) && |Exec(c, s, run).called| < c.capacity
    ensures var t := Exec(c, s, run);
      && t.num == s.num
      && (forall i :: 0 <= i < |t.spc| ==>
            t.spc[i] != SWait && t.spc[i] != SWoken && !Growing(t.spc[i]) && t.spc[i] != SUnlockPool)
  {
    InitInv(c, s);
    CalmRun(c, s, run);
  }
}
