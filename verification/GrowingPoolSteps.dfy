/**
 Which steps the pool of pthreads/pthreads6.c can take in a reachable state, and who falls asleep and
 who is woken in each of them, in both variants.
 */
module GrowingPoolSteps {
  import opened Threads
  import opened GrowingPool
  import opened GrowingPoolSafety

  // ---------------------------------------------------------------------------------------------
  // Who can go on
  // ---------------------------------------------------------------------------------------------

  /** Some thread is between its lock and its unlock of `queue_mutex`. */
  ghost predicate Occupied(s: State) {
    || (exists i :: 0 <= i < |s.spc| && SHolds(s.spc[i]))
    || (exists j :: 0 <= j < |s.wpc| && WHolds(s.wpc[j]))
    || DHolds(s.dpc)
  }

  lemma OccupiedIff(c: Config, s: State)
    requires Inv(c, s)
    ensures Occupied(s) <==> s.queueOwner != Free
  {
    if s.queueOwner.Submitter? {
      assert SHolds(s.spc[s.queueOwner.i]);
    } else if s.queueOwner.Worker? {
      assert WHolds(s.wpc[s.queueOwner.i]);
    }
  }

  /** Some submitter is between a lock and an unlock of `pool_mutex`. */
  ghost predicate PoolOccupied(s: State) {
    exists i :: 0 <= i < |s.spc| && HoldsPool(s.spc[i])
  }

  lemma PoolOccupiedIff(c: Config, s: State)
    requires Inv(c, s)
    ensures PoolOccupied(s) <==> s.poolOwner != Free
  {
    if s.poolOwner != Free {
      assert HoldsPool(s.spc[s.poolOwner.i]);
    }
  }

  /**
   A thread of the pool waits for nothing but these: the end of every other critical section if it wants
   `queue_mutex`, of every one of `pool_mutex`, its own included, if it wants that, a wakeup if it is
   asleep, and for ever if it joins a worker. A program can make any new call with an idle submitter, and
   any sleep can end.
   */
  ghost predicate CanHappen(c: Config, s: State, step: Step) {
    match step
    case Submit(i, x) =>
      && i < |s.spc| && !Freed(s)
      && !s.spc[i].SOut? && !s.spc[i].SWait?
      && (s.spc[i].SLock? || s.spc[i].SWoken? ==> !Occupied(s))
      && (s.spc[i].SSignal? ==> LegalSignal(s.wpc, WWait, x.wake))
      && (s.spc[i].SLockPool? || s.spc[i].SRelock? ==> !PoolOccupied(s))
    case Work(j, x) =>
      && j < |s.wpc| && (Freed(s) ==> InTask(s.wpc[j]))
      && !s.wpc[j].WWait?
      && (s.wpc[j].WLock? || s.wpc[j].WWoken? ==> !Occupied(s))
      && (s.wpc[j].WSignal? ==> LegalSignal(s.spc, SWait, x.wake))
    case Destroy =>
      && !s.dpc.DOut? && !s.dpc.DDone?
      && (s.dpc.DLock? ==> !Occupied(s))
      && (s.dpc.DJoin? ==> s.num == 0)
    case CallSubmit(i, task) => i < |s.spc| && !Freed(s) && s.spc[i] == SOut && task !in s.called
    case CallDestroy => s.dpc == DOut
    case SpuriousSubmitter(i) => i < |s.spc| && !Freed(s) && s.spc[i] == SWait
    case SpuriousWorker(j) => j < |s.wpc| && !Freed(s) && s.wpc[j] == WWait
  }

  lemma SubmitIff(c: Config, s: State, i: nat, x: Choice)
    requires Inv(c, s) && (Occupied(s) <==> s.queueOwner != Free) && (PoolOccupied(s) <==> s.poolOwner != Free)
    ensures SubmitterNext(c, s, i, x).Some? <==> CanHappen(c, s, Submit(i, x))
  {
  }

  lemma WorkIff(c: Config, s: State, j: nat, x: Choice)
    requires Inv(c, s) && (Occupied(s) <==> s.queueOwner != Free)
    ensures WorkerNext(c, s, j, x).Some? <==> CanHappen(c, s, Work(j, x))
  {
  }

  /** In every reachable state exactly these steps are possible; no line accesses an array out of bounds. */
  lemma StepIff(c: Config, s: State, step: Step)
    requires Reachable(c, s)
    ensures |s.spc| == c.submitters && s.num <= |s.wpc| <= c.maxThreads
    ensures Next(c, s, step).Some? <==> CanHappen(c, s, step)
  {
    ReachableInv(c, s);
    OccupiedIff(c, s);
    PoolOccupiedIff(c, s);
    if step.Submit? {
      SubmitIff(c, s, step.i, step.x);
    } else if step.Work? {
      WorkIff(c, s, step.i, step.x);
    }
  }

  // ---------------------------------------------------------------------------------------------
  // Who sleeps
  // ---------------------------------------------------------------------------------------------

  /** The workers that a step takes out of the wait set of queue_not_empty. */
  function WokenWorkers(s: State, step: Step): set<nat> {
    match step
    case Submit(i, x) => if i < |s.spc| && s.spc[i] == SSignal then x.wake else {}
    case Destroy => if s.dpc == DWake then Waiters(s.wpc, WWait) else {}
    case SpuriousWorker(j) => {j}
    case _ => {}
  }

  /** The submitters that a step takes out of the wait set of queue_not_full. */
  function WokenSubmitters(s: State, step: Step): set<nat> {
    match step
    case Work(j, x) => if j < |s.wpc| && s.wpc[j] == WSignal then x.wake else {}
    case SpuriousSubmitter(i) => {i}
    case _ => {}
  }

  /** A worker falls asleep when it finds that every accepted task has been removed. */
  predicate WorkerSleeps(s: State, step: Step, j: nat) {
    step.Work? && step.i == j && j < |s.wpc| && s.wpc[j] == WTest && s.accepted == s.taken
  }

  /** A submitter falls asleep when it finds `capacity` tasks accepted and not removed. */
  predicate SubmitterSleeps(c: Config, s: State, step: Step, i: nat) {
    && step.Submit? && step.i == i && i < |s.spc| && s.spc[i] == STest
    && |s.accepted| == |s.taken| + c.capacity
  }

  ghost predicate WorkersChange(s: State, step: Step, t: State) {
    && |s.wpc| <= |t.wpc|
    && (forall j :: |s.wpc| <= j < |t.wpc| ==> t.wpc[j] == WLock)
    && (forall j: nat :: j < |s.wpc| ==>
          && (t.wpc[j] == WWait <==> (s.wpc[j] == WWait && j !in WokenWorkers(s, step)) || WorkerSleeps(s, step, j))
          && (j in WokenWorkers(s, step) ==> s.wpc[j] == WWait && t.wpc[j] == WWoken)
          && (j !in WokenWorkers(s, step) && !(step.Work? && step.i == j) ==> t.wpc[j] == s.wpc[j]))
  }

  ghost predicate SubmittersChange(c: Config, s: State, step: Step, t: State) {
    && |t.spc| == |s.spc|
    && (forall i: nat :: i < |s.spc| ==>
          && (t.spc[i] == SWait <==>
                (s.spc[i] == SWait && i !in WokenSubmitters(s, step)) || SubmitterSleeps(c, s, step, i))
          && (i in WokenSubmitters(s, step) ==> s.spc[i] == SWait && t.spc[i] == SWoken)
          && (i !in WokenSubmitters(s, step) && !((step.Submit? || step.CallSubmit?) && step.i == i) ==>
                t.spc[i] == s.spc[i]))
  }

  lemma QueueEmptyIff(c: Config, s: State)
    requires QueueInv(c, s)
    ensures s.ring.count == 0 <==> s.accepted == s.taken
    ensures s.ring.count == |s.accepted| - |s.taken|
  {
    if s.accepted == s.taken { assert |s.accepted| == |s.taken| + |s.ring.Contents()|; }
  }

  lemma WorkersChangeSubmit(c: Config, s: State, i: nat, x: Choice)
    requires SubmitterNext(c, s, i, x).Some?
    ensures WorkersChange(s, Submit(i, x), SubmitterNext(c, s, i, x).value)
  {
  }

  lemma WorkersChangeWork(c: Config, s: State, j: nat, x: Choice)
    requires WorkerNext(c, s, j, x).Some? && (s.ring.count == 0 <==> s.accepted == s.taken)
    ensures WorkersChange(s, Work(j, x), WorkerNext(c, s, j, x).value)
  {
  }

  lemma SubmittersChangeSubmit(c: Config, s: State, i: nat, x: Choice)
    requires SubmitterNext(c, s, i, x).Some? && s.ring.count == |s.accepted| - |s.taken|
    ensures SubmittersChange(c, s, Submit(i, x), SubmitterNext(c, s, i, x).value)
  {
  }

  lemma SubmittersChangeWork(c: Config, s: State, j: nat, x: Choice)
    requires WorkerNext(c, s, j, x).Some?
    ensures SubmittersChange(c, s, Work(j, x), WorkerNext(c, s, j, x).value)
  {
  }

  lemma RestChange(c: Config, s: State, step: Step)
    requires Next(c, s, step).Some? && !step.Submit? && !step.Work?
    ensures WorkersChange(s, step, Next(c, s, step).value)
    ensures SubmittersChange(c, s, step, Next(c, s, step).value)
  {
  }

  /** The two wait sets, step by step: who falls asleep, who is woken, and that nobody else is touched. */
  lemma WaitSets(c: Config, s: State, step: Step)
    requires Reachable(c, s) && Next(c, s, step).Some?
    ensures WorkersChange(s, step, Next(c, s, step).value)
    ensures SubmittersChange(c, s, step, Next(c, s, step).value)
  {
    ReachableInv(c, s);
    QueueEmptyIff(c, s);
    if step.Submit? {
      WorkersChangeSubmit(c, s, step.i, step.x);
      SubmittersChangeSubmit(c, s, step.i, step.x);
    } else if step.Work? {
      WorkersChangeWork(c, s, step.i, step.x);
      SubmittersChangeWork(c, s, step.i, step.x);
    } else {
      RestChange(c, s, step);
    }
  }

  /**
   The signal of line 97 is a signal: any non-empty set of the sleeping workers, one of them for instance,
   can be the one that it takes out of the wait set, and then every other worker stays where it is.
   */
  lemma SignalWakesAnyWorkers(c: Config, s: State, i: nat, x: Choice)
    requires Reachable(c, s) && !Freed(s) && i < |s.spc| && s.spc[i] == SSignal
    requires x.wake != {} && x.wake <= Waiters(s.wpc, WWait)
    ensures var step := Submit(i, x);
      && Next(c, s, step).Some?
      && var t := Next(c, s, step).value;
         && |t.wpc| == |s.wpc|
         && (forall j: nat :: j < |s.wpc| ==> t.wpc[j] == if j in x.wake then WWoken else s.wpc[j])
         && Waiters(t.wpc, WWait) == Waiters(s.wpc, WWait) - x.wake
  {
    ReachableInv(c, s);
    StepIff(c, s, Submit(i, x));
    WaitSets(c, s, Submit(i, x));
  }

  /** And so is the signal of line 156. */
  lemma SignalWakesAnySubmitters(c: Config, s: State, j: nat, x: Choice)
    requires Reachable(c, s) && !Freed(s) && j < |s.wpc| && s.wpc[j] == WSignal
    requires x.wake != {} && x.wake <= Waiters(s.spc, SWait)
    ensures var step := Work(j, x);
      && Next(c, s, step).Some?
      && var t := Next(c, s, step).value;
         && |t.spc| == |s.spc|
         && (forall i: nat :: i < |s.spc| ==> t.spc[i] == if i in x.wake then SWoken else s.spc[i])
         && Waiters(t.spc, SWait) == Waiters(s.spc, SWait) - x.wake
  {
    ReachableInv(c, s);
    StepIff(c, s, Work(j, x));
    WaitSets(c, s, Work(j, x));
  }

  // ---------------------------------------------------------------------------------------------
  // The broadcast of destroy
  // ---------------------------------------------------------------------------------------------

  /** While destroy owns queue_mutex a worker that was asleep can only become a woken one. */
  lemma AsleepOrWoken(c: Config, s: State, step: Step, j: nat)
    requires MutexInv(c, s) && DHolds(s.dpc) && Next(c, s, step).Some? && !(step.Destroy? && s.dpc == DUnlock)
    requires j < |s.wpc| && (s.wpc[j] == WWait || s.wpc[j] == WWoken)
    ensures var t := Next(c, s, step).value;
      DHolds(t.dpc) && j < |t.wpc| && (t.wpc[j] == WWait || t.wpc[j] == WWoken)
  {
  }

  /** A run during which destroy keeps queue_mutex. */
  ghost predicate KeepsMutex(c: Config, s: State, run: seq<Step>)
    requires Legal(c, s, run)
    decreases |run|
  {
    DHolds(s.dpc) && (run == [] || KeepsMutex(c, Next(c, s, run[0]).value, run[1..]))
  }

  lemma {:induction false} AsleepOrWokenRun(c: Config, s: State, run: seq<Step>, j: nat)
    requires Inv(c, s) && Legal(c, s, run) && KeepsMutex(c, s, run)
    requires j < |s.wpc| && (s.wpc[j] == WWait || s.wpc[j] == WWoken)
    ensures var t := Exec(c, s, run);
      DHolds(t.dpc) && j < |t.wpc| && (t.wpc[j] == WWait || t.wpc[j] == WWoken)
    decreases |run|
  {
    if run != [] {
      InvStep(c, s, run[0]);
      AsleepOrWoken(c, s, run[0], j);
      AsleepOrWokenRun(c, Next(c, s, run[0]).value, run[1..], j);
    }
  }

  /**
   The broadcast of line 178. From the moment destroy has got queue_mutex to the moment it is about to
   release it: every worker asleep at the first moment is woken at the second, and none is asleep; the
   release leaves them so.
   */
  lemma BroadcastWakesAll(c: Config, s: State, run: seq<Step>)
    requires Reachable(c, s) && Legal(c, s, run) && KeepsMutex(c, s, run) && Exec(c, s, run).dpc == DUnlock
    ensures var t := Exec(c, s, run);
      && WWait !in t.wpc
      && (forall j :: 0 <= j < |s.wpc| && s.wpc[j] == WWait ==> j < |t.wpc| && t.wpc[j] == WWoken)
      && Next(c, t, Destroy).Some?
      && Next(c, t, Destroy).value.wpc == t.wpc && !Occupied(Next(c, t, Destroy).value)
  {
    ReachableInv(c, s);
    InvAlongRun(c, s, run);
    var t := Exec(c, s, run);
    forall j | 0 <= j < |s.wpc| && s.wpc[j] == WWait
      ensures j < |t.wpc| && t.wpc[j] == WWoken
    {
      AsleepOrWokenRun(c, s, run, j);
    }
    InvStep(c, t, Destroy);
    OccupiedIff(c, Next(c, t, Destroy).value);
  }

  /** In every reachable state in which destroy is about to release queue_mutex nobody sleeps on queue_not_empty. */
  lemma NobodySleepsAtTheRelease(c: Config, s: State)
    requires Reachable(c, s) && s.dpc == DUnlock
    ensures WWait !in s.wpc
  {
    ReachableInv(c, s);
  }
}
