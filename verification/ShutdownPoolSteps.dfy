/**
 Which steps the pool of pthreads/pthreads10.c can take in a reachable state, and who falls asleep and
 who is woken in each of them.
 */
module ShutdownPoolSteps {
  import opened Threads
  import opened ShutdownPool
  import opened ShutdownPoolSafety

  // ---------------------------------------------------------------------------------------------
  // Who can go on
  // ---------------------------------------------------------------------------------------------

  /** Some thread is between its lock and its unlock of `queue_mutex`. */
  ghost predicate Occupied(s: State) {
    || (exists i :: 0 <= i < |s.spc| && SHolds(s.spc[i]))
    || (exists j :: 0 <= j < |s.wpc| && WHolds(s.wpc[j]))
    || DHolds(s.dpc)
  }

  lemma OccupiedIff(c: Config, s: State)
    requires Inv(c, s)
    ensures Occupied(s) <==> s.owner != Free
  {
    if s.owner.Submitter? {
      assert SHolds(s.spc[s.owner.i]);
    } else if s.owner.Worker? {
      assert WHolds(s.wpc[s.owner.i]);
    }
  }

  /**
   A thread of the pool waits for nothing but these: the end of every other critical section if it wants
   the mutex, a wakeup if it is asleep, the exit of the worker it joins, and in WakesAndDrains the end
   of the calls. A program can make any new call with an idle submitter, and any sleep can end.
   */
  ghost predicate CanHappen(c: Config, s: State, step: Step) {
    match step
    case Submit(i, wake) =>
      && i < |s.spc| && !Freed(s)
      && !s.spc[i].SOut? && !s.spc[i].SWait?
      && (s.spc[i].SLock? || s.spc[i].SWoken? ==> !Occupied(s))
      && (s.spc[i].SSignal? ==> LegalSignal(s.wpc, WWait, wake))
    case Work(j, wake) =>
      && j < |s.wpc| && (Freed(s) ==> InTask(s.wpc[j]))
      && !s.wpc[j].WWait? && !s.wpc[j].WExited?
      && (s.wpc[j].WLock? || s.wpc[j].WWoken? ==> !Occupied(s))
      && (s.wpc[j].WSignal? ==> LegalSignal(s.spc, SWait, wake))
    case Destroy =>
      && !s.dpc.DOut? && !s.dpc.DDone?
      && (s.dpc.DLock? ==> !Occupied(s))
      && (s.dpc.DJoin? && s.dpc.k < c.poolSize ==> s.dpc.k < |s.wpc| && s.wpc[s.dpc.k] == WExited)
      && (s.dpc.DFree? && c.variant == WakesAndDrains ==> AllOut(s.spc))
    case CallSubmit(i, task) => i < |s.spc| && !Freed(s) && s.spc[i] == SOut && task !in s.called
    case CallDestroy => s.dpc == DOut
    case SpuriousSubmitter(i) => i < |s.spc| && !Freed(s) && s.spc[i] == SWait
    case SpuriousWorker(j) => j < |s.wpc| && !Freed(s) && s.wpc[j] == WWait
  }

  lemma SubmitIff(c: Config, s: State, i: nat, wake: set<nat>)
    requires Inv(c, s) && (Occupied(s) <==> s.owner != Free)
    ensures SubmitterNext(c, s, i, wake).Some? <==> CanHappen(c, s, Submit(i, wake))
  {
  }

  lemma WorkIff(c: Config, s: State, j: nat, wake: set<nat>)
    requires Inv(c, s) && (Occupied(s) <==> s.owner != Free)
    ensures WorkerNext(c, s, j, wake).Some? <==> CanHappen(c, s, Work(j, wake))
  {
  }

  /** In every reachable state exactly these steps are possible; no line accesses the array out of bounds. */
  lemma StepIff(c: Config, s: State, step: Step)
    requires Reachable(c, s)
    ensures |s.spc| == c.submitters && |s.wpc| == c.workers
    ensures Next(c, s, step).Some? <==> CanHappen(c, s, step)
  {
    ReachableInv(c, s);
    OccupiedIff(c, s);
    if step.Submit? {
      SubmitIff(c, s, step.i, step.wake);
    } else if step.Work? {
      WorkIff(c, s, step.i, step.wake);
    }
  }

  // ---------------------------------------------------------------------------------------------
  // Who sleeps
  // ---------------------------------------------------------------------------------------------

  /** The workers that a step takes out of the wait set of queue_not_empty. */
  function WokenWorkers(s: State, step: Step): set<nat> {
    match step
    case Submit(i, wake) => if i < |s.spc| && s.spc[i] == SSignal then wake else {}
    case Destroy => if s.dpc == DWakeWorkers then Waiters(s.wpc, WWait) else {}
    case SpuriousWorker(j) => {j}
    case _ => {}
  }

  /** The submitters that a step takes out of the wait set of queue_not_full. */
  function WokenSubmitters(s: State, step: Step): set<nat> {
    match step
    case Work(j, wake) => if j < |s.wpc| && s.wpc[j] == WSignal then wake else {}
    case Destroy => if s.dpc == DWakeSubmitters then Waiters(s.spc, SWait) else {}
    case SpuriousSubmitter(i) => {i}
    case _ => {}
  }

  /** A worker falls asleep when it finds that every accepted task has been removed, and the flag not set. */
  predicate WorkerSleeps(s: State, step: Step, j: nat) {
    step.Work? && step.i == j && j < |s.wpc| && s.wpc[j] == WTest && s.accepted == s.taken && !s.shutdown
  }

  /** A submitter falls asleep when it finds `capacity` tasks accepted and not removed, and the flag not set. */
  predicate SubmitterSleeps(c: Config, s: State, step: Step, i: nat) {
    && step.Submit? && step.i == i && i < |s.spc| && s.spc[i] == STest
    && |s.accepted| == |s.taken| + c.capacity && !s.shutdown
  }

  ghost predicate WorkersChange(s: State, step: Step, t: State) {
    && |t.wpc| == |s.wpc|
    && (forall j: nat :: j < |s.wpc| ==>
          && (t.wpc[j] == WWait <==> (s.wpc[j] == WWait && j !in WokenWorkers(s, step)) || WorkerSleeps(s, step, j))
          && (j in WokenWorkers(s, step) ==> s.wpc[j] == WWait && t.wpc[j] == WWoken)
          && (j !in WokenWorkers(s, step) && !(step.Work? && step.i == j) ==> t.wpc[j] == s.wpc[j]))
  }

  ghost predicate SubmittersChange(c: Config, s: State, step: Step, t: State) {
    && |t.spc| == |s.spc|
    && (forall i: nat :: i < |s.spc| ==>
          && (t.spc[i] == SWait <==>
                (s.spc[i] == SWait && i !in WokenSubmitters(s, step)) || SubmitterSleeps(c, s, step, i))
          && (i in WokenSubmitters(s, step) ==> s.spc[i] == SWait && t.spc[i] == SWoken)
          && (i !in WokenSubmitters(s, step) && !((step.Submit? || step.CallSubmit?) && step.i == i) ==>
                t.spc[i] == s.spc[i]))
  }

  lemma QueueEmptyIff(c: Config, s: State)
    requires QueueInv(c, s)
    ensures s.ring.count == 0 <==> s.accepted == s.taken
    ensures s.ring.count == |s.accepted| - |s.taken|
  {
    if s.accepted == s.taken { assert |s.accepted| == |s.taken| + |s.ring.Contents()|; }
  }

  lemma WorkersChangeSubmit(c: Config, s: State, i: nat, wake: set<nat>)
    requires SubmitterNext(c, s, i, wake).Some?
    ensures WorkersChange(s, Submit(i, wake), SubmitterNext(c, s, i, wake).value)
  {
  }

  lemma WorkersChangeWork(c: Config, s: State, j: nat, wake: set<nat>)
    requires WorkerNext(c, s, j, wake).Some? && (s.ring.count == 0 <==> s.accepted == s.taken)
    ensures WorkersChange(s, Work(j, wake), WorkerNext(c, s, j, wake).value)
  {
  }

  lemma SubmittersChangeSubmit(c: Config, s: State, i: nat, wake: set<nat>)
    requires SubmitterNext(c, s, i, wake).Some? && s.ring.count == |s.accepted| - |s.taken|
    ensures SubmittersChange(c, s, Submit(i, wake), SubmitterNext(c, s, i, wake).value)
  {
  }

  lemma SubmittersChangeWork(c: Config, s: State, j: nat, wake: set<nat>)
    requires WorkerNext(c, s, j, wake).Some?
    ensures SubmittersChange(c, s, Work(j, wake), WorkerNext(c, s, j, wake).value)
  {
  }

  lemma RestChange(c: Config, s: State, step: Step)
    requires Next(c, s, step).Some? && !step.Submit? && !step.Work?
    ensures WorkersChange(s, step, Next(c, s, step).value)
    ensures SubmittersChange(c, s, step, Next(c, s, step).value)
  {
  }

  /** The two wait sets, step by step: who falls asleep, who is woken, and that nobody else is touched. */
  lemma WaitSets(c: Config, s: State, step: Step)
    requires Reachable(c, s) && Next(c, s, step).Some?
    ensures WorkersChange(s, step, Next(c, s, step).value)
    ensures SubmittersChange(c, s, step, Next(c, s, step).value)
  {
    ReachableInv(c, s);
    QueueEmptyIff(c, s);
    if step.Submit? {
      WorkersChangeSubmit(c, s, step.i, step.wake);
      SubmittersChangeSubmit(c, s, step.i, step.wake);
    } else if step.Work? {
      WorkersChangeWork(c, s, step.i, step.wake);
      SubmittersChangeWork(c, s, step.i, step.wake);
    } else {
      RestChange(c, s, step);
    }
  }

  /**
   The signal of line 79 is a signal: any non-empty set of the sleeping workers, one of them for instance,
   can be the one that it takes out of the wait set, and then every other worker stays where it is.
   */
  lemma SignalWakesAnyWorkers(c: Config, s: State, i: nat, wake: set<nat>)
    requires Reachable(c, s) && i < |s.spc| && s.spc[i] == SSignal
    requires wake != {} && wake <= Waiters(s.wpc, WWait)
    ensures var step := Submit(i, wake);
      && Next(c, s, step).Some?
      && var t := Next(c, s, step).value;
         && |t.wpc| == |s.wpc|
         && (forall j: nat :: j < |s.wpc| ==> t.wpc[j] == if j in wake then WWoken else s.wpc[j])
         && Waiters(t.wpc, WWait) == Waiters(s.wpc, WWait) - wake
  {
    ReachableInv(c, s);
    StepIff(c, s, Submit(i, wake));
    WaitSets(c, s, Submit(i, wake));
  }

  /** And so is the signal of line 97. */
  lemma SignalWakesAnySubmitters(c: Config, s: State, j: nat, wake: set<nat>)
    requires Reachable(c, s) && j < |s.wpc| && s.wpc[j] == WSignal
    requires wake != {} && wake <= Waiters(s.spc, SWait)
    ensures var step := Work(j, wake);
      && Next(c, s, step).Some?
      && var t := Next(c, s, step).value;
         && |t.spc| == |s.spc|
         && (forall i: nat :: i < |s.spc| ==> t.spc[i] == if i in wake then SWoken else s.spc[i])
         && Waiters(t.spc, SWait) == Waiters(s.spc, SWait) - wake
  {
    ReachableInv(c, s);
    StepIff(c, s, Work(j, wake));
    WaitSets(c, s, Work(j, wake));
  }
}
