/**
 Where runs of the thread pool of pthreads/pthreads10.c lead: every step of a thread of the pool
 lowers one potential, so runs with finitely many calls end, and the states in which they end are
 characterised, before shutdown and after.
 */
module ShutdownPoolLiveness {
  import opened Threads
  import opened Runs
  import opened Tasks
  import opened ShutdownPool
  import opened ShutdownPoolSafety

  // ---------------------------------------------------------------------------------------------
  // A potential that every step of a thread lowers
  // ---------------------------------------------------------------------------------------------

  /** What one queued task is worth: a worker's round, with the signal that may wake every submitter. */
  function ItemCost(c: Config): nat {
    8 + 2 * c.submitters
  }

  function SubmitRank(c: Config, pc: SubmitPc): nat {
    match pc
    case SOut => 0
    case SLeave => 1
    case SUnlock => 1
    case SSignal => 2 + 2 * c.workers
    case SPut => 3 + 2 * c.workers + ItemCost(c)
    case SCheck | SWait => 4 + 2 * c.workers + ItemCost(c)
    case STest => 5 + 2 * c.workers + ItemCost(c)
    case SLock | SWoken => 6 + 2 * c.workers + ItemCost(c)
  }

  function WorkRank(c: Config, pc: WorkPc): nat {
    match pc
    case WExited => 0
    case WLeave => 1
    case WTake => 1
    case WCheck | WWait => 2
    case WTest => 3
    case WLock | WWoken => 4
    case WBusy => 5
    case WRun => 6
    case WUnlock => 7
    case WSignal => 8 + 2 * c.submitters
  }

  function DestroyRank(c: Config, pc: DestroyPc): nat {
    match pc
    case DOut | DDone => 0
    case DFree => 1
    case DJoin(k) => if k <= c.poolSize then 2 + c.poolSize - k else 0
    case DUnlock => 3 + c.poolSize
    case DWakeSubmitters => 4 + c.poolSize + 2 * c.submitters
    case DWakeWorkers => 5 + c.poolSize + 2 * c.submitters + 2 * c.workers
    case DFlag => 6 + c.poolSize + 2 * c.submitters + 2 * c.workers
    case DLock => 7 + c.poolSize + 2 * c.submitters + 2 * c.workers
  }

  function SubmitRanks(c: Config): SubmitPc -> nat {
    pc => SubmitRank(c, pc)
  }

  function WorkRanks(c: Config): WorkPc -> nat {
    pc => WorkRank(c, pc)
  }

  function Potential(c: Config, s: State): int {
    Sum(s.spc, SubmitRanks(c)) + Sum(s.wpc, WorkRanks(c)) + ItemCost(c) * s.ring.count + DestroyRank(c, s.dpc)
  }

  /** What a call or a spurious wakeup may add to the potential. */
  function Supply(c: Config, step: Step): nat {
    match step
    case CallSubmit(_, _) => 14 + 2 * c.workers + 2 * c.submitters
    case CallDestroy => 7 + c.poolSize + 2 * c.submitters + 2 * c.workers
    case SpuriousSubmitter(_) | SpuriousWorker(_) => 2
    case _ => 0
  }

  lemma PotentialIsNatural(c: Config, s: State)
    requires QueueInv(c, s)
    ensures Potential(c, s) >= 0
  {
    assert ItemCost(c) * s.ring.count >= 0;
  }

  lemma OneMoreItem(cost: int, count: int)
    ensures cost * (count + 1) == cost * count + cost
  {
  }

  lemma PutDescends(c: Config, s: State, i: nat, wake: set<nat>)
    requires i < |s.spc| && s.spc[i] == SPut && SubmitterNext(c, s, i, wake).Some?
    ensures Potential(c, SubmitterNext(c, s, i, wake).value) < Potential(c, s)
  {
    var t := SubmitterNext(c, s, i, wake).value;
    assert t.spc == s.spc[i := SSignal] && t.wpc == s.wpc && t.dpc == s.dpc && t.ring.count == s.ring.count + 1;
    SumUpdate(s.spc, SubmitRanks(c), i, SSignal);
    OneMoreItem(ItemCost(c), s.ring.count);
  }

  lemma SubmitterSignalDescends(c: Config, s: State, i: nat, wake: set<nat>)
    requires MutexInv(c, s) && i < |s.spc| && s.spc[i] == SSignal && SubmitterNext(c, s, i, wake).Some?
    ensures Potential(c, SubmitterNext(c, s, i, wake).value) < Potential(c, s)
  {
    SumUpdate(s.spc, SubmitRanks(c), i, SUnlock);
    SumWake(s.wpc, WorkRanks(c), wake, WWoken, 2);
  }

  lemma SubmitterMoveDescends(c: Config, s: State, i: nat, wake: set<nat>)
    requires i < |s.spc| && s.spc[i] != SPut && s.spc[i] != SSignal && SubmitterNext(c, s, i, wake).Some?
    ensures Potential(c, SubmitterNext(c, s, i, wake).value) < Potential(c, s)
  {
    SumUpdate(s.spc, SubmitRanks(c), i, SubmitterNext(c, s, i, wake).value.spc[i]);
  }

  lemma SubmitterDescends(c: Config, s: State, i: nat, wake: set<nat>)
    requires Inv(c, s) && SubmitterNext(c, s, i, wake).Some?
    ensures Potential(c, SubmitterNext(c, s, i, wake).value) < Potential(c, s)
  {
    if s.spc[i] == SPut {
      PutDescends(c, s, i, wake);
    } else if s.spc[i] == SSignal {
      SubmitterSignalDescends(c, s, i, wake);
    } else {
      SubmitterMoveDescends(c, s, i, wake);
    }
  }

  lemma TakeDescends(c: Config, s: State, i: nat, wake: set<nat>)
    requires i < |s.wpc| && s.wpc[i] == WTake && WorkerNext(c, s, i, wake).Some?
    ensures Potential(c, WorkerNext(c, s, i, wake).value) < Potential(c, s)
  {
    var t := WorkerNext(c, s, i, wake).value;
    assert t.wpc == s.wpc[i := WSignal] && t.spc == s.spc && t.dpc == s.dpc && t.ring.count == s.ring.count - 1;
    SumUpdate(s.wpc, WorkRanks(c), i, WSignal);
    OneMoreItem(ItemCost(c), s.ring.count - 1);
  }

  lemma WorkerSignalDescends(c: Config, s: State, i: nat, wake: set<nat>)
    requires MutexInv(c, s) && i < |s.wpc| && s.wpc[i] == WSignal && WorkerNext(c, s, i, wake).Some?
    ensures Potential(c, WorkerNext(c, s, i, wake).value) < Potential(c, s)
  {
    SumUpdate(s.wpc, WorkRanks(c), i, WUnlock);
    SumWake(s.spc, SubmitRanks(c), wake, SWoken, 2);
  }

  lemma WorkerMoveDescends(c: Config, s: State, i: nat, wake: set<nat>)
    requires i < |s.wpc| && s.wpc[i] != WTake && s.wpc[i] != WSignal && WorkerNext(c, s, i, wake).Some?
    ensures Potential(c, WorkerNext(c, s, i, wake).value) < Potential(c, s)
  {
    SumUpdate(s.wpc, WorkRanks(c), i, WorkerNext(c, s, i, wake).value.wpc[i]);
  }

  lemma WorkerDescends(c: Config, s: State, i: nat, wake: set<nat>)
    requires Inv(c, s) && WorkerNext(c, s, i, wake).Some?
    ensures Potential(c, WorkerNext(c, s, i, wake).value) < Potential(c, s)
  {
    if s.wpc[i] == WTake {
      TakeDescends(c, s, i, wake);
    } else if s.wpc[i] == WSignal {
      WorkerSignalDescends(c, s, i, wake);
    } else {
      WorkerMoveDescends(c, s, i, wake);
    }
  }

  lemma DestroyerDescends(c: Config, s: State)
    requires |s.spc| == c.submitters && |s.wpc| == c.workers && DestroyInv(c, s) && DestroyerNext(c, s).Some?
    ensures Potential(c, DestroyerNext(c, s).value) < Potential(c, s)
  {
    if s.dpc == DWakeWorkers {
      SumWake(s.wpc, WorkRanks(c), Waiters(s.wpc, WWait), WWoken, 2);
    } else if s.dpc == DWakeSubmitters {
      SumWake(s.spc, SubmitRanks(c), Waiters(s.spc, SWait), SWoken, 2);
    }
  }

  lemma CallSupplies(c: Config, s: State, step: Step)
    requires Next(c, s, step).Some? && !ThreadStep(step)
    ensures Potential(c, Next(c, s, step).value) <= Potential(c, s) + Supply(c, step)
  {
    var t := Next(c, s, step).value;
    if step.CallSubmit? || step.SpuriousSubmitter? {
      SumUpdate(s.spc, SubmitRanks(c), step.i, t.spc[step.i]);
    } else if step.SpuriousWorker? {
      SumUpdate(s.wpc, WorkRanks(c), step.i, t.wpc[step.i]);
    }
  }

  /**
   Every step of a thread lowers the potential, in every phase, whoever wins the mutex and however
   many threads a signal wakes; only calls and spurious wakeups raise it, by a bounded amount.
   */
  lemma EveryThreadStepDescends(c: Config, s: State, step: Step)
    requires Inv(c, s) && Next(c, s, step).Some?
    ensures ThreadStep(step) ==> Potential(c, Next(c, s, step).value) < Potential(c, s)
    ensures Potential(c, Next(c, s, step).value) <= Potential(c, s) + Supply(c, step)
  {
    if step.Submit? {
      SubmitterDescends(c, s, step.i, step.wake);
    } else if step.Work? {
      WorkerDescends(c, s, step.i, step.wake);
    } else if step.Destroy? {
      DestroyerDescends(c, s);
    } else {
      CallSupplies(c, s, step);
    }
  }

  /** The number of steps that threads of the pool take in a run. */
  function ThreadSteps(run: seq<Step>): nat {
    StepsOf(ThreadStep, run)
  }

  /** What the calls and spurious wakeups of a run add to the potential. */
  function TotalSupply(c: Config, run: seq<Step>): nat {
    Supplied(SupplyOf(c), run)
  }

  function SupplyOf(c: Config): Step -> nat {
    step => Supply(c, step)
  }

  function PotentialOf(c: Config): State -> int {
    s => Potential(c, s)
  }

  ghost function InvOf(c: Config): State -> bool {
    s => Inv(c, s)
  }

  lemma PotentialPays(c: Config)
    ensures Pays(Machine(c), InvOf(c), PotentialOf(c), ThreadStep, SupplyOf(c))
  {
    forall s | Inv(c, s) ensures Potential(c, s) >= 0 { PotentialIsNatural(c, s); }
    forall s, step | Inv(c, s) && Next(c, s, step).Some?
      ensures var t := Next(c, s, step).value;
        Inv(c, t) && Potential(c, t) + (if ThreadStep(step) then 1 else 0) <= Potential(c, s) + Supply(c, step)
    {
      InvStep(c, s, step);
      EveryThreadStepDescends(c, s, step);
    }
  }

  /** From any state, the steps of the threads are bounded by the potential and what calls add to it. */
  lemma RunIsBounded(c: Config, s: State, run: seq<Step>)
    requires Inv(c, s) && Legal(c, s, run)
    ensures ThreadSteps(run) + Potential(c, Exec(c, s, run)) <= Potential(c, s) + TotalSupply(c, run)
    ensures Potential(c, Exec(c, s, run)) >= 0
  {
    PotentialPays(c);
    StepsAreBounded(Machine(c), InvOf(c), PotentialOf(c), ThreadStep, SupplyOf(c), s, run);
  }

  /** A run from the initial state has no more thread steps than its calls and spurious wakeups pay for. */
  lemma EveryRunEnds(c: Config, s: State, run: seq<Step>)
    requires IsInit(c, s) && Legal(c, s, run)
    ensures ThreadSteps(run) <= 4 * c.workers + TotalSupply(c, run)
  {
    InitInv(c, s);
    RunIsBounded(c, s, run);
    InitialPotential(c, s);
  }

  lemma InitialPotential(c: Config, s: State)
    requires IsInit(c, s)
    ensures Potential(c, s) == 4 * c.workers
  {
    SumConstant(s.spc, SubmitRanks(c), SOut);
    SumConstant(s.wpc, WorkRanks(c), WLock);
    assert ItemCost(c) * s.ring.count == 0;
  }

  // ---------------------------------------------------------------------------------------------
  // The states in which no thread can step
  // ---------------------------------------------------------------------------------------------

  predicate SubmitOrWork(step: Step) {
    step.Submit? || step.Work?
  }

  /** No submitter and no worker can step. */
  ghost predicate Resting(c: Config, s: State) {
    forall step :: SubmitOrWork(step) ==> Next(c, s, step).None?
  }

  lemma BlockedSubmitter(c: Config, s: State, i: nat)
    requires Inv(c, s) && Resting(c, s) && !Freed(s) && i < |s.spc|
    ensures s.spc[i] == SOut || s.spc[i] == SWait || ((s.spc[i] == SLock || s.spc[i] == SWoken) && s.owner != Free)
  {
    var wake := SignalCanRun(s.wpc, WWait);
    var step := Submit(i, wake);
    assert SubmitOrWork(step) && Next(c, s, step).None?;
  }

  lemma BlockedWorker(c: Config, s: State, i: nat)
    requires Inv(c, s) && Resting(c, s) && !Freed(s) && i < |s.wpc|
    ensures s.wpc[i] == WWait || s.wpc[i] == WExited || ((s.wpc[i] == WLock || s.wpc[i] == WWoken) && s.owner != Free)
  {
    var wake := SignalCanRun(s.spc, SWait);
    var step := Work(i, wake);
    assert SubmitOrWork(step) && Next(c, s, step).None?;
  }

  /** Where the submitters and workers are when none of them can step and destroy does not hold the mutex. */
  lemma WhenResting(c: Config, s: State)
    requires Inv(c, s) && Resting(c, s) && !Freed(s) && s.owner != Destroyer
    ensures s.owner == Free
    ensures forall i :: 0 <= i < |s.spc| ==> s.spc[i] == SOut || s.spc[i] == SWait
    ensures forall i :: 0 <= i < |s.wpc| ==> s.wpc[i] == WWait || s.wpc[i] == WExited
  {
    if s.owner.Submitter? {
      BlockedSubmitter(c, s, s.owner.i);
    } else if s.owner.Worker? {
      BlockedWorker(c, s, s.owner.i);
    }
    forall i: nat | i < |s.spc| ensures s.spc[i] == SOut || s.spc[i] == SWait { BlockedSubmitter(c, s, i); }
    forall i: nat | i < |s.wpc| ensures s.wpc[i] == WWait || s.wpc[i] == WExited { BlockedWorker(c, s, i); }
  }

  lemma StuckIsResting(c: Config, s: State)
    requires Stuck(c, s)
    ensures Resting(c, s) && DestroyerNext(c, s).None?
  {
    forall step | SubmitOrWork(step) ensures Next(c, s, step).None? { assert ThreadStep(step); }
    assert ThreadStep(Destroy) && Next(c, s, Destroy).None?;
  }

  /** Where every thread is when none can step and the pool has not been freed. */
  lemma WhenStuck(c: Config, s: State)
    requires Inv(c, s) && Stuck(c, s) && !Freed(s)
    ensures s.owner == Free
    ensures forall i :: 0 <= i < |s.spc| ==> s.spc[i] == SOut || s.spc[i] == SWait
    ensures forall i :: 0 <= i < |s.wpc| ==> s.wpc[i] == WWait || s.wpc[i] == WExited
    ensures s.dpc == DOut || (s.dpc.DJoin? && s.dpc.k < c.poolSize)
    ensures s.dpc.DJoin? && s.dpc.k < |s.wpc| ==> s.wpc[s.dpc.k] != WExited
  {
    StuckIsResting(c, s);
    WhenResting(c, s);
  }

  /**
   Deadlock freedom before shutdown: if no thread can step and destroy has not been called, every
   worker sleeps on an empty queue, no submitter is blocked, and every task ever passed to submit
   has been started, exactly once.
   */
  lemma StuckBeforeShutdown(c: Config, s: State)
    requires Reachable(c, s) && Stuck(c, s) && s.dpc == DOut
    requires c.workers >= 1 && c.capacity >= 1
    ensures s.ring.count == 0
    ensures forall i :: 0 <= i < |s.spc| ==> s.spc[i] == SOut
    ensures forall i :: 0 <= i < |s.wpc| ==> s.wpc[i] == WWait
    ensures multiset(s.started) == multiset(s.called)
  {
    ReachableInv(c, s);
    WhenStuck(c, s);
    assert Count(s.wpc, WWoken) == 0 && s.wpc[0] == WWait;
    assert Count(s.spc, SWoken) == 0;
    forall x
      ensures multiset(s.started)[x] == multiset(s.called)[x]
    {
      ExactlyOnce(c, s, x);
      HeldNothing(s.wpc, s.local, Holding, x);
    }
  }

  /**
   Shutdown terminates: once destroy has been called and no thread can step, every worker has
   exited; destroy has returned from every join exactly when init started as many threads as it
   joins; and the accepted tasks are the started ones and the ones still in the queue.
   */
  lemma StuckAfterDestroy(c: Config, s: State)
    requires Reachable(c, s) && Stuck(c, s) && s.dpc != DOut
    requires c.workers <= c.poolSize
    ensures s.shutdown
    ensures forall i :: 0 <= i < |s.wpc| ==> s.wpc[i] == WExited
    ensures s.dpc == DDone <==> c.workers == c.poolSize
    ensures c.workers < c.poolSize ==> s.dpc == DJoin(c.workers)
    ensures s.ring.Valid()
    ensures multiset(s.accepted) == multiset(s.started) + multiset(s.ring.Contents())
  {
    ReachableInv(c, s);
    if !Freed(s) {
      WhenStuck(c, s);
    }
    forall x
      ensures multiset(s.accepted)[x] == (multiset(s.started) + multiset(s.ring.Contents()))[x]
    {
      ExactlyOnce(c, s, x);
      HeldNothing(s.wpc, s.local, Holding, x);
    }
  }

  /** From every reachable state the threads alone reach a state in which none can step, within the potential. */
  lemma RunsToStuck(c: Config, s: State) returns (run: seq<Step>)
    requires Inv(c, s)
    ensures Legal(c, s, run) && Stuck(c, Exec(c, s, run))
    ensures |run| <= Potential(c, s)
    ensures forall k :: 0 <= k < |run| ==> ThreadStep(run[k])
  {
    PotentialPays(c);
    run := RunsDown(Machine(c), InvOf(c), PotentialOf(c), ThreadStep, s);
    forall step | ThreadStep(step) ensures Next(c, Exec(c, s, run), step).None? {
      assert Machine(c)(Exec(c, s, run), step).None?;
    }
  }

  // ---------------------------------------------------------------------------------------------
  // After the shutdown flag is set
  // ---------------------------------------------------------------------------------------------

  /** From the broadcast of destroy on, no worker is in the wait set, in any continuation. */
  lemma NoWorkerSleepsAfterBroadcast(c: Config, s: State, run: seq<Step>)
    requires Reachable(c, s) && WorkersReleased(s.dpc) && Legal(c, s, run)
    ensures WWait !in Exec(c, s, run).wpc && WorkersReleased(Exec(c, s, run).dpc)
  {
    ReachableInv(c, s);
    ReleasedStays(c, s, run);
    InvAlongRun(c, s, run);
  }

  lemma {:induction false} ReleasedStays(c: Config, s: State, run: seq<Step>)
    requires WorkersReleased(s.dpc) && Legal(c, s, run)
    ensures WorkersReleased(Exec(c, s, run).dpc)
    decreases |run|
  {
    if run != [] {
      ReleasedStays(c, Next(c, s, run[0]).value, run[1..]);
    }
  }

  lemma FrozenStep(c: Config, s: State, step: Step)
    requires Inv(c, s) && s.shutdown && Next(c, s, step).Some?
    ensures var t := Next(c, s, step).value;
      t.shutdown && t.ring == s.ring && t.accepted == s.accepted && t.taken == s.taken
  {
  }

  /**
   Frozen queue: once the flag is set, no continuation changes the queue or accepts or removes a
   task; a worker can still start the one task it already holds, and nothing else is started.
   */
  lemma FrozenAfterShutdown(c: Config, s: State, run: seq<Step>)
    requires Reachable(c, s) && s.shutdown && Legal(c, s, run)
    ensures var t := Exec(c, s, run);
      && t.shutdown && t.ring == s.ring && t.accepted == s.accepted && t.taken == s.taken
      && |t.wpc| == |t.local| && |s.wpc| == |s.local|
      && forall x :: multiset(t.started)[x] + Held(t.wpc, t.local, Holding, x)
                  == multiset(s.started)[x] + Held(s.wpc, s.local, Holding, x)
  {
    ReachableInv(c, s);
    FrozenRun(c, s, run);
  }

  lemma {:induction false} FrozenRun(c: Config, s: State, run: seq<Step>)
    requires Inv(c, s) && s.shutdown && Legal(c, s, run)
    ensures var t := Exec(c, s, run);
      && t.shutdown && t.ring == s.ring && t.accepted == s.accepted && t.taken == s.taken
      && |t.wpc| == |t.local|
      && forall x :: multiset(t.started)[x] + Held(t.wpc, t.local, Holding, x)
                  == multiset(s.started)[x] + Held(s.wpc, s.local, Holding, x)
    decreases |run|
  {
    if run != [] {
      FrozenStep(c, s, run[0]);
      InvStep(c, s, run[0]);
      FrozenRun(c, Next(c, s, run[0]).value, run[1..]);
    }
  }

  ghost predicate NoSpurious(run: seq<Step>) {
    forall k :: 0 <= k < |run| ==> !Spurious(run[k])
  }

  lemma StrandedStep(c: Config, s: State, step: Step, i: nat)
    requires SubmitterPointInv(c, s) && WorkerPointInv(c, s) && DestroyInv(c, s)
    requires s.shutdown && c.variant == AsWritten && i < |s.spc|
    requires Next(c, s, step).Some? && !Spurious(step)
    ensures var t := Next(c, s, step).value;
      i < |t.spc| && (t.spc[i] == SWait <==> s.spc[i] == SWait)
  {
  }

  /** As written, who sleeps on queue_not_full when the flag is set sleeps for ever, and nobody else starts to. */
  lemma {:induction false} StrandedForEver(c: Config, s: State, run: seq<Step>, i: nat)
    requires Inv(c, s) && s.shutdown && c.variant == AsWritten && i < |s.spc|
    requires Legal(c, s, run) && NoSpurious(run)
    ensures i < |Exec(c, s, run).spc|
    ensures Exec(c, s, run).spc[i] == SWait <==> s.spc[i] == SWait
    decreases |run|
  {
    if run != [] {
      StrandedStep(c, s, run[0], i);
      InvStep(c, s, run[0]);
      StrandedForEver(c, Next(c, s, run[0]).value, run[1..], i);
    }
  }

  // ---------------------------------------------------------------------------------------------
  // Submitters and the end of the pool
  // ---------------------------------------------------------------------------------------------

  ghost predicate NoCalls(run: seq<Step>) {
    forall k :: 0 <= k < |run| ==> !run[k].CallSubmit?
  }

  lemma {:induction false} OutStaysOut(c: Config, s: State, run: seq<Step>, i: nat)
    requires Legal(c, s, run) && NoCalls(run) && i < |s.spc| && s.spc[i] == SOut
    ensures i < |Exec(c, s, run).spc| && Exec(c, s, run).spc[i] == SOut
    decreases |run|
  {
    if run != [] {
      OutStep(c, s, run[0], i);
      OutStaysOut(c, Next(c, s, run[0]).value, run[1..], i);
    }
  }

  lemma OutStep(c: Config, s: State, step: Step, i: nat)
    requires Next(c, s, step).Some? && !step.CallSubmit? && i < |s.spc| && s.spc[i] == SOut
    ensures i < |Next(c, s, step).value.spc| && Next(c, s, step).value.spc[i] == SOut
  {
    if step.Submit? {
      assert step.i != i;
    } else if step.Work? {
      assert SOut != SWait;
    }
  }

  predicate WorkOrDestroy(step: Step) {
    step.Work? || step.Destroy?
  }

  /** While destroy waits for the workers, a worker or destroy itself can go on although no submitter does. */
  lemma WorkersCanFinish(c: Config, s: State) returns (step: Step)
    requires Inv(c, s) && BroadcastsDone(s.dpc) && !Freed(s) && !s.owner.Submitter?
    requires c.workers == c.poolSize && c.variant != WakesAndDrains
    ensures WorkOrDestroy(step) && Next(c, s, step).Some?
  {
    step := Destroy;
    if s.owner.Worker? {
      step := Work(s.owner.i, {});
    } else if s.owner == Free && s.dpc.DJoin? && s.dpc.k < c.poolSize && s.wpc[s.dpc.k] != WExited {
      step := Work(s.dpc.k, {});
    }
  }

  /** Such a step leaves every submitter where it is. */
  lemma SubmittersUntouched(c: Config, s: State, step: Step)
    requires Inv(c, s) && BroadcastsDone(s.dpc) && !s.owner.Submitter?
    requires WorkOrDestroy(step) && Next(c, s, step).Some?
    ensures var t := Next(c, s, step).value;
      t.spc == s.spc && BroadcastsDone(t.dpc) && !t.owner.Submitter?
  {
  }

  ghost function Finishing(c: Config, spc: seq<SubmitPc>): State -> bool {
    s => Inv(c, s) && BroadcastsDone(s.dpc) && !s.owner.Submitter? && s.spc == spc
  }

  lemma FinishingFalls(c: Config, spc: seq<SubmitPc>)
    ensures Falls(Machine(c), Finishing(c, spc), PotentialOf(c), WorkOrDestroy)
  {
    forall s | Inv(c, s) ensures Potential(c, s) >= 0 { PotentialIsNatural(c, s); }
    forall s, step | Finishing(c, spc)(s) && WorkOrDestroy(step) && Next(c, s, step).Some?
      ensures var t := Next(c, s, step).value; Finishing(c, spc)(t) && Potential(c, t) < Potential(c, s)
    {
      InvStep(c, s, step);
      EveryThreadStepDescends(c, s, step);
      SubmittersUntouched(c, s, step);
    }
  }

  /** The workers and destroy alone can bring the pool to its end, whatever the submitters were doing. */
  lemma RunsToTheEnd(c: Config, s: State) returns (run: seq<Step>)
    requires Inv(c, s) && BroadcastsDone(s.dpc) && !s.owner.Submitter?
    requires c.workers == c.poolSize && c.variant != WakesAndDrains
    ensures Legal(c, s, run) && NoCalls(run) && NoSpurious(run)
    ensures Freed(Exec(c, s, run)) && Exec(c, s, run).spc == s.spc
  {
    FinishingFalls(c, s.spc);
    run := RunsDown(Machine(c), Finishing(c, s.spc), PotentialOf(c), WorkOrDestroy, s);
    forall k | 0 <= k < |run| ensures !run[k].CallSubmit? && !Spurious(run[k]) { assert WorkOrDestroy(run[k]); }
    var t := Exec(c, s, run);
    forall step | WorkOrDestroy(step) ensures Next(c, t, step).None? { assert Machine(c)(t, step).None?; }
    if !Freed(t) {
      var step := WorkersCanFinish(c, t);
    }
  }

  /**
   Lifetime: when destroy is about to release the mutex, and will join exactly the workers that exist,
   some continuation without further calls frees the pool while submitter i is inside its call if and
   only if submitter i is inside a call now.
   */
  lemma FreedDuringCallIff(c: Config, s: State, i: nat)
    requires Reachable(c, s) && s.dpc == DUnlock && c.workers == c.poolSize && c.variant != WakesAndDrains
    requires i < |s.spc|
    ensures (exists run :: Legal(c, s, run) && NoCalls(run) && FreedDuringCall(Exec(c, s, run), i))
       <==> s.spc[i] != SOut
  {
    ReachableInv(c, s);
    if s.spc[i] == SOut {
      forall run | Legal(c, s, run) && NoCalls(run)
        ensures !FreedDuringCall(Exec(c, s, run), i)
      {
        OutStaysOut(c, s, run, i);
      }
    } else {
      var run := RunsToTheEnd(c, s);
      assert FreedDuringCall(Exec(c, s, run), i);
    }
  }

  /** The pool has been freed and submitter i has not returned; it has no step left. */
  predicate FreedDuringCall(s: State, i: nat) {
    Freed(s) && i < |s.spc| && s.spc[i] != SOut
  }

  /** Destroy has released the mutex and not freed the pool, and no submitter and no worker can step. */
  ghost predicate Settled(c: Config, s: State) {
    (s.dpc.DJoin? || s.dpc.DFree?) && Resting(c, s)
  }

  /** A run that can go no further is settled, unless it has freed the pool. */
  lemma StuckIsSettled(c: Config, s: State)
    requires Inv(c, s) && Stuck(c, s) && s.dpc != DOut && !Freed(s)
    ensures Settled(c, s)
  {
    StuckIsResting(c, s);
    WhenStuck(c, s);
  }

  ghost function StandsAt(c: Config, dpc: DestroyPc): State -> bool {
    s => Inv(c, s) && s.dpc == dpc
  }

  lemma DestroyWaits(c: Config, s: State, step: Step)
    requires SubmitOrWork(step) && Next(c, s, step).Some?
    ensures Next(c, s, step).value.dpc == s.dpc
  {
  }

  /** Submitters and workers lower the potential and leave destroy where it is. */
  lemma PotentialFalls(c: Config, dpc: DestroyPc)
    ensures Falls(Machine(c), StandsAt(c, dpc), PotentialOf(c), SubmitOrWork)
  {
    forall s | Inv(c, s) ensures Potential(c, s) >= 0 { PotentialIsNatural(c, s); }
    forall s, step | Inv(c, s) && SubmitOrWork(step) && Next(c, s, step).Some?
      ensures var t := Next(c, s, step).value; Inv(c, t) && t.dpc == s.dpc && Potential(c, t) < Potential(c, s)
    {
      DestroyWaits(c, s, step);
      InvStep(c, s, step);
      EveryThreadStepDescends(c, s, step);
    }
  }

  /** While destroy stands at a join, the submitters and workers come to rest. */
  lemma ComesToRest(c: Config, s: State) returns (run: seq<Step>)
    requires Inv(c, s) && s.dpc.DJoin?
    ensures Legal(c, s, run) && NoCalls(run) && NoSpurious(run) && Settled(c, Exec(c, s, run))
  {
    PotentialFalls(c, s.dpc);
    run := RunsDown(Machine(c), StandsAt(c, s.dpc), PotentialOf(c), SubmitOrWork, s);
    forall k | 0 <= k < |run| ensures !run[k].CallSubmit? && !Spurious(run[k]) { assert SubmitOrWork(run[k]); }
    forall step | SubmitOrWork(step) ensures Next(c, Exec(c, s, run), step).None? {
      assert Machine(c)(Exec(c, s, run), step).None?;
    }
  }

  /** From the flag on, destroy issues its broadcasts and releases the mutex, and then everybody else comes to rest. */
  lemma Settles(c: Config, s: State) returns (run: seq<Step>)
    requires Inv(c, s) && s.dpc == DWakeWorkers
    ensures Legal(c, s, run) && NoCalls(run) && NoSpurious(run) && Settled(c, Exec(c, s, run))
  {
    run := [];
    Then(c, s, run, Destroy);
    run := run + [Destroy];
    Then(c, s, run, Destroy);
    run := run + [Destroy];
    if c.variant != AsWritten {
      Then(c, s, run, Destroy);
      run := run + [Destroy];
    }
    assert Exec(c, s, run).dpc == DJoin(0);
    InvAlongRun(c, s, run);
    var more := ComesToRest(c, Exec(c, s, run));
    ThenRun(c, s, run, more);
    run := run + more;
  }

  /**
   Line 68 is meant to release blocked submitters on shutdown. As written, in every run without spurious
   wakeups, once destroy has released the mutex, has not freed the pool, and neither submitters nor
   workers can step: a submitter is out of its call if and only if it was not in the wait set of
   queue_not_full at the moment the flag was set. One that was there is there after every such run.
   */
  lemma ReturnsIffAwake(c: Config, s: State, run: seq<Step>, i: nat)
    requires Reachable(c, s) && s.dpc == DWakeWorkers && c.variant == AsWritten && i < |s.spc|
    requires Legal(c, s, run) && NoSpurious(run)
    ensures i < |Exec(c, s, run).spc|
    ensures Settled(c, Exec(c, s, run)) ==> (Exec(c, s, run).spc[i] == SOut <==> s.spc[i] != SWait)
    ensures s.spc[i] == SWait ==> Exec(c, s, run).spc[i] == SWait
  {
    ReachableInv(c, s);
    InvAlongRun(c, s, run);
    StrandedForEver(c, s, run, i);
    if Settled(c, Exec(c, s, run)) {
      WhenResting(c, Exec(c, s, run));
    }
  }

  /** Not asleep when the flag is set, or with a broadcast to come. */
  predicate Released(c: Config, pc: SubmitPc) {
    c.variant != AsWritten || pc != SWait
  }

  /** One run, without further calls and spurious wakeups, that brings home every submitter that is released. */
  lemma BringsHome(c: Config, s: State) returns (run: seq<Step>)
    requires Inv(c, s) && s.dpc == DWakeWorkers
    ensures Legal(c, s, run) && NoCalls(run) && NoSpurious(run) && |Exec(c, s, run).spc| == |s.spc|
    ensures forall i: nat :: i < |s.spc| && Released(c, s.spc[i]) ==> OutAt(Exec(c, s, run), i)
  {
    run := Settles(c, s);
    InvAlongRun(c, s, run);
    WhenResting(c, Exec(c, s, run));
    forall i: nat | i < |s.spc| && Released(c, s.spc[i])
      ensures OutAt(Exec(c, s, run), i)
    {
      if c.variant == AsWritten { StrandedForEver(c, s, run, i); }
    }
  }

  /**
   When destroy sets the flag, for any number of workers and joins: without further calls and spurious
   wakeups a submitter returns in some continuation if and only if it is not asleep on queue_not_full or
   the broadcast on it is there.
   */
  lemma CanReturnIff(c: Config, s: State, i: nat)
    requires Reachable(c, s) && s.dpc == DWakeWorkers && i < |s.spc|
    ensures (exists run :: Legal(c, s, run) && NoCalls(run) && NoSpurious(run) && OutAt(Exec(c, s, run), i))
       <==> c.variant != AsWritten || s.spc[i] != SWait
  {
    ReachableInv(c, s);
    if Released(c, s.spc[i]) {
      var run := BringsHome(c, s);
    } else {
      forall run | Legal(c, s, run) && NoSpurious(run)
        ensures !OutAt(Exec(c, s, run), i)
      {
        StrandedForEver(c, s, run, i);
      }
    }
  }

  /** And all submitters return in one and the same continuation if and only if each of them can in some. */
  lemma AllCanReturnIff(c: Config, s: State)
    requires Reachable(c, s) && s.dpc == DWakeWorkers
    ensures (exists run :: Legal(c, s, run) && NoCalls(run) && NoSpurious(run) && AllOut(Exec(c, s, run).spc))
       <==> c.variant != AsWritten || SWait !in s.spc
  {
    ReachableInv(c, s);
    if c.variant != AsWritten || SWait !in s.spc {
      var run := BringsHome(c, s);
      var t := Exec(c, s, run);
      assert AllOut(t.spc) by {
        forall i: nat | i < |t.spc| ensures t.spc[i] == SOut { assert Released(c, s.spc[i]); }
      }
    } else {
      var i: nat :| i < |s.spc| && s.spc[i] == SWait;
      forall run | Legal(c, s, run) && NoSpurious(run)
        ensures !AllOut(Exec(c, s, run).spc)
      {
        StrandedForEver(c, s, run, i);
      }
    }
  }

  lemma {:induction false} FlagStays(c: Config, s: State, run: seq<Step>)
    requires Inv(c, s) && s.shutdown && Legal(c, s, run)
    ensures Exec(c, s, run).shutdown && Exec(c, s, run).dpc != DOut
    decreases |run|
  {
    if run != [] {
      InvStep(c, s, run[0]);
      FlagStays(c, Next(c, s, run[0]).value, run[1..]);
    }
  }

  /**
   Which submitters return for sure, as written, whatever the schedule (no further calls, no spurious
   wakeups): when destroy joins more threads than exist, those not asleep when the flag is set; when it
   joins exactly the existing ones, only those that are out of their call already, because the pool can be freed
   under any other.
   */
  lemma ReturnsForSureIff(c: Config, s: State, i: nat)
    requires Reachable(c, s) && s.dpc == DWakeWorkers && c.variant == AsWritten
    requires c.workers <= c.poolSize && i < |s.spc|
    ensures (forall run :: Legal(c, s, run) && NoCalls(run) && NoSpurious(run) && Stuck(c, Exec(c, s, run)) ==>
               OutAt(Exec(c, s, run), i))
       <==> s.spc[i] == SOut || (c.workers < c.poolSize && s.spc[i] != SWait)
  {
    ReachableInv(c, s);
    if s.spc[i] == SOut || (c.workers < c.poolSize && s.spc[i] != SWait) {
      forall run | Legal(c, s, run) && NoCalls(run) && NoSpurious(run) && Stuck(c, Exec(c, s, run))
        ensures OutAt(Exec(c, s, run), i)
      {
        InvAlongRun(c, s, run);
        if s.spc[i] == SOut {
          OutStaysOut(c, s, run, i);
        } else {
          FlagStays(c, s, run);
          StuckIsSettled(c, Exec(c, s, run));
          ReturnsIffAwake(c, s, run, i);
        }
      }
    } else {
      var run := Misses(c, s, i);
      assert !OutAt(Exec(c, s, run), i);
    }
  }

  predicate OutAt(s: State, i: nat) {
    i < |s.spc| && s.spc[i] == SOut
  }

  /** A schedule under which submitter i does not return. */
  lemma Misses(c: Config, s: State, i: nat) returns (run: seq<Step>)
    requires Inv(c, s) && s.dpc == DWakeWorkers && c.variant == AsWritten
    requires c.workers <= c.poolSize && i < |s.spc| && s.spc[i] != SOut
    requires c.workers == c.poolSize || s.spc[i] == SWait
    ensures Legal(c, s, run) && NoCalls(run) && NoSpurious(run) && Stuck(c, Exec(c, s, run))
    ensures !OutAt(Exec(c, s, run), i)
  {
    if c.workers == c.poolSize {
      var t := Next(c, s, Destroy).value;
      InvStep(c, s, Destroy);
      var rest := RunsToTheEnd(c, t);
      run := [Destroy] + rest;
      assert run[1..] == rest;
      InvAlongRun(c, s, run);
      FreedIsStuck(c, Exec(c, s, run));
    } else {
      run := RunsToStuck(c, s);
      StrandedForEver(c, s, run, i);
    }
  }

  lemma FreedIsStuck(c: Config, s: State)
    requires Inv(c, s) && Freed(s) && c.workers <= c.poolSize
    ensures Stuck(c, s)
  {
  }

  /**
   With a broadcast on queue_not_full added, every submitter is out of its call once destroy has released
   the mutex, has not freed the pool, and neither submitters nor workers can step (FreedDuringCallIff
   says when destroy can free the pool before, and CanReturnIff that every submitter can get that far).
   If destroy waits for calls in progress, every submitter is out also when the pool has been freed.
   */
  lemma BroadcastReleasesAll(c: Config, s: State)
    requires Reachable(c, s) && c.variant != AsWritten
    ensures Settled(c, s) || (Freed(s) && c.variant == WakesAndDrains) ==> AllOut(s.spc)
    ensures Stuck(c, s) && s.dpc != DOut && (!Freed(s) || c.variant == WakesAndDrains) ==> AllOut(s.spc)
  {
    ReachableInv(c, s);
    if Settled(c, s) {
      WhenResting(c, s);
    } else if Stuck(c, s) && s.dpc != DOut && !Freed(s) {
      StuckIsSettled(c, s);
    }
  }

  /**
   With the broadcast and a destroy that waits for calls in progress, the pool is never freed during
   a call, in any reachable state; and runs end with destroy returned as before.
   */
  lemma DrainingIsSafe(c: Config, s: State)
    requires Reachable(c, s) && c.variant == WakesAndDrains
    ensures Freed(s) ==> AllOut(s.spc)
    ensures Stuck(c, s) && s.dpc != DOut && c.workers == c.poolSize ==> Freed(s) && AllOut(s.spc)
  {
    ReachableInv(c, s);
    if Stuck(c, s) && s.dpc != DOut && c.workers == c.poolSize {
      StuckAfterDestroy(c, s);
    }
  }
}
