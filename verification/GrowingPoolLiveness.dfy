/**
 Where runs of the growing pool of pthreads/pthreads6.c lead: every step of a thread lowers one
 potential, and the states in which no thread can step are characterised.
 */
module GrowingPoolLiveness {
  import opened Threads
  import opened Runs
  import opened Tasks
  import opened GrowingPool
  import opened GrowingPoolSafety
  import opened GrowingPoolTheorems

  // ---------------------------------------------------------------------------------------------
  // A potential that every step of a thread lowers
  // ---------------------------------------------------------------------------------------------

  /** What one queued task is worth: a worker's round, with the signal that may wake every submitter. */
  function ItemCost(c: Config): nat {
    7 + 2 * c.submitters
  }

  function SubmitRank(c: Config, pc: SubmitPc): nat {
    match pc
    case SOut => 0
    case SUnlock => 1
    case SUnlockPool => 2
    case SUnlockInner => 3
    case SCount => 4
    case SCreate => 8  // a new worker starts at rank 3
    case SBelowMax => 9
    case SRelock => 10
    case SRecheck => 11
    case SLockPool => 12
    case SGrow => 13
    case SSignal => 14 + 2 * c.maxThreads
    case SPut => 15 + 2 * c.maxThreads + ItemCost(c)
    case SWait => 15 + 2 * c.maxThreads + ItemCost(c)
    case STest => 16 + 2 * c.maxThreads + ItemCost(c)
    case SLock | SWoken => 17 + 2 * c.maxThreads + ItemCost(c)
  }

  function WorkRank(c: Config, pc: WorkPc): nat {
    match pc
    case WTake | WWait => 1
    case WTest => 2
    case WLock | WWoken => 3
    case WBusy => 4
    case WRun => 5
    case WUnlock => 6
    case WSignal => 7 + 2 * c.submitters
  }

  function DestroyRank(c: Config, pc: DestroyPc): nat {
    match pc
    case DOut | DDone => 0
    case DFree => 1
    case DJoin(_) => 2
    case DUnlock => 3
    case DWake => 4 + 2 * c.maxThreads
    case DLock => 5 + 2 * c.maxThreads
  }

  function SubmitRanks(c: Config): SubmitPc -> nat {
    pc => SubmitRank(c, pc)
  }

  function WorkRanks(c: Config): WorkPc -> nat {
    pc => WorkRank(c, pc)
  }

  function Potential(c: Config, s: State): int {
    Sum(s.spc, SubmitRanks(c)) + Sum(s.wpc, WorkRanks(c)) + ItemCost(c) * s.ring.count + DestroyRank(c, s.dpc)
  }

  /** What a call or a spurious wakeup may add to the potential. */
  function Supply(c: Config, step: Step): nat {
    match step
    case CallSubmit(_, _) => 24 + 2 * c.maxThreads + 2 * c.submitters
    case CallDestroy => 5 + 2 * c.maxThreads
    case SpuriousSubmitter(_) | SpuriousWorker(_) => 2
    case _ => 0
  }

  lemma PotentialIsNatural(c: Config, s: State)
    requires QueueInv(c, s)
    ensures Potential(c, s) >= 0
  {
    assert ItemCost(c) * s.ring.count >= 0;
  }

  lemma PutDescends(c: Config, s: State, i: nat, x: Choice)
    requires i < |s.spc| && s.spc[i] == SPut && SubmitterNext(c, s, i, x).Some?
    ensures Potential(c, SubmitterNext(c, s, i, x).value) < Potential(c, s)
  {
    var t := SubmitterNext(c, s, i, x).value;
    assert t.spc == s.spc[i := SSignal] && t.wpc == s.wpc && t.dpc == s.dpc && t.ring.count == s.ring.count + 1;
    SumUpdate(s.spc, SubmitRanks(c), i, SSignal);
    assert ItemCost(c) * (s.ring.count + 1) == ItemCost(c) * s.ring.count + ItemCost(c);
  }

  lemma SubmitterSignalDescends(c: Config, s: State, i: nat, x: Choice)
    requires |s.wpc| <= c.maxThreads
    requires i < |s.spc| && s.spc[i] == SSignal && SubmitterNext(c, s, i, x).Some?
    ensures Potential(c, SubmitterNext(c, s, i, x).value) < Potential(c, s)
  {
    SumUpdate(s.spc, SubmitRanks(c), i, SGrow);
    SumWake(s.wpc, WorkRanks(c), x.wake, WWoken, 2);
  }

  lemma CreateDescends(c: Config, s: State, i: nat, x: Choice)
    requires i < |s.spc| && s.spc[i] == SCreate && SubmitterNext(c, s, i, x).Some?
    ensures Potential(c, SubmitterNext(c, s, i, x).value) < Potential(c, s)
  {
    SumUpdate(s.spc, SubmitRanks(c), i, SubmitterNext(c, s, i, x).value.spc[i]);
    SumAppend(s.wpc, WorkRanks(c), WLock);
  }

  lemma SubmitterMoveDescends(c: Config, s: State, i: nat, x: Choice)
    requires i < |s.spc| && s.spc[i] != SPut && s.spc[i] != SSignal && s.spc[i] != SCreate
    requires SubmitterNext(c, s, i, x).Some?
    ensures Potential(c, SubmitterNext(c, s, i, x).value) < Potential(c, s)
  {
    SumUpdate(s.spc, SubmitRanks(c), i, SubmitterNext(c, s, i, x).value.spc[i]);
  }

  lemma TakeDescends(c: Config, s: State, i: nat, x: Choice)
    requires i < |s.wpc| && s.wpc[i] == WTake && WorkerNext(c, s, i, x).Some?
    ensures Potential(c, WorkerNext(c, s, i, x).value) < Potential(c, s)
  {
    SumUpdate(s.wpc, WorkRanks(c), i, WSignal);
    assert ItemCost(c) * (s.ring.count - 1) == ItemCost(c) * s.ring.count - ItemCost(c);
  }

  lemma WorkerSignalDescends(c: Config, s: State, i: nat, x: Choice)
    requires |s.spc| == c.submitters
    requires i < |s.wpc| && s.wpc[i] == WSignal && WorkerNext(c, s, i, x).Some?
    ensures Potential(c, WorkerNext(c, s, i, x).value) < Potential(c, s)
  {
    SumUpdate(s.wpc, WorkRanks(c), i, WUnlock);
    SumWake(s.spc, SubmitRanks(c), x.wake, SWoken, 2);
  }

  lemma WorkerMoveDescends(c: Config, s: State, i: nat, x: Choice)
    requires i < |s.wpc| && s.wpc[i] != WTake && s.wpc[i] != WSignal && WorkerNext(c, s, i, x).Some?
    ensures Potential(c, WorkerNext(c, s, i, x).value) < Potential(c, s)
  {
    SumUpdate(s.wpc, WorkRanks(c), i, WorkerNext(c, s, i, x).value.wpc[i]);
  }

  lemma DestroyerDescends(c: Config, s: State)
    requires |s.wpc| <= c.maxThreads && DestroyerNext(c, s).Some?
    ensures Potential(c, DestroyerNext(c, s).value) < Potential(c, s)
  {
    if s.dpc == DWake {
      SumWake(s.wpc, WorkRanks(c), Waiters(s.wpc, WWait), WWoken, 2);
    }
  }

  lemma CallSupplies(c: Config, s: State, step: Step)
    requires Next(c, s, step).Some? && !ThreadStep(step)
    ensures Potential(c, Next(c, s, step).value) <= Potential(c, s) + Supply(c, step)
  {
    var t := Next(c, s, step).value;
    if step.CallSubmit? || step.SpuriousSubmitter? {
      SumUpdate(s.spc, SubmitRanks(c), step.i, t.spc[step.i]);
    } else if step.SpuriousWorker? {
      SumUpdate(s.wpc, WorkRanks(c), step.i, t.wpc[step.i]);
    }
  }

  /**
   Every step of a thread lowers the potential, including those that create workers; only calls and
   spurious wakeups raise it, by a bounded amount.
   */
  lemma EveryThreadStepDescends(c: Config, s: State, step: Step)
    requires Inv(c, s) && Next(c, s, step).Some?
    ensures ThreadStep(step) ==> Potential(c, Next(c, s, step).value) < Potential(c, s)
    ensures Potential(c, Next(c, s, step).value) <= Potential(c, s) + Supply(c, step)
  {
    if step.Submit? {
      if s.spc[step.i] == SPut {
        PutDescends(c, s, step.i, step.x);
      } else if s.spc[step.i] == SSignal {
        SubmitterSignalDescends(c, s, step.i, step.x);
      } else if s.spc[step.i] == SCreate {
        CreateDescends(c, s, step.i, step.x);
      } else {
        SubmitterMoveDescends(c, s, step.i, step.x);
      }
    } else if step.Work? {
      if s.wpc[step.i] == WTake {
        TakeDescends(c, s, step.i, step.x);
      } else if s.wpc[step.i] == WSignal {
        WorkerSignalDescends(c, s, step.i, step.x);
      } else {
        WorkerMoveDescends(c, s, step.i, step.x);
      }
    } else if step.Destroy? {
      DestroyerDescends(c, s);
    } else {
      CallSupplies(c, s, step);
    }
  }

  /** The number of steps that threads of the pool take in a run. */
  function ThreadSteps(run: seq<Step>): nat {
    StepsOf(ThreadStep, run)
  }

  /** What the calls and spurious wakeups of a run add to the potential. */
  function TotalSupply(c: Config, run: seq<Step>): nat {
    Supplied(SupplyOf(c), run)
  }

  function SupplyOf(c: Config): Step -> nat {
    step => Supply(c, step)
  }

  function PotentialOf(c: Config): State -> int {
    s => Potential(c, s)
  }

  ghost function InvOf(c: Config): State -> bool {
    s => Inv(c, s)
  }

  lemma PotentialPays(c: Config)
    ensures Pays(Machine(c), InvOf(c), PotentialOf(c), ThreadStep, SupplyOf(c))
  {
    forall s | Inv(c, s) ensures Potential(c, s) >= 0 { PotentialIsNatural(c, s); }
    forall s, step | Inv(c, s) && Next(c, s, step).Some?
      ensures var t := Next(c, s, step).value;
        Inv(c, t) && Potential(c, t) + (if ThreadStep(step) then 1 else 0) <= Potential(c, s) + Supply(c, step)
    {
      InvStep(c, s, step);
      EveryThreadStepDescends(c, s, step);
    }
  }

  /** From any state, the steps of the threads are bounded by the potential and what calls add to it. */
  lemma RunIsBounded(c: Config, s: State, run: seq<Step>)
    requires Inv(c, s) && Legal(c, s, run)
    ensures ThreadSteps(run) + Potential(c, Exec(c, s, run)) <= Potential(c, s) + TotalSupply(c, run)
    ensures Potential(c, Exec(c, s, run)) >= 0
  {
    PotentialPays(c);
    StepsAreBounded(Machine(c), InvOf(c), PotentialOf(c), ThreadStep, SupplyOf(c), s, run);
  }

  /** A run from the initial state has no more thread steps than its calls and spurious wakeups pay for. */
  lemma EveryRunEnds(c: Config, s: State, run: seq<Step>)
    requires IsInit(c, s) && Legal(c, s, run)
    ensures ThreadSteps(run) <= 3 * s.num + TotalSupply(c, run)
  {
    InitInv(c, s);
    RunIsBounded(c, s, run);
    InitialPotential(c, s);
  }

  lemma InitialPotential(c: Config, s: State)
    requires IsInit(c, s)
    ensures Potential(c, s) == 3 * s.num
  {
    SumConstant(s.spc, SubmitRanks(c), SOut);
    SumConstant(s.wpc, WorkRanks(c), WLock);
    assert ItemCost(c) * s.ring.count == 0;
  }

  // ---------------------------------------------------------------------------------------------
  // The states in which no thread can step
  // ---------------------------------------------------------------------------------------------

  lemma BlockedSubmitter(c: Config, s: State, i: nat)
    requires Inv(c, s) && Stuck(c, s) && !Freed(s) && i < |s.spc|
    ensures s.spc[i] == SOut || s.spc[i] == SWait || s.spc[i] == SRelock
         || ((s.spc[i] == SLock || s.spc[i] == SWoken) && s.queueOwner != Free)
  {
    var wake := SignalCanRun(s.wpc, WWait);
    var step := Submit(i, Choice(wake, false, 0));
    assert ThreadStep(step) && Next(c, s, step).None?;
  }

  lemma BlockedWorker(c: Config, s: State, i: nat)
    requires Inv(c, s) && Stuck(c, s) && !Freed(s) && i < |s.wpc|
    ensures s.wpc[i] == WWait || ((s.wpc[i] == WLock || s.wpc[i] == WWoken) && s.queueOwner != Free)
  {
    var wake := SignalCanRun(s.spc, SWait);
    var step := Work(i, Choice(wake, false, 0));
    assert ThreadStep(step) && Next(c, s, step).None?;
  }

  /** Where every thread is when none can step and none has reached the relock of line 120. */
  lemma WhenStuck(c: Config, s: State)
    requires Inv(c, s) && Stuck(c, s) && !Freed(s) && SRelock !in s.spc
    ensures s.queueOwner == Free
    ensures forall i :: 0 <= i < |s.spc| ==> s.spc[i] == SOut || s.spc[i] == SWait
    ensures forall i :: 0 <= i < |s.wpc| ==> s.wpc[i] == WWait
    ensures s.dpc == DOut || (s.dpc == DJoin(0) && s.num > 0)
  {
    assert ThreadStep(Destroy) && Next(c, s, Destroy).None?;
    if s.queueOwner.Submitter? {
      BlockedSubmitter(c, s, s.queueOwner.i);
    } else if s.queueOwner.Worker? {
      BlockedWorker(c, s, s.queueOwner.i);
    }
    forall i: nat | i < |s.spc| ensures s.spc[i] == SOut || s.spc[i] == SWait { BlockedSubmitter(c, s, i); }
    forall i: nat | i < |s.wpc| ensures s.wpc[i] == WWait { BlockedWorker(c, s, i); }
  }

  lemma JoinBlocks(c: Config, s: State, step: Step)
    requires Next(c, s, step).Some? && s.num >= 1 && JoinInv(s) && !s.dpc.DFree? && !s.dpc.DDone?
    ensures var t := Next(c, s, step).value; !t.dpc.DFree? && !t.dpc.DDone?
  {
  }

  lemma {:induction false} JoinNeverReturns(c: Config, s: State, run: seq<Step>)
    requires Inv(c, s) && Legal(c, s, run) && s.num >= 1 && !s.dpc.DFree? && !s.dpc.DDone?
    ensures var t := Exec(c, s, run); Inv(c, t) && t.num >= 1 && !t.dpc.DFree? && !t.dpc.DDone?
    decreases |run|
  {
    if run != [] {
      InvStep(c, s, run[0]);
      GrowthStep(c, s, run[0]);
      JoinBlocks(c, s, run[0]);
      JoinNeverReturns(c, Next(c, s, run[0]).value, run[1..]);
    }
  }

  lemma TerminalQueue(c: Config, s: State)
    requires Inv(c, s) && Stuck(c, s) && !Freed(s) && SRelock !in s.spc && |s.wpc| >= 1 && c.capacity >= 1
    ensures s.ring.count == 0
    ensures forall i :: 0 <= i < |s.spc| ==> s.spc[i] == SOut
    ensures forall i :: 0 <= i < |s.wpc| ==> s.wpc[i] == WWait
  {
    WhenStuck(c, s);
    assert Count(s.wpc, WWoken) == 0 && s.wpc[0] == WWait;
    assert Count(s.spc, SWoken) == 0;
  }

  /** With nothing queued, held or in flight, the started tasks are the called ones, once each. */
  lemma AllStarted(c: Config, s: State)
    requires Inv(c, s) && s.ring.count == 0
    requires forall i :: 0 <= i < |s.spc| ==> s.spc[i] == SOut
    requires forall i :: 0 <= i < |s.wpc| ==> s.wpc[i] == WWait
    ensures multiset(s.started) == multiset(s.called)
  {
    forall x
      ensures multiset(s.started)[x] == multiset(s.called)[x]
    {
      DistinctOnce(s.accepted, x);
      HeldNothing(s.wpc, s.local, Holding, x);
    }
  }

  /**
   Terminal states. With at least one worker, when a run without the relock, or a run as written that
   never took the growth branch, has reached a state in which no thread can step: the queue is empty,
   every task ever passed to submit has been started exactly once, no submitter is blocked and every
   worker waits for a task. A destroyer that has been called is blocked for ever in its first join.
   */
  lemma WhenNothingCanStep(c: Config, s0: State, run: seq<Step>)
    requires IsInit(c, s0) && s0.num >= 1 && c.capacity >= 1
    requires Legal(c, s0, run) && Stuck(c, Exec(c, s0, run))
    requires c.variant == WithoutRelock || SRelock !in Exec(c, s0, run).spc
    ensures var s := Exec(c, s0, run);
      && s.ring.count == 0
      && (forall i :: 0 <= i < |s.spc| ==> s.spc[i] == SOut)
      && (forall i :: 0 <= i < |s.wpc| ==> s.wpc[i] == WWait)
      && multiset(s.started) == multiset(s.called)
      && (s.dpc == DOut || s.dpc == DJoin(0))
  {
    var s := Exec(c, s0, run);
    InitInv(c, s0);
    JoinNeverReturns(c, s0, run);
    assert SRelock !in s.spc;
    WhenStuck(c, s);
    TerminalQueue(c, s);
    AllStarted(c, s);
  }

  /** From every reachable state the threads alone reach a state in which none can step, within the potential. */
  lemma RunsToStuck(c: Config, s: State) returns (run: seq<Step>)
    requires Inv(c, s)
    ensures Legal(c, s, run) && Stuck(c, Exec(c, s, run))
    ensures |run| <= Potential(c, s)
    ensures forall k :: 0 <= k < |run| ==> ThreadStep(run[k])
  {
    PotentialPays(c);
    run := RunsDown(Machine(c), InvOf(c), PotentialOf(c), ThreadStep, s);
    forall step | ThreadStep(step) ensures Next(c, Exec(c, s, run), step).None? {
      assert Machine(c)(Exec(c, s, run), step).None?;
    }
  }

  /** The calls and steps with which destroy comes to its end in a pool without threads. */
  lemma DestroysNothing(c: Config, s: State) returns (run: seq<Step>)
    requires IsInit(c, s) && s.num == 0
    ensures Legal(c, s, run) && Freed(Exec(c, s, run))
  {
    run := [];
    Then(c, s, run, CallDestroy);
    run := run + [CallDestroy];
    assert Exec(c, s, run) == s.(dpc := DLock);
    Then(c, s, run, Destroy);
    run := run + [Destroy];
    Then(c, s, run, Destroy);
    run := run + [Destroy];
    assert Exec(c, s, run).dpc == DUnlock && Exec(c, s, run).num == 0;
    Then(c, s, run, Destroy);
    run := run + [Destroy];
    Then(c, s, run, Destroy);
    run := run + [Destroy];
    assert Exec(c, s, run).dpc == DFree;
    Then(c, s, run, Destroy);
    run := run + [Destroy];
  }

  /** Destroy can come to its end, in some run, exactly when init could not create a single thread. */
  lemma DestroyReturnsIff(c: Config, s: State)
    requires IsInit(c, s)
    ensures (exists run :: Legal(c, s, run) && Freed(Exec(c, s, run))) <==> s.num == 0
  {
    InitInv(c, s);
    if s.num == 0 {
      var run := DestroysNothing(c, s);
    } else {
      forall run | Legal(c, s, run) ensures !Freed(Exec(c, s, run)) { JoinNeverReturns(c, s, run); }
    }
  }
}
