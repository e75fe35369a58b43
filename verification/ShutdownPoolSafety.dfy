/**
 What every reachable state of the thread pool of pthreads/pthreads10.c satisfies, for any number
 of submitters and workers, any interleaving, signals that wake several threads, barging threads
 and spurious wakeups.
 */
module ShutdownPoolSafety {
  import opened Threads
  import opened Ring
  import opened Tasks
  import opened ShutdownPool

  // ---------------------------------------------------------------------------------------------
  // The inductive invariant
  // ---------------------------------------------------------------------------------------------

  /** Program points at which the thread owns `queue_mutex`. */
  predicate SHolds(pc: SubmitPc) {
    (pc.STest? || pc.SCheck? || pc.SLeave? || pc.SPut? || pc.SSignal? || pc.SUnlock?)
  }

  predicate WHolds(pc: WorkPc) {
    (pc.WTest? || pc.WCheck? || pc.WLeave? || pc.WTake? || pc.WSignal? || pc.WUnlock?)
  }

  predicate DHolds(pc: DestroyPc) {
    (pc.DFlag? || pc.DWakeWorkers? || pc.DWakeSubmitters? || pc.DUnlock?)
  }

  /** A thread is in its critical section exactly when it owns the mutex. */
  ghost predicate MutexInv(c: Config, s: State) {
    && |s.spc| == |s.arg| == c.submitters
    && |s.wpc| == |s.local| == c.workers
    && (forall i :: 0 <= i < |s.spc| ==> (SHolds(s.spc[i]) <==> s.owner == Submitter(i)))
    && (forall i :: 0 <= i < |s.wpc| ==> (WHolds(s.wpc[i]) <==> s.owner == Worker(i)))
    && (DHolds(s.dpc) <==> s.owner == Destroyer)
    && (s.owner.Submitter? ==> s.owner.i < |s.spc|)
    && (s.owner.Worker? ==> s.owner.i < |s.wpc|)
  }

  /** Which program points are possible before and after the flag is set, and what a passed test still means. */
  ghost predicate SubmitterPointInv(c: Config, s: State) {
    forall i :: 0 <= i < |s.spc| ==>
      && (s.spc[i] == SCheck ==> s.shutdown || s.ring.count < c.capacity)
      && (s.spc[i] == SPut ==> !s.shutdown && s.ring.count < c.capacity)
      && (s.spc[i] == SLeave ==> s.shutdown)
      && ((s.spc[i].SSignal? || s.spc[i].SUnlock?) ==> !s.shutdown)
  }

  ghost predicate WorkerPointInv(c: Config, s: State) {
    forall i :: 0 <= i < |s.wpc| ==>
      && (s.wpc[i] == WCheck ==> s.shutdown || s.ring.count > 0)
      && (s.wpc[i] == WTake ==> !s.shutdown && s.ring.count > 0)
      && ((s.wpc[i].WLeave? || s.wpc[i].WExited?) ==> s.shutdown)
      && ((s.wpc[i].WSignal? || s.wpc[i].WUnlock?) ==> !s.shutdown)
  }

  /** Destroy has released the sleeping workers. */
  predicate WorkersReleased(pc: DestroyPc) {
    pc.DWakeSubmitters? || pc.DUnlock? || pc.DJoin? || pc.DFree? || pc.DDone?
  }

  /** Destroy has issued all its broadcasts. */
  predicate BroadcastsDone(pc: DestroyPc) {
    pc.DUnlock? || pc.DJoin? || pc.DFree? || pc.DDone?
  }

  ghost predicate DestroyInv(c: Config, s: State) {
    && (s.shutdown <==> !(s.dpc.DOut? || s.dpc.DLock? || s.dpc.DFlag?))
    && (s.dpc == DWakeSubmitters ==> c.variant != AsWritten)
    && (WorkersReleased(s.dpc) ==> WWait !in s.wpc)
    && (BroadcastsDone(s.dpc) && c.variant != AsWritten ==> SWait !in s.spc)
    && (Freed(s) && c.variant == WakesAndDrains ==> AllOut(s.spc))
    && (s.dpc.DJoin? ==> s.dpc.k <= c.poolSize)
    && ExitedBelow(s.wpc, Joined(c, s.dpc))
  }

  /** Workers 0 to n - 1 exist and have exited. */
  predicate ExitedBelow(wpc: seq<WorkPc>, n: nat) {
    n <= |wpc| && forall j :: 0 <= j < n ==> wpc[j] == WExited
  }

  /** How many joins have returned. */
  function Joined(c: Config, pc: DestroyPc): nat {
    if pc.DJoin? then pc.k else if pc.DFree? || pc.DDone? then c.poolSize else 0
  }

  /** The accepted tasks are the removed ones followed by the queued ones. */
  ghost predicate QueueInv(c: Config, s: State) {
    && s.ring.Valid()
    && |s.ring.buf| == c.capacity
    && s.accepted == s.taken + s.ring.Contents()
  }

  /** One item for which the owner of the mutex is still going to act. */
  function ItemSlack(s: State): nat {
    match s.owner
    case Worker(i) => if i < |s.wpc| && (s.wpc[i].WTest? || s.wpc[i].WCheck? || s.wpc[i].WTake?) then 1 else 0
    case Submitter(i) => if i < |s.spc| && s.spc[i] == SSignal then 1 else 0
    case _ => 0
  }

  /** One free slot for which the owner of the mutex is still going to act. */
  function SlotSlack(s: State): nat {
    match s.owner
    case Submitter(i) => if i < |s.spc| && (s.spc[i].STest? || s.spc[i].SCheck? || s.spc[i].SPut?) then 1 else 0
    case Worker(i) => if i < |s.wpc| && s.wpc[i] == WSignal then 1 else 0
    case _ => 0
  }

  /** While a worker sleeps, woken workers (and the owner) cover the queued items; likewise for slots. */
  ghost predicate WakeInv(c: Config, s: State) {
    !s.shutdown ==>
      && Covered(s.wpc, WWait, WWoken, ItemSlack(s), s.ring.count)
      && Covered(s.spc, SWait, SWoken, SlotSlack(s), c.capacity - s.ring.count)
  }

  /** The worker has removed its task from the queue and not started it yet. */
  predicate Holding(pc: WorkPc) {
    pc.WSignal? || pc.WUnlock? || pc.WRun?
  }

  /** Every removed task is held by one worker or has been started. */
  ghost predicate TaskInv(s: State) {
    && |s.wpc| == |s.local|
    && Conserved(s.wpc, s.local, Holding, s.taken, s.started)
  }

  /** Submitters that have not yet stored their task. */
  predicate Pending(pc: SubmitPc) {
    (pc.SLock? || pc.STest? || pc.SWait? || pc.SWoken? || pc.SCheck? || pc.SPut?)
  }

  /** Accepted and pending tasks are pairwise different. */
  ghost predicate FreshInv(s: State) {
    && |s.spc| == |s.arg|
    && Fresh(s.spc, s.arg, Pending, s.called, s.accepted)
  }

  /** Before shutdown a task that was passed to submit is accepted or still with its submitter. */
  ghost predicate DeliveryInv(s: State) {
    && |s.spc| == |s.arg|
    && (!s.shutdown ==> Delivered(s.spc, s.arg, Pending, s.called, s.accepted))
  }

  ghost predicate Inv(c: Config, s: State) {
    && MutexInv(c, s)
    && SubmitterPointInv(c, s)
    && WorkerPointInv(c, s)
    && DestroyInv(c, s)
    && QueueInv(c, s)
    && WakeInv(c, s)
    && TaskInv(s)
    && FreshInv(s)
    && DeliveryInv(s)
  }

  // ---------------------------------------------------------------------------------------------
  // Preservation, one clause at a time
  // ---------------------------------------------------------------------------------------------

  lemma InitInv(c: Config, s: State)
    requires IsInit(c, s)
    ensures Inv(c, s)
  {
    forall x { HeldNothing(s.wpc, s.local, Holding, x); }
  }

  lemma MutexSubmit(c: Config, s: State, i: nat, wake: set<nat>)
    requires MutexInv(c, s)
    requires SubmitterNext(c, s, i, wake).Some?
    ensures MutexInv(c, SubmitterNext(c, s, i, wake).value)
  {
  }

  lemma MutexEnter(c: Config, s: State, i: nat, wake: set<nat>)
    requires MutexInv(c, s)
    requires WorkerNext(c, s, i, wake).Some?
    requires s.wpc[i] == WLock || s.wpc[i] == WWoken || s.wpc[i] == WSignal
    ensures MutexInv(c, WorkerNext(c, s, i, wake).value)
  {
  }

  lemma MutexWork(c: Config, s: State, i: nat, wake: set<nat>)
    requires MutexInv(c, s)
    requires WorkerNext(c, s, i, wake).Some?
    ensures MutexInv(c, WorkerNext(c, s, i, wake).value)
  {
    if s.wpc[i] == WLock || s.wpc[i] == WWoken || s.wpc[i] == WSignal {
      MutexEnter(c, s, i, wake);
    }
  }

  lemma MutexDestroy(c: Config, s: State)
    requires MutexInv(c, s)
    requires DestroyerNext(c, s).Some?
    ensures MutexInv(c, DestroyerNext(c, s).value)
  {
  }

  lemma MutexCall(c: Config, s: State, step: Step)
    requires MutexInv(c, s)
    requires Next(c, s, step).Some? && !ThreadStep(step)
    ensures MutexInv(c, Next(c, s, step).value)
  {
  }

  lemma SubmitterPointSubmit(c: Config, s: State, i: nat, wake: set<nat>)
    requires MutexInv(c, s) && SubmitterPointInv(c, s) && WorkerPointInv(c, s) && QueueInv(c, s)
    requires SubmitterNext(c, s, i, wake).Some?
    ensures SubmitterPointInv(c, SubmitterNext(c, s, i, wake).value)
  {
  }

  lemma SubmitterPointWork(c: Config, s: State, i: nat, wake: set<nat>)
    requires MutexInv(c, s) && SubmitterPointInv(c, s) && WorkerPointInv(c, s) && QueueInv(c, s)
    requires WorkerNext(c, s, i, wake).Some?
    ensures SubmitterPointInv(c, WorkerNext(c, s, i, wake).value)
  {
  }

  lemma SubmitterPointDestroy(c: Config, s: State)
    requires MutexInv(c, s) && SubmitterPointInv(c, s) && WorkerPointInv(c, s) && QueueInv(c, s)
    requires DestroyerNext(c, s).Some?
    ensures SubmitterPointInv(c, DestroyerNext(c, s).value)
  {
  }

  lemma SubmitterPointCall(c: Config, s: State, step: Step)
    requires MutexInv(c, s) && SubmitterPointInv(c, s) && WorkerPointInv(c, s) && QueueInv(c, s)
    requires Next(c, s, step).Some? && !ThreadStep(step)
    ensures SubmitterPointInv(c, Next(c, s, step).value)
  {
  }

  lemma WorkerPointSubmit(c: Config, s: State, i: nat, wake: set<nat>)
    requires MutexInv(c, s) && SubmitterPointInv(c, s) && WorkerPointInv(c, s) && QueueInv(c, s)
    requires SubmitterNext(c, s, i, wake).Some?
    ensures WorkerPointInv(c, SubmitterNext(c, s, i, wake).value)
  {
  }

  lemma WorkerPointWork(c: Config, s: State, i: nat, wake: set<nat>)
    requires MutexInv(c, s) && SubmitterPointInv(c, s) && WorkerPointInv(c, s) && QueueInv(c, s)
    requires WorkerNext(c, s, i, wake).Some?
    ensures WorkerPointInv(c, WorkerNext(c, s, i, wake).value)
  {
  }

  lemma WorkerPointDestroy(c: Config, s: State)
    requires MutexInv(c, s) && SubmitterPointInv(c, s) && WorkerPointInv(c, s) && QueueInv(c, s)
    requires DestroyerNext(c, s).Some?
    ensures WorkerPointInv(c, DestroyerNext(c, s).value)
  {
  }

  lemma WorkerPointCall(c: Config, s: State, step: Step)
    requires MutexInv(c, s) && SubmitterPointInv(c, s) && WorkerPointInv(c, s) && QueueInv(c, s)
    requires Next(c, s, step).Some? && !ThreadStep(step)
    ensures WorkerPointInv(c, Next(c, s, step).value)
  {
  }

  lemma DestroySubmit(c: Config, s: State, i: nat, wake: set<nat>)
    requires MutexInv(c, s) && DestroyInv(c, s)
    requires SubmitterNext(c, s, i, wake).Some?
    ensures DestroyInv(c, SubmitterNext(c, s, i, wake).value)
  {
  }

  lemma DestroyWork(c: Config, s: State, i: nat, wake: set<nat>)
    requires MutexInv(c, s) && DestroyInv(c, s)
    requires WorkerNext(c, s, i, wake).Some?
    ensures DestroyInv(c, WorkerNext(c, s, i, wake).value)
  {
  }

  lemma DestroyDestroy(c: Config, s: State)
    requires MutexInv(c, s) && DestroyInv(c, s)
    requires DestroyerNext(c, s).Some?
    ensures DestroyInv(c, DestroyerNext(c, s).value)
  {
  }

  lemma DestroyCall(c: Config, s: State, step: Step)
    requires MutexInv(c, s) && DestroyInv(c, s)
    requires Next(c, s, step).Some? && !ThreadStep(step)
    ensures DestroyInv(c, Next(c, s, step).value)
  {
  }

  lemma QueueSubmit(c: Config, s: State, i: nat, wake: set<nat>)
    requires MutexInv(c, s) && SubmitterPointInv(c, s) && WorkerPointInv(c, s) && QueueInv(c, s)
    requires SubmitterNext(c, s, i, wake).Some?
    ensures QueueInv(c, SubmitterNext(c, s, i, wake).value)
  {
    if s.spc[i] == SPut { PutAppends(s.ring, s.arg[i]); }
  }

  lemma QueueWork(c: Config, s: State, i: nat, wake: set<nat>)
    requires MutexInv(c, s) && SubmitterPointInv(c, s) && WorkerPointInv(c, s) && QueueInv(c, s)
    requires WorkerNext(c, s, i, wake).Some?
    ensures QueueInv(c, WorkerNext(c, s, i, wake).value)
  {
    if s.wpc[i] == WTake { TakeRemovesOldest(s.ring); }
  }

  lemma QueueDestroy(c: Config, s: State)
    requires MutexInv(c, s) && SubmitterPointInv(c, s) && WorkerPointInv(c, s) && QueueInv(c, s)
    requires DestroyerNext(c, s).Some?
    ensures QueueInv(c, DestroyerNext(c, s).value)
  {
  }

  lemma QueueCall(c: Config, s: State, step: Step)
    requires MutexInv(c, s) && SubmitterPointInv(c, s) && WorkerPointInv(c, s) && QueueInv(c, s)
    requires Next(c, s, step).Some? && !ThreadStep(step)
    ensures QueueInv(c, Next(c, s, step).value)
  {
  }

  lemma WakeSubmitSignal(c: Config, s: State, i: nat, wake: set<nat>)
    requires MutexInv(c, s) && DestroyInv(c, s) && WorkerPointInv(c, s) && SubmitterPointInv(c, s) && WakeInv(c, s)
    requires SubmitterNext(c, s, i, wake).Some?
    requires s.spc[i] == SSignal
    ensures WakeInv(c, SubmitterNext(c, s, i, wake).value)
  {
    WakeCounts(s.wpc, wake, WWait, WWoken);
  }

  lemma WakeSubmitEnter(c: Config, s: State, i: nat, wake: set<nat>)
    requires MutexInv(c, s) && DestroyInv(c, s) && WorkerPointInv(c, s) && SubmitterPointInv(c, s) && WakeInv(c, s)
    requires SubmitterNext(c, s, i, wake).Some?
    requires s.spc[i] == SLock || s.spc[i] == SWoken || s.spc[i] == STest
    ensures WakeInv(c, SubmitterNext(c, s, i, wake).value)
  {
  }

  lemma WakeSubmitRest(c: Config, s: State, i: nat, wake: set<nat>)
    requires MutexInv(c, s) && DestroyInv(c, s) && WorkerPointInv(c, s) && SubmitterPointInv(c, s) && WakeInv(c, s)
    requires SubmitterNext(c, s, i, wake).Some?
    requires s.spc[i] == SCheck || s.spc[i] == SPut || s.spc[i] == SLeave || s.spc[i] == SUnlock
    ensures WakeInv(c, SubmitterNext(c, s, i, wake).value)
  {
  }

  lemma WakeSubmit(c: Config, s: State, i: nat, wake: set<nat>)
    requires MutexInv(c, s) && DestroyInv(c, s) && WorkerPointInv(c, s) && SubmitterPointInv(c, s) && WakeInv(c, s)
    requires SubmitterNext(c, s, i, wake).Some?
    ensures WakeInv(c, SubmitterNext(c, s, i, wake).value)
  {
    if s.spc[i] == SSignal {
      WakeSubmitSignal(c, s, i, wake);
    } else if s.spc[i] == SLock || s.spc[i] == SWoken || s.spc[i] == STest {
      WakeSubmitEnter(c, s, i, wake);
    } else {
      WakeSubmitRest(c, s, i, wake);
    }
  }

  lemma WakeWorkSignal(c: Config, s: State, i: nat, wake: set<nat>)
    requires MutexInv(c, s) && DestroyInv(c, s) && WorkerPointInv(c, s) && SubmitterPointInv(c, s) && WakeInv(c, s)
    requires WorkerNext(c, s, i, wake).Some?
    requires s.wpc[i] == WSignal
    ensures WakeInv(c, WorkerNext(c, s, i, wake).value)
  {
    WakeCounts(s.spc, wake, SWait, SWoken);
  }

  lemma WakeWorkEnter(c: Config, s: State, i: nat, wake: set<nat>)
    requires MutexInv(c, s) && DestroyInv(c, s) && WorkerPointInv(c, s) && SubmitterPointInv(c, s) && WakeInv(c, s)
    requires WorkerNext(c, s, i, wake).Some?
    requires s.wpc[i] == WLock || s.wpc[i] == WWoken
    ensures WakeInv(c, WorkerNext(c, s, i, wake).value)
  {
  }

  lemma WakeWorkTest(c: Config, s: State, i: nat, wake: set<nat>)
    requires MutexInv(c, s) && DestroyInv(c, s) && WorkerPointInv(c, s) && SubmitterPointInv(c, s) && WakeInv(c, s)
    requires WorkerNext(c, s, i, wake).Some?
    requires s.wpc[i] == WTest || s.wpc[i] == WTake
    ensures WakeInv(c, WorkerNext(c, s, i, wake).value)
  {
  }

  lemma WakeWorkCheck(c: Config, s: State, i: nat, wake: set<nat>)
    requires MutexInv(c, s) && DestroyInv(c, s) && WorkerPointInv(c, s) && SubmitterPointInv(c, s) && WakeInv(c, s)
    requires WorkerNext(c, s, i, wake).Some?
    requires s.wpc[i] == WCheck || s.wpc[i] == WLeave || s.wpc[i] == WUnlock
    ensures WakeInv(c, WorkerNext(c, s, i, wake).value)
  {
  }

  lemma WakeWorkOutside(c: Config, s: State, i: nat, wake: set<nat>)
    requires MutexInv(c, s) && DestroyInv(c, s) && WorkerPointInv(c, s) && SubmitterPointInv(c, s) && WakeInv(c, s)
    requires WorkerNext(c, s, i, wake).Some?
    requires s.wpc[i] == WRun || s.wpc[i] == WBusy
    ensures WakeInv(c, WorkerNext(c, s, i, wake).value)
  {
  }

  lemma WakeWork(c: Config, s: State, i: nat, wake: set<nat>)
    requires MutexInv(c, s) && DestroyInv(c, s) && WorkerPointInv(c, s) && SubmitterPointInv(c, s) && WakeInv(c, s)
    requires WorkerNext(c, s, i, wake).Some?
    ensures WakeInv(c, WorkerNext(c, s, i, wake).value)
  {
    if s.wpc[i] == WSignal {
      WakeWorkSignal(c, s, i, wake);
    } else if s.wpc[i] == WLock || s.wpc[i] == WWoken {
      WakeWorkEnter(c, s, i, wake);
    } else if s.wpc[i] == WTest || s.wpc[i] == WTake {
      WakeWorkTest(c, s, i, wake);
    } else if s.wpc[i] == WRun || s.wpc[i] == WBusy {
      WakeWorkOutside(c, s, i, wake);
    } else {
      WakeWorkCheck(c, s, i, wake);
    }
  }

  lemma WakeDestroy(c: Config, s: State)
    requires MutexInv(c, s) && DestroyInv(c, s) && WorkerPointInv(c, s) && SubmitterPointInv(c, s) && WakeInv(c, s)
    requires DestroyerNext(c, s).Some?
    ensures WakeInv(c, DestroyerNext(c, s).value)
  {
  }

  lemma WakeCalls(c: Config, s: State, step: Step)
    requires MutexInv(c, s) && DestroyInv(c, s) && WorkerPointInv(c, s) && SubmitterPointInv(c, s) && WakeInv(c, s)
    requires Next(c, s, step).Some? && (step.CallSubmit? || step.CallDestroy?)
    ensures WakeInv(c, Next(c, s, step).value)
  {
  }

  lemma WakeSpuriousSubmitter(c: Config, s: State, step: Step)
    requires MutexInv(c, s) && DestroyInv(c, s) && WorkerPointInv(c, s) && SubmitterPointInv(c, s) && WakeInv(c, s)
    requires Next(c, s, step).Some? && (step.SpuriousSubmitter?)
    ensures WakeInv(c, Next(c, s, step).value)
  {
  }

  lemma WakeSpuriousWorker(c: Config, s: State, step: Step)
    requires MutexInv(c, s) && DestroyInv(c, s) && WorkerPointInv(c, s) && SubmitterPointInv(c, s) && WakeInv(c, s)
    requires Next(c, s, step).Some? && (step.SpuriousWorker?)
    ensures WakeInv(c, Next(c, s, step).value)
  {
  }

  lemma WakeCall(c: Config, s: State, step: Step)
    requires MutexInv(c, s) && DestroyInv(c, s) && WorkerPointInv(c, s) && SubmitterPointInv(c, s) && WakeInv(c, s)
    requires Next(c, s, step).Some? && !ThreadStep(step)
    ensures WakeInv(c, Next(c, s, step).value)
  {
    if step.SpuriousSubmitter? {
      WakeSpuriousSubmitter(c, s, step);
    } else if step.SpuriousWorker? {
      WakeSpuriousWorker(c, s, step);
    } else {
      WakeCalls(c, s, step);
    }
  }

  lemma TaskSubmit(c: Config, s: State, i: nat, wake: set<nat>)
    requires TaskInv(s)
    requires SubmitterNext(c, s, i, wake).Some?
    ensures TaskInv(SubmitterNext(c, s, i, wake).value)
  {
    if s.spc[i] == SSignal {
      ConservedWake(s.wpc, s.local, Holding, s.taken, s.started, wake, WWoken);
    }
  }

  lemma TaskWork(c: Config, s: State, i: nat, wake: set<nat>)
    requires TaskInv(s)
    requires WorkerNext(c, s, i, wake).Some?
    ensures TaskInv(WorkerNext(c, s, i, wake).value)
  {
    if s.wpc[i] == WTake {
      ConservedTake(s.wpc, s.local, Holding, s.taken, s.started, i, WSignal, s.ring.buf[s.ring.head]);
    } else if s.wpc[i] == WRun {
      ConservedStart(s.wpc, s.local, Holding, s.taken, s.started, i, WBusy);
    } else {
      ConservedMove(s.wpc, s.local, Holding, s.taken, s.started, i, WorkerNext(c, s, i, wake).value.wpc[i]);
    }
  }

  lemma TaskDestroy(c: Config, s: State)
    requires TaskInv(s)
    requires DestroyerNext(c, s).Some?
    ensures TaskInv(DestroyerNext(c, s).value)
  {
    if s.dpc == DWakeWorkers {
      ConservedWake(s.wpc, s.local, Holding, s.taken, s.started, Waiters(s.wpc, WWait), WWoken);
    }
  }

  lemma TaskCall(c: Config, s: State, step: Step)
    requires TaskInv(s)
    requires Next(c, s, step).Some? && !ThreadStep(step)
    ensures TaskInv(Next(c, s, step).value)
  {
    if step.SpuriousWorker? {
      ConservedMove(s.wpc, s.local, Holding, s.taken, s.started, step.i, WWoken);
    }
  }

  lemma FreshPut(c: Config, s: State, i: nat, wake: set<nat>)
    requires FreshInv(s) && i < |s.spc| && s.spc[i] == SPut
    requires SubmitterNext(c, s, i, wake).Some?
    ensures FreshInv(SubmitterNext(c, s, i, wake).value)
  {
    assert Pending(s.spc[i]);
  }

  lemma FreshSubmit(c: Config, s: State, i: nat, wake: set<nat>)
    requires FreshInv(s)
    requires SubmitterNext(c, s, i, wake).Some?
    ensures FreshInv(SubmitterNext(c, s, i, wake).value)
  {
    if s.spc[i] == SPut {
      FreshPut(c, s, i, wake);
    } else {
      FreshMove(s.spc, s.arg, Pending, s.called, s.accepted, i, SubmitterNext(c, s, i, wake).value.spc[i]);
    }
  }

  lemma FreshWork(c: Config, s: State, i: nat, wake: set<nat>)
    requires FreshInv(s)
    requires WorkerNext(c, s, i, wake).Some?
    ensures FreshInv(WorkerNext(c, s, i, wake).value)
  {
  }

  lemma FreshDestroy(c: Config, s: State)
    requires FreshInv(s)
    requires DestroyerNext(c, s).Some?
    ensures FreshInv(DestroyerNext(c, s).value)
  {
  }

  lemma FreshCall(c: Config, s: State, step: Step)
    requires FreshInv(s)
    requires Next(c, s, step).Some? && !ThreadStep(step)
    ensures FreshInv(Next(c, s, step).value)
  {
  }

  lemma DeliverySubmit(c: Config, s: State, i: nat, wake: set<nat>)
    requires DeliveryInv(s) && SubmitterPointInv(c, s)
    requires SubmitterNext(c, s, i, wake).Some?
    ensures DeliveryInv(SubmitterNext(c, s, i, wake).value)
  {
    var t := SubmitterNext(c, s, i, wake).value;
    var more := if s.spc[i] == SPut then [s.arg[i]] else [];
    assert t.accepted == s.accepted + more;
    if !s.shutdown {
      DeliveredMove(s.spc, s.arg, Pending, s.called, s.accepted, more, i, t.spc[i]);
    }
  }

  lemma DeliveryWork(c: Config, s: State, i: nat, wake: set<nat>)
    requires DeliveryInv(s) && SubmitterPointInv(c, s)
    requires WorkerNext(c, s, i, wake).Some?
    ensures DeliveryInv(WorkerNext(c, s, i, wake).value)
  {
    var t := WorkerNext(c, s, i, wake).value;
    forall x | !t.shutdown && x in t.called && x !in t.accepted
      ensures InFlight(t.spc, t.arg, Pending, x)
    {
      if x in s.called {
        var k :| 0 <= k < |s.spc| && Pending(s.spc[k]) && s.arg[k] == x;
        assert 0 <= k < |t.spc| && Pending(t.spc[k]) && t.arg[k] == x;
      }
    }
  }

  lemma DeliveryDestroy(c: Config, s: State)
    requires DeliveryInv(s) && SubmitterPointInv(c, s)
    requires DestroyerNext(c, s).Some?
    ensures DeliveryInv(DestroyerNext(c, s).value)
  {
    var t := DestroyerNext(c, s).value;
    forall x | !t.shutdown && x in t.called && x !in t.accepted
      ensures InFlight(t.spc, t.arg, Pending, x)
    {
      if x in s.called {
        var k :| 0 <= k < |s.spc| && Pending(s.spc[k]) && s.arg[k] == x;
        assert 0 <= k < |t.spc| && Pending(t.spc[k]) && t.arg[k] == x;
      }
    }
  }

  lemma DeliveryCall(c: Config, s: State, step: Step)
    requires DeliveryInv(s) && SubmitterPointInv(c, s)
    requires Next(c, s, step).Some? && !ThreadStep(step)
    ensures DeliveryInv(Next(c, s, step).value)
  {
    var t := Next(c, s, step).value;
    forall x | !t.shutdown && x in t.called && x !in t.accepted
      ensures InFlight(t.spc, t.arg, Pending, x)
    {
      if x in s.called {
        var k :| 0 <= k < |s.spc| && Pending(s.spc[k]) && s.arg[k] == x;
        assert 0 <= k < |t.spc| && Pending(t.spc[k]) && t.arg[k] == x;
      } else { assert Pending(t.spc[step.i]); }
    }
  }

  lemma InvSubmit(c: Config, s: State, i: nat, wake: set<nat>)
    requires Inv(c, s)
    requires SubmitterNext(c, s, i, wake).Some?
    ensures Inv(c, SubmitterNext(c, s, i, wake).value)
  {
    MutexSubmit(c, s, i, wake);
    SubmitterPointSubmit(c, s, i, wake);
    WorkerPointSubmit(c, s, i, wake);
    DestroySubmit(c, s, i, wake);
    QueueSubmit(c, s, i, wake);
    WakeSubmit(c, s, i, wake);
    TaskSubmit(c, s, i, wake);
    FreshSubmit(c, s, i, wake);
    DeliverySubmit(c, s, i, wake);
  }

  lemma InvWork(c: Config, s: State, i: nat, wake: set<nat>)
    requires Inv(c, s)
    requires WorkerNext(c, s, i, wake).Some?
    ensures Inv(c, WorkerNext(c, s, i, wake).value)
  {
    MutexWork(c, s, i, wake);
    SubmitterPointWork(c, s, i, wake);
    WorkerPointWork(c, s, i, wake);
    DestroyWork(c, s, i, wake);
    QueueWork(c, s, i, wake);
    WakeWork(c, s, i, wake);
    TaskWork(c, s, i, wake);
    FreshWork(c, s, i, wake);
    DeliveryWork(c, s, i, wake);
  }

  lemma InvDestroy(c: Config, s: State)
    requires Inv(c, s)
    requires DestroyerNext(c, s).Some?
    ensures Inv(c, DestroyerNext(c, s).value)
  {
    MutexDestroy(c, s);
    SubmitterPointDestroy(c, s);
    WorkerPointDestroy(c, s);
    DestroyDestroy(c, s);
    QueueDestroy(c, s);
    WakeDestroy(c, s);
    TaskDestroy(c, s);
    FreshDestroy(c, s);
    DeliveryDestroy(c, s);
  }

  lemma InvCall(c: Config, s: State, step: Step)
    requires Inv(c, s)
    requires Next(c, s, step).Some? && !ThreadStep(step)
    ensures Inv(c, Next(c, s, step).value)
  {
    MutexCall(c, s, step);
    SubmitterPointCall(c, s, step);
    WorkerPointCall(c, s, step);
    DestroyCall(c, s, step);
    QueueCall(c, s, step);
    WakeCall(c, s, step);
    TaskCall(c, s, step);
    FreshCall(c, s, step);
    DeliveryCall(c, s, step);
  }

  /** Every step keeps the invariant. */
  lemma InvStep(c: Config, s: State, step: Step)
    requires Inv(c, s) && Next(c, s, step).Some?
    ensures Inv(c, Next(c, s, step).value)
  {
    if step.Submit? {
      InvSubmit(c, s, step.i, step.wake);
    } else if step.Work? {
      InvWork(c, s, step.i, step.wake);
    } else if step.Destroy? {
      InvDestroy(c, s);
    } else {
      InvCall(c, s, step);
    }
  }

  lemma {:induction false} InvAlongRun(c: Config, s: State, run: seq<Step>)
    requires Inv(c, s) && Legal(c, s, run)
    ensures Inv(c, Exec(c, s, run))
    decreases |run|
  {
    if run != [] {
      InvStep(c, s, run[0]);
      InvAlongRun(c, Next(c, s, run[0]).value, run[1..]);
    }
  }

  lemma ReachableInv(c: Config, s: State)
    requires Reachable(c, s)
    ensures Inv(c, s)
  {
    var s0, run :| IsInit(c, s0) && Legal(c, s0, run) && Exec(c, s0, run) == s;
    InitInv(c, s0);
    InvAlongRun(c, s0, run);
  }

  // ---------------------------------------------------------------------------------------------
  // What the invariant means for every reachable state
  // ---------------------------------------------------------------------------------------------

  /** No two threads are ever inside their critical sections, and the queue is only accessed within bounds. */
  lemma CriticalSectionsExclude(c: Config, s: State)
    requires Reachable(c, s)
    ensures forall i, j :: 0 <= i < j < |s.spc| ==> !(SHolds(s.spc[i]) && SHolds(s.spc[j]))
    ensures forall i, j :: 0 <= i < j < |s.wpc| ==> !(WHolds(s.wpc[i]) && WHolds(s.wpc[j]))
    ensures forall i, j :: 0 <= i < |s.spc| && 0 <= j < |s.wpc| ==> !(SHolds(s.spc[i]) && WHolds(s.wpc[j]))
    ensures DHolds(s.dpc) ==> forall i :: 0 <= i < |s.spc| ==> !SHolds(s.spc[i])
    ensures DHolds(s.dpc) ==> forall i :: 0 <= i < |s.wpc| ==> !WHolds(s.wpc[i])
    ensures SPut in s.spc ==> 0 <= s.ring.tail < |s.ring.buf| && s.ring.count < c.capacity
    ensures WTake in s.wpc ==> 0 <= s.ring.head < |s.ring.buf| && 0 < s.ring.count
  {
    ReachableInv(c, s);
  }

  /**
   No lost wakeup: before shutdown, whenever the mutex is free and a worker sleeps, the woken workers
   still to reacquire the mutex are at least as many as the queued tasks; and whenever a submitter
   sleeps, the woken submitters are at least as many as the free slots.
   */
  lemma NoLostWakeup(c: Config, s: State)
    requires Reachable(c, s) && !s.shutdown && s.owner == Free
    ensures WWait in s.wpc ==> Count(s.wpc, WWoken) >= s.ring.count
    ensures SWait in s.spc ==> Count(s.spc, SWoken) >= c.capacity - s.ring.count
  {
    ReachableInv(c, s);
  }

  /** The tasks removed so far, followed by the queue, are the accepted tasks in acceptance order. */
  lemma FirstInFirstOut(c: Config, s: State)
    requires Reachable(c, s)
    ensures s.ring.Valid() && |s.ring.buf| == c.capacity
    ensures s.accepted == s.taken + s.ring.Contents()
  {
    ReachableInv(c, s);
  }

  /** Every accepted task is in exactly one place, once: queued, held by a worker, or started. */
  lemma ExactlyOnce(c: Config, s: State, x: Task)
    requires Reachable(c, s)
    ensures s.ring.Valid() && |s.wpc| == |s.local|
    ensures multiset(s.ring.Contents())[x] + Held(s.wpc, s.local, Holding, x) + multiset(s.started)[x]
         == multiset(s.accepted)[x]
    ensures multiset(s.accepted)[x] == if x in s.accepted then 1 else 0
    ensures x in s.accepted ==> x in s.called
  {
    ReachableInv(c, s);
    DistinctOnce(s.accepted, x);
    assert multiset(s.taken + s.ring.Contents()) == multiset(s.taken) + multiset(s.ring.Contents());
  }
}
