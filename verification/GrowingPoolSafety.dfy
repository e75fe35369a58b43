/**
 What every reachable state of the growing pool of pthreads/pthreads6.c satisfies, in both variants.
 */
module GrowingPoolSafety {
  import opened Threads
  import opened Ring
  import opened Tasks
  import opened GrowingPool

  // ---------------------------------------------------------------------------------------------
  // The inductive invariant
  // ---------------------------------------------------------------------------------------------

  /** Program points at which a submitter owns `pool_mutex`. */
  predicate HoldsPool(pc: SubmitPc) {
    pc.SRecheck? || pc.SRelock? || pc.SBelowMax? || pc.SCreate? || pc.SCount? || pc.SUnlockInner? || pc.SUnlockPool?
  }

  /** Program points at which a thread owns `queue_mutex`. */
  predicate SHolds(pc: SubmitPc) {
    pc.STest? || pc.SPut? || pc.SSignal? || pc.SGrow? || pc.SLockPool? || pc.SUnlock? || HoldsPool(pc)
  }

  predicate WHolds(pc: WorkPc) {
    pc.WTest? || pc.WTake? || pc.WSignal? || pc.WUnlock?
  }

  predicate DHolds(pc: DestroyPc) {
    pc.DWake? || pc.DUnlock?
  }

  ghost predicate MutexInv(c: Config, s: State) {
    && |s.spc| == |s.arg| == c.submitters
    && |s.wpc| == |s.local|
    && (forall i :: 0 <= i < |s.spc| ==> (SHolds(s.spc[i]) <==> s.queueOwner == Submitter(i)))
    && (forall i :: 0 <= i < |s.wpc| ==> (WHolds(s.wpc[i]) <==> s.queueOwner == Worker(i)))
    && (DHolds(s.dpc) <==> s.queueOwner == Destroyer)
    && (s.queueOwner.Submitter? ==> s.queueOwner.i < |s.spc|)
    && (s.queueOwner.Worker? ==> s.queueOwner.i < |s.wpc|)
  }

  ghost predicate PoolMutexInv(c: Config, s: State) {
    && (forall i :: 0 <= i < |s.spc| ==> (HoldsPool(s.spc[i]) <==> s.poolOwner == Submitter(i)))
    && (s.poolOwner == Free || (s.poolOwner.Submitter? && s.poolOwner.i < |s.spc|))
  }

  /** On the way to adding a worker. */
  predicate Growing(pc: SubmitPc) {
    pc.SLockPool? || pc.SRecheck? || pc.SRelock? || pc.SBelowMax? || pc.SCreate? || pc.SCount?
  }

  /** What a passed test still means, and the points that a variant does not reach. */
  ghost predicate SubmitterPointInv(c: Config, s: State) {
    forall i :: 0 <= i < |s.spc| ==>
      && (s.spc[i] == SPut ==> s.ring.count < c.capacity)
      && (Growing(s.spc[i]) ==> s.ring.count == c.capacity && s.num < c.maxThreads)
      && (s.spc[i].SRelock? ==> c.variant == AsWritten)
      && (s.spc[i].SBelowMax? || s.spc[i].SCreate? || s.spc[i].SCount? || s.spc[i].SUnlockPool? ==>
            c.variant == WithoutRelock)
      && !s.spc[i].SUnlockInner?
  }

  ghost predicate WorkerPointInv(c: Config, s: State) {
    forall i :: 0 <= i < |s.wpc| ==> (s.wpc[i] == WTake ==> s.ring.count > 0)
  }

  /** 1 while a thread has been created and not counted yet. */
  function Uncounted(s: State): nat {
    if s.poolOwner.Submitter? && s.poolOwner.i < |s.spc| && s.spc[s.poolOwner.i] == SCount then 1 else 0
  }

  /** The handles of the counted threads, and of the one about to be counted, are in place. */
  ghost predicate HandlesInv(c: Config, s: State) {
    && |s.handles| == c.maxThreads
    && |s.wpc| == s.num + Uncounted(s) <= c.maxThreads
    && forall k :: 0 <= k < |s.wpc| ==> s.handles[k] == k
  }

  ghost predicate JoinInv(s: State) {
    && (s.dpc.DJoin? ==> s.dpc.k == 0)
  }

  /** Nobody has fallen asleep on queue_not_empty since the broadcast, while destroy still owns queue_mutex. */
  ghost predicate BroadcastInv(s: State) {
    s.dpc == DUnlock ==> WWait !in s.wpc
  }

  ghost predicate QueueInv(c: Config, s: State) {
    && s.ring.Valid()
    && |s.ring.buf| == c.capacity
    && s.accepted == s.taken + s.ring.Contents()
  }

  function ItemSlack(s: State): nat {
    match s.queueOwner
    case Worker(i) => if i < |s.wpc| && (s.wpc[i].WTest? || s.wpc[i].WTake?) then 1 else 0
    case Submitter(i) => if i < |s.spc| && s.spc[i] == SSignal then 1 else 0
    case _ => 0
  }

  function SlotSlack(s: State): nat {
    match s.queueOwner
    case Submitter(i) => if i < |s.spc| && (s.spc[i].STest? || s.spc[i].SPut?) then 1 else 0
    case Worker(i) => if i < |s.wpc| && s.wpc[i] == WSignal then 1 else 0
    case _ => 0
  }

  ghost predicate WakeInv(c: Config, s: State) {
    && Covered(s.wpc, WWait, WWoken, ItemSlack(s), s.ring.count)
    && Covered(s.spc, SWait, SWoken, SlotSlack(s), c.capacity - s.ring.count)
  }

  predicate Holding(pc: WorkPc) {
    pc.WSignal? || pc.WUnlock? || pc.WRun?
  }

  ghost predicate TaskInv(s: State) {
    && |s.wpc| == |s.local|
    && Conserved(s.wpc, s.local, Holding, s.taken, s.started)
  }

  predicate Pending(pc: SubmitPc) {
    pc.SLock? || pc.STest? || pc.SWait? || pc.SWoken? || pc.SPut?
  }

  ghost predicate FreshInv(s: State) {
    && |s.spc| == |s.arg|
    && Fresh(s.spc, s.arg, Pending, s.called, s.accepted)
  }

  ghost predicate DeliveryInv(s: State) {
    && |s.spc| == |s.arg|
    && Delivered(s.spc, s.arg, Pending, s.called, s.accepted)
  }

  ghost predicate Inv(c: Config, s: State) {
    && MutexInv(c, s)
    && PoolMutexInv(c, s)
    && SubmitterPointInv(c, s)
    && WorkerPointInv(c, s)
    && HandlesInv(c, s)
    && JoinInv(s)
    && BroadcastInv(s)
    && QueueInv(c, s)
    && WakeInv(c, s)
    && TaskInv(s)
    && FreshInv(s)
    && DeliveryInv(s)
  }

  // ---------------------------------------------------------------------------------------------
  // Preservation, one clause at a time
  // ---------------------------------------------------------------------------------------------

  lemma InitInv(c: Config, s: State)
    requires IsInit(c, s)
    ensures Inv(c, s)
  {
    forall x { HeldNothing(s.wpc, s.local, Holding, x); }
  }

  lemma MutexSubmit(c: Config, s: State, i: nat, x: Choice)
    requires MutexInv(c, s)
    requires SubmitterNext(c, s, i, x).Some?
    ensures MutexInv(c, SubmitterNext(c, s, i, x).value)
  {
  }

  lemma MutexWork(c: Config, s: State, i: nat, x: Choice)
    requires MutexInv(c, s)
    requires WorkerNext(c, s, i, x).Some?
    ensures MutexInv(c, WorkerNext(c, s, i, x).value)
  {
  }

  lemma MutexDestroy(c: Config, s: State)
    requires MutexInv(c, s)
    requires DestroyerNext(c, s).Some?
    ensures MutexInv(c, DestroyerNext(c, s).value)
  {
  }

  lemma MutexCall(c: Config, s: State, step: Step)
    requires MutexInv(c, s)
    requires Next(c, s, step).Some? && !ThreadStep(step)
    ensures MutexInv(c, Next(c, s, step).value)
  {
  }

  lemma PoolMutexSubmit(c: Config, s: State, i: nat, x: Choice)
    requires MutexInv(c, s) && PoolMutexInv(c, s) && SubmitterPointInv(c, s)
    requires SubmitterNext(c, s, i, x).Some?
    ensures PoolMutexInv(c, SubmitterNext(c, s, i, x).value)
  {
  }

  lemma PoolMutexWork(c: Config, s: State, i: nat, x: Choice)
    requires MutexInv(c, s) && PoolMutexInv(c, s) && SubmitterPointInv(c, s)
    requires WorkerNext(c, s, i, x).Some?
    ensures PoolMutexInv(c, WorkerNext(c, s, i, x).value)
  {
  }

  lemma PoolMutexDestroy(c: Config, s: State)
    requires MutexInv(c, s) && PoolMutexInv(c, s) && SubmitterPointInv(c, s)
    requires DestroyerNext(c, s).Some?
    ensures PoolMutexInv(c, DestroyerNext(c, s).value)
  {
  }

  lemma PoolMutexCall(c: Config, s: State, step: Step)
    requires MutexInv(c, s) && PoolMutexInv(c, s) && SubmitterPointInv(c, s)
    requires Next(c, s, step).Some? && !ThreadStep(step)
    ensures PoolMutexInv(c, Next(c, s, step).value)
  {
  }

  lemma SubmitterPointEarly(c: Config, s: State, i: nat, x: Choice)
    requires MutexInv(c, s) && PoolMutexInv(c, s) && SubmitterPointInv(c, s) && QueueInv(c, s)
    requires SubmitterNext(c, s, i, x).Some? && !HoldsPool(s.spc[i])
    ensures SubmitterPointInv(c, SubmitterNext(c, s, i, x).value)
  {
  }

  lemma SubmitterPointLate(c: Config, s: State, i: nat, x: Choice)
    requires MutexInv(c, s) && PoolMutexInv(c, s) && SubmitterPointInv(c, s) && QueueInv(c, s)
    requires SubmitterNext(c, s, i, x).Some? && HoldsPool(s.spc[i])
    ensures SubmitterPointInv(c, SubmitterNext(c, s, i, x).value)
  {
  }

  lemma SubmitterPointSubmit(c: Config, s: State, i: nat, x: Choice)
    requires MutexInv(c, s) && PoolMutexInv(c, s) && SubmitterPointInv(c, s) && QueueInv(c, s)
    requires SubmitterNext(c, s, i, x).Some?
    ensures SubmitterPointInv(c, SubmitterNext(c, s, i, x).value)
  {
    if HoldsPool(s.spc[i]) {
      SubmitterPointLate(c, s, i, x);
    } else {
      SubmitterPointEarly(c, s, i, x);
    }
  }

  lemma SubmitterPointWork(c: Config, s: State, i: nat, x: Choice)
    requires MutexInv(c, s) && PoolMutexInv(c, s) && SubmitterPointInv(c, s) && WorkerPointInv(c, s) && QueueInv(c, s)
    requires WorkerNext(c, s, i, x).Some?
    ensures SubmitterPointInv(c, WorkerNext(c, s, i, x).value)
  {
  }

  lemma SubmitterPointDestroy(c: Config, s: State)
    requires MutexInv(c, s) && PoolMutexInv(c, s) && SubmitterPointInv(c, s) && WorkerPointInv(c, s) && QueueInv(c, s)
    requires DestroyerNext(c, s).Some?
    ensures SubmitterPointInv(c, DestroyerNext(c, s).value)
  {
  }

  lemma SubmitterPointCall(c: Config, s: State, step: Step)
    requires MutexInv(c, s) && PoolMutexInv(c, s) && SubmitterPointInv(c, s) && WorkerPointInv(c, s) && QueueInv(c, s)
    requires Next(c, s, step).Some? && !ThreadStep(step)
    ensures SubmitterPointInv(c, Next(c, s, step).value)
  {
  }

  lemma WorkerPointSubmit(c: Config, s: State, i: nat, x: Choice)
    requires MutexInv(c, s) && SubmitterPointInv(c, s) && WorkerPointInv(c, s) && QueueInv(c, s)
    requires SubmitterNext(c, s, i, x).Some?
    ensures WorkerPointInv(c, SubmitterNext(c, s, i, x).value)
  {
  }

  lemma WorkerPointWork(c: Config, s: State, i: nat, x: Choice)
    requires MutexInv(c, s) && SubmitterPointInv(c, s) && WorkerPointInv(c, s) && QueueInv(c, s)
    requires WorkerNext(c, s, i, x).Some?
    ensures WorkerPointInv(c, WorkerNext(c, s, i, x).value)
  {
  }

  lemma WorkerPointDestroy(c: Config, s: State)
    requires MutexInv(c, s) && SubmitterPointInv(c, s) && WorkerPointInv(c, s) && QueueInv(c, s)
    requires DestroyerNext(c, s).Some?
    ensures WorkerPointInv(c, DestroyerNext(c, s).value)
  {
  }

  lemma WorkerPointCall(c: Config, s: State, step: Step)
    requires MutexInv(c, s) && SubmitterPointInv(c, s) && WorkerPointInv(c, s) && QueueInv(c, s)
    requires Next(c, s, step).Some? && !ThreadStep(step)
    ensures WorkerPointInv(c, Next(c, s, step).value)
  {
  }

  lemma HandlesSubmit(c: Config, s: State, i: nat, x: Choice)
    requires MutexInv(c, s) && PoolMutexInv(c, s) && SubmitterPointInv(c, s) && HandlesInv(c, s)
    requires SubmitterNext(c, s, i, x).Some?
    ensures HandlesInv(c, SubmitterNext(c, s, i, x).value)
  {
  }

  lemma HandlesWork(c: Config, s: State, i: nat, x: Choice)
    requires MutexInv(c, s) && PoolMutexInv(c, s) && SubmitterPointInv(c, s) && HandlesInv(c, s)
    requires WorkerNext(c, s, i, x).Some?
    ensures HandlesInv(c, WorkerNext(c, s, i, x).value)
  {
  }

  lemma HandlesDestroy(c: Config, s: State)
    requires MutexInv(c, s) && PoolMutexInv(c, s) && SubmitterPointInv(c, s) && HandlesInv(c, s)
    requires DestroyerNext(c, s).Some?
    ensures HandlesInv(c, DestroyerNext(c, s).value)
  {
  }

  lemma HandlesCall(c: Config, s: State, step: Step)
    requires MutexInv(c, s) && PoolMutexInv(c, s) && SubmitterPointInv(c, s) && HandlesInv(c, s)
    requires Next(c, s, step).Some? && !ThreadStep(step)
    ensures HandlesInv(c, Next(c, s, step).value)
  {
  }

  lemma BroadcastSubmit(c: Config, s: State, i: nat, x: Choice)
    requires MutexInv(c, s) && BroadcastInv(s)
    requires SubmitterNext(c, s, i, x).Some?
    ensures BroadcastInv(SubmitterNext(c, s, i, x).value)
  {
  }

  lemma BroadcastWork(c: Config, s: State, i: nat, x: Choice)
    requires MutexInv(c, s) && BroadcastInv(s)
    requires WorkerNext(c, s, i, x).Some?
    ensures BroadcastInv(WorkerNext(c, s, i, x).value)
  {
  }

  lemma BroadcastDestroy(c: Config, s: State)
    requires MutexInv(c, s) && BroadcastInv(s)
    requires DestroyerNext(c, s).Some?
    ensures BroadcastInv(DestroyerNext(c, s).value)
  {
  }

  lemma BroadcastCall(c: Config, s: State, step: Step)
    requires MutexInv(c, s) && BroadcastInv(s)
    requires Next(c, s, step).Some? && !ThreadStep(step)
    ensures BroadcastInv(Next(c, s, step).value)
  {
  }

  lemma QueueSubmit(c: Config, s: State, i: nat, x: Choice)
    requires MutexInv(c, s) && SubmitterPointInv(c, s) && WorkerPointInv(c, s) && QueueInv(c, s)
    requires SubmitterNext(c, s, i, x).Some?
    ensures QueueInv(c, SubmitterNext(c, s, i, x).value)
  {
    if s.spc[i] == SPut { PutAppends(s.ring, s.arg[i]); }
  }

  lemma QueueWork(c: Config, s: State, i: nat, x: Choice)
    requires MutexInv(c, s) && SubmitterPointInv(c, s) && WorkerPointInv(c, s) && QueueInv(c, s)
    requires WorkerNext(c, s, i, x).Some?
    ensures QueueInv(c, WorkerNext(c, s, i, x).value)
  {
    if s.wpc[i] == WTake { TakeRemovesOldest(s.ring); }
  }

  lemma QueueDestroy(c: Config, s: State)
    requires MutexInv(c, s) && SubmitterPointInv(c, s) && WorkerPointInv(c, s) && QueueInv(c, s)
    requires DestroyerNext(c, s).Some?
    ensures QueueInv(c, DestroyerNext(c, s).value)
  {
  }

  lemma QueueCall(c: Config, s: State, step: Step)
    requires MutexInv(c, s) && SubmitterPointInv(c, s) && WorkerPointInv(c, s) && QueueInv(c, s)
    requires Next(c, s, step).Some? && !ThreadStep(step)
    ensures QueueInv(c, Next(c, s, step).value)
  {
  }

  lemma WakeSubmitEnter(c: Config, s: State, i: nat, x: Choice)
    requires MutexInv(c, s) && SubmitterPointInv(c, s) && WorkerPointInv(c, s) && WakeInv(c, s)
    requires SubmitterNext(c, s, i, x).Some?
    requires s.spc[i] == SLock || s.spc[i] == SWoken || s.spc[i] == STest || s.spc[i] == SPut
    ensures WakeInv(c, SubmitterNext(c, s, i, x).value)
  {
  }

  lemma WakeSubmitSignal(c: Config, s: State, i: nat, x: Choice)
    requires MutexInv(c, s) && SubmitterPointInv(c, s) && WorkerPointInv(c, s) && WakeInv(c, s)
    requires SubmitterNext(c, s, i, x).Some?
    requires s.spc[i] == SSignal
    ensures WakeInv(c, SubmitterNext(c, s, i, x).value)
  {
    WakeCounts(s.wpc, x.wake, WWait, WWoken);
  }

  lemma WakeSubmitLater(c: Config, s: State, i: nat, x: Choice)
    requires MutexInv(c, s) && SubmitterPointInv(c, s) && WorkerPointInv(c, s) && WakeInv(c, s)
    requires SubmitterNext(c, s, i, x).Some?
    requires !Pending(s.spc[i]) && s.spc[i] != SSignal
    ensures WakeInv(c, SubmitterNext(c, s, i, x).value)
  {
  }

  lemma WakeWorkSignal(c: Config, s: State, i: nat, x: Choice)
    requires MutexInv(c, s) && SubmitterPointInv(c, s) && WorkerPointInv(c, s) && WakeInv(c, s)
    requires WorkerNext(c, s, i, x).Some?
    requires s.wpc[i] == WSignal
    ensures WakeInv(c, WorkerNext(c, s, i, x).value)
  {
    WakeCounts(s.spc, x.wake, SWait, SWoken);
  }

  lemma WakeWorkEnter(c: Config, s: State, i: nat, x: Choice)
    requires MutexInv(c, s) && SubmitterPointInv(c, s) && WorkerPointInv(c, s) && WakeInv(c, s)
    requires WorkerNext(c, s, i, x).Some?
    requires s.wpc[i] == WLock || s.wpc[i] == WWoken
    ensures WakeInv(c, WorkerNext(c, s, i, x).value)
  {
  }

  lemma WakeWorkTest(c: Config, s: State, i: nat, x: Choice)
    requires MutexInv(c, s) && SubmitterPointInv(c, s) && WorkerPointInv(c, s) && WakeInv(c, s)
    requires WorkerNext(c, s, i, x).Some?
    requires s.wpc[i] == WTest || s.wpc[i] == WTake
    ensures WakeInv(c, WorkerNext(c, s, i, x).value)
  {
  }

  lemma WakeWorkLater(c: Config, s: State, i: nat, x: Choice)
    requires MutexInv(c, s) && SubmitterPointInv(c, s) && WorkerPointInv(c, s) && WakeInv(c, s)
    requires WorkerNext(c, s, i, x).Some?
    requires s.wpc[i] == WUnlock || s.wpc[i] == WRun || s.wpc[i] == WBusy
    ensures WakeInv(c, WorkerNext(c, s, i, x).value)
  {
  }

  lemma WakeSubmit(c: Config, s: State, i: nat, x: Choice)
    requires MutexInv(c, s) && SubmitterPointInv(c, s) && WorkerPointInv(c, s) && WakeInv(c, s)
    requires SubmitterNext(c, s, i, x).Some?
    ensures WakeInv(c, SubmitterNext(c, s, i, x).value)
  {
    if s.spc[i] == SSignal {
      WakeSubmitSignal(c, s, i, x);
    } else if Pending(s.spc[i]) {
      WakeSubmitEnter(c, s, i, x);
    } else {
      WakeSubmitLater(c, s, i, x);
    }
  }

  lemma WakeWork(c: Config, s: State, i: nat, x: Choice)
    requires MutexInv(c, s) && SubmitterPointInv(c, s) && WorkerPointInv(c, s) && WakeInv(c, s)
    requires WorkerNext(c, s, i, x).Some?
    ensures WakeInv(c, WorkerNext(c, s, i, x).value)
  {
    if s.wpc[i] == WSignal {
      WakeWorkSignal(c, s, i, x);
    } else if s.wpc[i] == WLock || s.wpc[i] == WWoken {
      WakeWorkEnter(c, s, i, x);
    } else if s.wpc[i] == WTest || s.wpc[i] == WTake {
      WakeWorkTest(c, s, i, x);
    } else {
      WakeWorkLater(c, s, i, x);
    }
  }

  lemma WakeDestroy(c: Config, s: State)
    requires MutexInv(c, s) && SubmitterPointInv(c, s) && WorkerPointInv(c, s) && WakeInv(c, s)
    requires DestroyerNext(c, s).Some?
    ensures WakeInv(c, DestroyerNext(c, s).value)
  {
  }

  lemma WakeCalls(c: Config, s: State, step: Step)
    requires MutexInv(c, s) && SubmitterPointInv(c, s) && WorkerPointInv(c, s) && WakeInv(c, s)
    requires Next(c, s, step).Some? && (step.CallSubmit? || step.CallDestroy?)
    ensures WakeInv(c, Next(c, s, step).value)
  {
  }

  lemma WakeSpuriousSubmitter(c: Config, s: State, step: Step)
    requires MutexInv(c, s) && SubmitterPointInv(c, s) && WorkerPointInv(c, s) && WakeInv(c, s)
    requires Next(c, s, step).Some? && (step.SpuriousSubmitter?)
    ensures WakeInv(c, Next(c, s, step).value)
  {
  }

  lemma WakeSpuriousWorker(c: Config, s: State, step: Step)
    requires MutexInv(c, s) && SubmitterPointInv(c, s) && WorkerPointInv(c, s) && WakeInv(c, s)
    requires Next(c, s, step).Some? && (step.SpuriousWorker?)
    ensures WakeInv(c, Next(c, s, step).value)
  {
  }

  lemma WakeCall(c: Config, s: State, step: Step)
    requires MutexInv(c, s) && SubmitterPointInv(c, s) && WorkerPointInv(c, s) && WakeInv(c, s)
    requires Next(c, s, step).Some? && !ThreadStep(step)
    ensures WakeInv(c, Next(c, s, step).value)
  {
    if step.SpuriousSubmitter? {
      WakeSpuriousSubmitter(c, s, step);
    } else if step.SpuriousWorker? {
      WakeSpuriousWorker(c, s, step);
    } else {
      WakeCalls(c, s, step);
    }
  }

  lemma TaskSubmit(c: Config, s: State, i: nat, x: Choice)
    requires TaskInv(s)
    requires SubmitterNext(c, s, i, x).Some?
    ensures TaskInv(SubmitterNext(c, s, i, x).value)
  {
    if s.spc[i] == SSignal {
      ConservedWake(s.wpc, s.local, Holding, s.taken, s.started, x.wake, WWoken);
    } else if s.spc[i] == SCreate {
      forall y { HeldAppend(s.wpc, s.local, Holding, WLock, 0, y); }
    }
  }

  lemma TaskWork(c: Config, s: State, i: nat, x: Choice)
    requires TaskInv(s)
    requires WorkerNext(c, s, i, x).Some?
    ensures TaskInv(WorkerNext(c, s, i, x).value)
  {
    if s.wpc[i] == WTake {
      ConservedTake(s.wpc, s.local, Holding, s.taken, s.started, i, WSignal, s.ring.buf[s.ring.head]);
    } else if s.wpc[i] == WRun {
      ConservedStart(s.wpc, s.local, Holding, s.taken, s.started, i, WBusy);
    } else {
      ConservedMove(s.wpc, s.local, Holding, s.taken, s.started, i, WorkerNext(c, s, i, x).value.wpc[i]);
    }
  }

  lemma TaskDestroy(c: Config, s: State)
    requires TaskInv(s)
    requires DestroyerNext(c, s).Some?
    ensures TaskInv(DestroyerNext(c, s).value)
  {
    if s.dpc == DWake {
      ConservedWake(s.wpc, s.local, Holding, s.taken, s.started, Waiters(s.wpc, WWait), WWoken);
    }
  }

  lemma TaskCall(c: Config, s: State, step: Step)
    requires TaskInv(s)
    requires Next(c, s, step).Some? && !ThreadStep(step)
    ensures TaskInv(Next(c, s, step).value)
  {
    if step.SpuriousWorker? {
      ConservedMove(s.wpc, s.local, Holding, s.taken, s.started, step.i, WWoken);
    }
  }

  lemma FreshPut(c: Config, s: State, i: nat, x: Choice)
    requires FreshInv(s) && i < |s.spc| && s.spc[i] == SPut
    requires SubmitterNext(c, s, i, x).Some?
    ensures FreshInv(SubmitterNext(c, s, i, x).value)
  {
    assert Pending(s.spc[i]);
  }

  lemma FreshSubmit(c: Config, s: State, i: nat, x: Choice)
    requires FreshInv(s)
    requires SubmitterNext(c, s, i, x).Some?
    ensures FreshInv(SubmitterNext(c, s, i, x).value)
  {
    if s.spc[i] == SPut {
      FreshPut(c, s, i, x);
    } else {
      FreshMove(s.spc, s.arg, Pending, s.called, s.accepted, i, SubmitterNext(c, s, i, x).value.spc[i]);
    }
  }

  lemma FreshWork(c: Config, s: State, i: nat, x: Choice)
    requires FreshInv(s)
    requires WorkerNext(c, s, i, x).Some?
    ensures FreshInv(WorkerNext(c, s, i, x).value)
  {
  }

  lemma FreshDestroy(c: Config, s: State)
    requires FreshInv(s)
    requires DestroyerNext(c, s).Some?
    ensures FreshInv(DestroyerNext(c, s).value)
  {
  }

  lemma FreshCall(c: Config, s: State, step: Step)
    requires FreshInv(s)
    requires Next(c, s, step).Some? && !ThreadStep(step)
    ensures FreshInv(Next(c, s, step).value)
  {
  }

  lemma DeliverySubmit(c: Config, s: State, i: nat, x: Choice)
    requires DeliveryInv(s)
    requires SubmitterNext(c, s, i, x).Some?
    ensures DeliveryInv(SubmitterNext(c, s, i, x).value)
  {
    var t := SubmitterNext(c, s, i, x).value;
    var more := if s.spc[i] == SPut then [s.arg[i]] else [];
    assert t.accepted == s.accepted + more;
    DeliveredMove(s.spc, s.arg, Pending, s.called, s.accepted, more, i, t.spc[i]);
  }

  lemma DeliveryWork(c: Config, s: State, i: nat, x: Choice)
    requires DeliveryInv(s)
    requires WorkerNext(c, s, i, x).Some?
    ensures DeliveryInv(WorkerNext(c, s, i, x).value)
  {
    var t := WorkerNext(c, s, i, x).value;
    forall y | y in t.called && y !in t.accepted
      ensures InFlight(t.spc, t.arg, Pending, y)
    {
      if y in s.called {
        var k :| 0 <= k < |s.spc| && Pending(s.spc[k]) && s.arg[k] == y;
        assert 0 <= k < |t.spc| && Pending(t.spc[k]) && t.arg[k] == y;
      }
    }
  }

  lemma DeliveryDestroy(c: Config, s: State)
    requires DeliveryInv(s)
    requires DestroyerNext(c, s).Some?
    ensures DeliveryInv(DestroyerNext(c, s).value)
  {
    var t := DestroyerNext(c, s).value;
    forall y | y in t.called && y !in t.accepted
      ensures InFlight(t.spc, t.arg, Pending, y)
    {
      if y in s.called {
        var k :| 0 <= k < |s.spc| && Pending(s.spc[k]) && s.arg[k] == y;
        assert 0 <= k < |t.spc| && Pending(t.spc[k]) && t.arg[k] == y;
      }
    }
  }

  lemma DeliveryCall(c: Config, s: State, step: Step)
    requires DeliveryInv(s)
    requires Next(c, s, step).Some? && !ThreadStep(step)
    ensures DeliveryInv(Next(c, s, step).value)
  {
    var t := Next(c, s, step).value;
    forall y | y in t.called && y !in t.accepted
      ensures InFlight(t.spc, t.arg, Pending, y)
    {
      if y in s.called {
        var k :| 0 <= k < |s.spc| && Pending(s.spc[k]) && s.arg[k] == y;
        assert 0 <= k < |t.spc| && Pending(t.spc[k]) && t.arg[k] == y;
      } else { assert Pending(t.spc[step.i]); }
    }
  }

  lemma ControlSubmit(c: Config, s: State, i: nat, x: Choice)
    requires MutexInv(c, s) && PoolMutexInv(c, s) && SubmitterPointInv(c, s) && WorkerPointInv(c, s)
    requires HandlesInv(c, s) && JoinInv(s) && BroadcastInv(s) && QueueInv(c, s)
    requires SubmitterNext(c, s, i, x).Some?
    ensures var t := SubmitterNext(c, s, i, x).value;
      && MutexInv(c, t) && PoolMutexInv(c, t) && SubmitterPointInv(c, t) && WorkerPointInv(c, t)
      && HandlesInv(c, t) && JoinInv(t) && BroadcastInv(t)
  {
    MutexSubmit(c, s, i, x);
    PoolMutexSubmit(c, s, i, x);
    SubmitterPointSubmit(c, s, i, x);
    WorkerPointSubmit(c, s, i, x);
    HandlesSubmit(c, s, i, x);
    BroadcastSubmit(c, s, i, x);
  }

  lemma InvSubmit(c: Config, s: State, i: nat, x: Choice)
    requires Inv(c, s)
    requires SubmitterNext(c, s, i, x).Some?
    ensures Inv(c, SubmitterNext(c, s, i, x).value)
  {
    ControlSubmit(c, s, i, x);
    QueueSubmit(c, s, i, x);
    WakeSubmit(c, s, i, x);
    TaskSubmit(c, s, i, x);
    FreshSubmit(c, s, i, x);
    DeliverySubmit(c, s, i, x);
  }

  lemma InvWork(c: Config, s: State, i: nat, x: Choice)
    requires Inv(c, s)
    requires WorkerNext(c, s, i, x).Some?
    ensures Inv(c, WorkerNext(c, s, i, x).value)
  {
    MutexWork(c, s, i, x);
    PoolMutexWork(c, s, i, x);
    SubmitterPointWork(c, s, i, x);
    WorkerPointWork(c, s, i, x);
    HandlesWork(c, s, i, x);
    BroadcastWork(c, s, i, x);
    QueueWork(c, s, i, x);
    WakeWork(c, s, i, x);
    TaskWork(c, s, i, x);
    FreshWork(c, s, i, x);
    DeliveryWork(c, s, i, x);
  }

  lemma InvDestroy(c: Config, s: State)
    requires Inv(c, s)
    requires DestroyerNext(c, s).Some?
    ensures Inv(c, DestroyerNext(c, s).value)
  {
    MutexDestroy(c, s);
    PoolMutexDestroy(c, s);
    SubmitterPointDestroy(c, s);
    WorkerPointDestroy(c, s);
    HandlesDestroy(c, s);
    BroadcastDestroy(c, s);
    QueueDestroy(c, s);
    WakeDestroy(c, s);
    TaskDestroy(c, s);
    FreshDestroy(c, s);
    DeliveryDestroy(c, s);
  }

  lemma InvCall(c: Config, s: State, step: Step)
    requires Inv(c, s)
    requires Next(c, s, step).Some? && !ThreadStep(step)
    ensures Inv(c, Next(c, s, step).value)
  {
    MutexCall(c, s, step);
    PoolMutexCall(c, s, step);
    SubmitterPointCall(c, s, step);
    WorkerPointCall(c, s, step);
    HandlesCall(c, s, step);
    BroadcastCall(c, s, step);
    QueueCall(c, s, step);
    WakeCall(c, s, step);
    TaskCall(c, s, step);
    FreshCall(c, s, step);
    DeliveryCall(c, s, step);
  }

  /** Every step keeps the invariant. */
  lemma InvStep(c: Config, s: State, step: Step)
    requires Inv(c, s) && Next(c, s, step).Some?
    ensures Inv(c, Next(c, s, step).value)
  {
    if step.Submit? {
      InvSubmit(c, s, step.i, step.x);
    } else if step.Work? {
      InvWork(c, s, step.i, step.x);
    } else if step.Destroy? {
      InvDestroy(c, s);
    } else {
      InvCall(c, s, step);
    }
  }

  lemma {:induction false} InvAlongRun(c: Config, s: State, run: seq<Step>)
    requires Inv(c, s) && Legal(c, s, run)
    ensures Inv(c, Exec(c, s, run))
    decreases |run|
  {
    if run != [] {
      InvStep(c, s, run[0]);
      InvAlongRun(c, Next(c, s, run[0]).value, run[1..]);
    }
  }

  lemma ReachableInv(c: Config, s: State)
    requires Reachable(c, s)
    ensures Inv(c, s)
  {
    var s0, run :| IsInit(c, s0) && Legal(c, s0, run) && Exec(c, s0, run) == s;
    InitInv(c, s0);
    InvAlongRun(c, s0, run);
  }
}
