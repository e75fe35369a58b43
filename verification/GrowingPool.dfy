/**
 The growing thread pool of pthreads/pthreads6.c as a state machine: the bounded queue under
 `queue_mutex`, and a second mutex, `pool_mutex`, for the number of threads. A submit that fills the
 queue adds a worker. There is no shutdown flag: destroy broadcasts once and joins.

 The conventions are those of ShutdownPool. Mutexes do not let their owner lock them again
 (PTHREAD_MUTEX_NORMAL).
 */
module GrowingPool {
  import opened Threads
  import opened Runs
  import opened Ring
  import opened Tasks

  /**
   AsWritten is the C code, in which add_worker locks `pool_mutex` (line 120) although submit has
   locked it (line 100). WithoutRelock leaves out lines 120 and 124/128/132 when submit is the caller.
   */
  datatype Variant = AsWritten | WithoutRelock

  datatype Config = Config(submitters: nat, capacity: nat, maxThreads: nat, variant: Variant)

  datatype Owner = Free | Submitter(i: nat) | Worker(i: nat) | Destroyer

  /** thread_pool_submit, lines 76-108, and the call of add_worker inside it, lines 110-134. */
  datatype SubmitPc =
    | SOut         // not in a call
    | SLock        // 89
    | STest        // 90
    | SWait        // 91, in the wait set of queue_not_full
    | SWoken       // 91, taken out of the wait set, wants queue_mutex back
    | SPut         // 93-96
    | SSignal      // 97
    | SGrow        // 99
    | SLockPool    // 100
    | SRecheck     // 101
    | SRelock      // 120
    | SBelowMax    // 121
    | SCreate      // 122
    | SCount       // 123
    | SUnlockInner // 124, 128 or 132
    | SUnlockPool  // 105
    | SUnlock      // 107

  /** worker, lines 136-161. */
  datatype WorkPc =
    | WLock   // 149
    | WTest   // 150
    | WWait   // 151, in the wait set of queue_not_empty
    | WWoken  // 151, taken out of the wait set, wants queue_mutex back
    | WTake   // 153-155
    | WSignal // 156
    | WUnlock // 157
    | WRun    // 158, about to call the task
    | WBusy   // 158, inside the task

  /** thread_pool_destroy, lines 163-191. */
  datatype DestroyPc =
    | DOut
    | DLock         // 175
    | DWake         // 178
    | DUnlock       // 179
    | DJoin(k: nat) // 181-182
    | DFree         // 185-190
    | DDone

  /**
   The pool. `handles` is the array `threads`: handle k denotes worker k. `returned` counts the
   calls of submit that have returned; `called`, `accepted`, `taken` and `started` are histories.
   */
  datatype State = State(
    ring: Ring<Task>,
    handles: seq<nat>,
    num: nat,
    queueOwner: Owner,
    poolOwner: Owner,
    spc: seq<SubmitPc>,
    arg: seq<Task>,
    wpc: seq<WorkPc>,
    local: seq<Task>,
    dpc: DestroyPc,
    called: set<Task>,
    accepted: seq<Task>,
    taken: seq<Task>,
    started: seq<Task>,
    returned: nat)

  /** What thread_pool_init leaves behind, lines 44-74: as many workers as it could create. */
  predicate IsInit(c: Config, s: State) {
    && s.ring.head == s.ring.tail == s.ring.count == 0
    && |s.ring.buf| == c.capacity
    && |s.handles| == c.maxThreads
    && s.num == |s.wpc| == |s.local| <= c.maxThreads
    && (forall k :: 0 <= k < s.num ==> s.handles[k] == k)
    && s.queueOwner == s.poolOwner == Free
    && |s.spc| == |s.arg| == c.submitters
    && (forall i :: 0 <= i < |s.spc| ==> s.spc[i] == SOut)
    && (forall i :: 0 <= i < |s.wpc| ==> s.wpc[i] == WLock)
    && s.dpc == DOut
    && s.called == {}
    && s.accepted == s.taken == s.started == []
    && s.returned == 0
  }

  /**
   What the environment decides in a step: the threads a signal wakes, whether pthread_create
   succeeds, and what it leaves in the handle when it fails.
   */
  datatype Choice = Choice(wake: set<nat>, created: bool, junk: nat)

  /** Where submit goes on after add_worker: first to its inner unlock, if it has one. */
  function AfterAdd(c: Config): SubmitPc {
    if c.variant == AsWritten then SUnlockInner else SUnlockPool
  }

  /** Lines 185-190 have been executed: the queue, both mutexes and the condition variables are gone. */
  predicate Freed(s: State) {
    s.dpc == DDone
  }

  function SubmitterNext(c: Config, s: State, i: nat, x: Choice): Option<State> {
    if i >= |s.spc| || i >= |s.arg| || Freed(s) then None else
    match s.spc[i]
    case SOut => None
    case SLock | SWoken =>
      if s.queueOwner != Free then None
      else Some(s.(queueOwner := Submitter(i), spc := s.spc[i := STest]))
    case STest =>
      if s.ring.count == c.capacity
      then Some(s.(queueOwner := Free, spc := s.spc[i := SWait]))
      else Some(s.(spc := s.spc[i := SPut]))
    case SWait => None
    case SPut =>
      if !(0 <= s.ring.tail < |s.ring.buf|) then None
      else Some(s.(ring := s.ring.Put(s.arg[i]), accepted := s.accepted + [s.arg[i]], spc := s.spc[i := SSignal]))
    case SSignal =>
      if !LegalSignal(s.wpc, WWait, x.wake) then None
      else Some(s.(wpc := Wake(s.wpc, x.wake, WWoken), spc := s.spc[i := SGrow]))
    case SGrow =>
      Some(s.(spc := s.spc[i := if s.ring.count == c.capacity && s.num < c.maxThreads then SLockPool else SUnlock]))
    case SLockPool =>
      if s.poolOwner != Free then None
      else Some(s.(poolOwner := Submitter(i), spc := s.spc[i := SRecheck]))
    case SRecheck =>
      Some(s.(spc := s.spc[i :=
        if s.num >= c.maxThreads then SUnlockPool
        else if c.variant == AsWritten then SRelock else SBelowMax]))
    case SRelock =>
      if s.poolOwner != Free then None
      else Some(s.(poolOwner := Submitter(i), spc := s.spc[i := SBelowMax]))
    case SBelowMax =>
      Some(s.(spc := s.spc[i := if s.num < c.maxThreads then SCreate else AfterAdd(c)]))
    case SCreate =>
      if s.num >= |s.handles| then None
      else if x.created
      then Some(s.(handles := s.handles[s.num := |s.wpc|], wpc := s.wpc + [WLock], local := s.local + [0],
                   spc := s.spc[i := SCount]))
      else Some(s.(handles := s.handles[s.num := x.junk], spc := s.spc[i := AfterAdd(c)]))
    case SCount =>
      Some(s.(num := s.num + 1, spc := s.spc[i := AfterAdd(c)]))
    case SUnlockInner =>
      Some(s.(poolOwner := Free, spc := s.spc[i := SUnlockPool]))
    case SUnlockPool =>
      Some(s.(poolOwner := Free, spc := s.spc[i := SUnlock]))
    case SUnlock =>
      Some(s.(queueOwner := Free, spc := s.spc[i := SOut], returned := s.returned + 1))
  }

  /** Only outside the pool, in its task, can a worker go on when the pool has been freed. */
  predicate InTask(pc: WorkPc) {
    pc.WRun? || pc.WBusy?
  }

  function WorkerNext(c: Config, s: State, i: nat, x: Choice): Option<State> {
    if i >= |s.wpc| || i >= |s.local| || (Freed(s) && !InTask(s.wpc[i])) then None else
    match s.wpc[i]
    case WLock | WWoken =>
      if s.queueOwner != Free then None
      else Some(s.(queueOwner := Worker(i), wpc := s.wpc[i := WTest]))
    case WTest =>
      if s.ring.count == 0
      then Some(s.(queueOwner := Free, wpc := s.wpc[i := WWait]))
      else Some(s.(wpc := s.wpc[i := WTake]))
    case WWait => None
    case WTake =>
      if !(0 <= s.ring.head < |s.ring.buf|) then None
      else
        var task := s.ring.buf[s.ring.head];
        Some(s.(ring := s.ring.Take(), local := s.local[i := task], taken := s.taken + [task],
                wpc := s.wpc[i := WSignal]))
    case WSignal =>
      if !LegalSignal(s.spc, SWait, x.wake) then None
      else Some(s.(spc := Wake(s.spc, x.wake, SWoken), wpc := s.wpc[i := WUnlock]))
    case WUnlock =>
      Some(s.(queueOwner := Free, wpc := s.wpc[i := WRun]))
    case WRun =>
      Some(s.(started := s.started + [s.local[i]], wpc := s.wpc[i := WBusy]))
    case WBusy =>
      Some(s.(wpc := s.wpc[i := WLock]))
  }

  /** A worker never leaves its loop, so a join on one never returns. */
  function DestroyerNext(c: Config, s: State): Option<State> {
    match s.dpc
    case DOut => None
    case DLock =>
      if s.queueOwner != Free then None else Some(s.(queueOwner := Destroyer, dpc := DWake))
    case DWake =>
      Some(s.(wpc := Wake(s.wpc, Waiters(s.wpc, WWait), WWoken), dpc := DUnlock))
    case DUnlock =>
      Some(s.(queueOwner := Free, dpc := DJoin(0)))
    case DJoin(k) =>
      if k < s.num then None else Some(s.(dpc := DFree))
    case DFree => Some(s.(dpc := DDone))
    case DDone => None
  }

  datatype Step =
    | Submit(i: nat, x: Choice)
    | Work(i: nat, x: Choice)
    | Destroy
    | CallSubmit(i: nat, task: Task)
    | CallDestroy
    | SpuriousSubmitter(i: nat)
    | SpuriousWorker(i: nat)

  function Next(c: Config, s: State, step: Step): Option<State> {
    match step
    case Submit(i, x) => SubmitterNext(c, s, i, x)
    case Work(i, x) => WorkerNext(c, s, i, x)
    case Destroy => DestroyerNext(c, s)
    case CallSubmit(i, task) =>
      if !Freed(s) && i < |s.spc| && i < |s.arg| && s.spc[i] == SOut && task !in s.called
      then Some(s.(spc := s.spc[i := SLock], arg := s.arg[i := task], called := s.called + {task}))
      else None
    case CallDestroy =>
      if s.dpc == DOut then Some(s.(dpc := DLock)) else None
    case SpuriousSubmitter(i) =>
      if !Freed(s) && i < |s.spc| && s.spc[i] == SWait then Some(s.(spc := s.spc[i := SWoken])) else None
    case SpuriousWorker(i) =>
      if !Freed(s) && i < |s.wpc| && s.wpc[i] == WWait then Some(s.(wpc := s.wpc[i := WWoken])) else None
  }

  predicate ThreadStep(step: Step) {
    step.Submit? || step.Work? || step.Destroy?
  }

  /** The machine of a configuration. */
  function Machine(c: Config): (State, Step) -> Option<State> {
    (s: State, step: Step) => Next(c, s, step)
  }

  ghost predicate Legal(c: Config, s: State, run: seq<Step>) {
    LegalRun(Machine(c), s, run)
  }

  ghost function Exec(c: Config, s: State, run: seq<Step>): State
    requires Legal(c, s, run)
  {
    After(Machine(c), s, run)
  }

  lemma Then(c: Config, s: State, run: seq<Step>, step: Step)
    requires Legal(c, s, run) && Next(c, Exec(c, s, run), step).Some?
    ensures Legal(c, s, run + [step])
    ensures Exec(c, s, run + [step]) == Next(c, Exec(c, s, run), step).value
  {
    Extend(Machine(c), s, run, step);
  }

  lemma ThenRun(c: Config, s: State, run: seq<Step>, more: seq<Step>)
    requires Legal(c, s, run) && Legal(c, Exec(c, s, run), more)
    ensures Legal(c, s, run + more)
    ensures Exec(c, s, run + more) == Exec(c, Exec(c, s, run), more)
  {
    Concat(Machine(c), s, run, more);
  }

  ghost predicate Reachable(c: Config, s: State) {
    exists s0, run :: IsInit(c, s0) && Legal(c, s0, run) && Exec(c, s0, run) == s
  }

  ghost predicate Stuck(c: Config, s: State) {
    forall step :: ThreadStep(step) ==> Next(c, s, step).None?
  }
}
