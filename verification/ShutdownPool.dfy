/**
 The thread pool of pthreads/pthreads10.c as a state machine: one bounded queue, one mutex, two
 condition variables, any number of submitters and workers, and one thread that destroys the pool.

 A thread moves from one program point to the next; each point is one line (or one run of lines
 executed with the mutex held) of the C source. `Next` says what happens at a program point; None
 means that the thread cannot take that step: it is blocked, or the line has no defined effect.
 No step checks that the thread owns the mutex; that it does is proved (ShutdownPoolSafety).
 */
module ShutdownPool {
  import opened Threads
  import opened Runs
  import opened Ring
  import opened Tasks

  /**
   AsWritten is the C code. WakesSubmitters adds a broadcast on `queue_not_full` after line 107.
   WakesAndDrains also waits, before line 112, until no call of submit is in progress.
   */
  datatype Variant = AsWritten | WakesSubmitters | WakesAndDrains

  /** `poolSize` is THREAD_POOL_SIZE, `workers` the `num_threads` and `capacity` the `max_tasks` of line 50. */
  datatype Config = Config(workers: nat, submitters: nat, capacity: nat, poolSize: nat, variant: Variant)

  /** Who holds `queue_mutex`. */
  datatype Owner = Free | Submitter(i: nat) | Worker(i: nat) | Destroyer

  /** thread_pool_submit, lines 66-81. */
  datatype SubmitPc =
    | SOut      // not in a call
    | SLock     // 67
    | STest     // 68
    | SWait     // 69, in the wait set of queue_not_full
    | SWoken    // 69, taken out of the wait set, wants the mutex back
    | SCheck    // 71
    | SLeave    // 72
    | SPut      // 75-78
    | SSignal   // 79
    | SUnlock   // 80

  /** worker, lines 83-102. */
  datatype WorkPc =
    | WLock     // 86
    | WTest     // 87
    | WWait     // 88, in the wait set of queue_not_empty
    | WWoken    // 88, taken out of the wait set, wants the mutex back
    | WCheck    // 90
    | WLeave    // 91
    | WTake     // 94-96
    | WSignal   // 97
    | WUnlock   // 98
    | WRun      // 99, about to call the task
    | WBusy     // 99, inside the task
    | WExited   // after 92

  /** thread_pool_destroy, lines 104-118. */
  datatype DestroyPc =
    | DOut
    | DLock           // 105
    | DFlag           // 106
    | DWakeWorkers    // 107
    | DWakeSubmitters // only in the variants that wake submitters
    | DUnlock         // 108
    | DJoin(k: nat)   // 109-110
    | DFree           // 112-117
    | DDone

  /**
   The pool. `arg[i]` is the task submitter i is submitting, `local[j]` the variable `task` of
   worker j. The last four fields record history: the tasks ever passed to submit, the accepted
   ones, the ones removed from the queue, and the ones started, each in order.
   */
  datatype State = State(
    ring: Ring<Task>,
    shutdown: bool,
    owner: Owner,
    spc: seq<SubmitPc>,
    arg: seq<Task>,
    wpc: seq<WorkPc>,
    local: seq<Task>,
    dpc: DestroyPc,
    called: set<Task>,
    accepted: seq<Task>,
    taken: seq<Task>,
    started: seq<Task>)

  /** thread_pool_init, lines 50-64: an empty queue and every worker at the top of its loop. */
  predicate IsInit(c: Config, s: State) {
    && s.ring.head == s.ring.tail == s.ring.count == 0
    && |s.ring.buf| == c.capacity
    && !s.shutdown
    && s.owner == Free
    && |s.spc| == |s.arg| == c.submitters
    && (forall i :: 0 <= i < |s.spc| ==> s.spc[i] == SOut)
    && |s.wpc| == |s.local| == c.workers
    && (forall i :: 0 <= i < |s.wpc| ==> s.wpc[i] == WLock)
    && s.dpc == DOut
    && s.called == {}
    && s.accepted == s.taken == s.started == []
  }

  /** Lines 112-117 have been executed: the queue, the mutex and the condition variables are gone. */
  predicate Freed(s: State) {
    s.dpc == DDone
  }

  /** One step of submitter i; `wake` is the set of workers that its signal releases. */
  function SubmitterNext(c: Config, s: State, i: nat, wake: set<nat>): Option<State> {
    if i >= |s.spc| || i >= |s.arg| || Freed(s) then None else
    match s.spc[i]
    case SOut => None
    case SLock | SWoken =>
      if s.owner != Free then None
      else Some(s.(owner := Submitter(i), spc := s.spc[i := STest]))
    case STest =>
      if s.ring.count == c.capacity && !s.shutdown
      then Some(s.(owner := Free, spc := s.spc[i := SWait]))
      else Some(s.(spc := s.spc[i := SCheck]))
    case SWait => None
    case SCheck =>
      Some(s.(spc := s.spc[i := if s.shutdown then SLeave else SPut]))
    case SLeave =>
      Some(s.(owner := Free, spc := s.spc[i := SOut]))
    case SPut =>
      if !(0 <= s.ring.tail < |s.ring.buf|) then None
      else Some(s.(ring := s.ring.Put(s.arg[i]), accepted := s.accepted + [s.arg[i]], spc := s.spc[i := SSignal]))
    case SSignal =>
      if !LegalSignal(s.wpc, WWait, wake) then None
      else Some(s.(wpc := Wake(s.wpc, wake, WWoken), spc := s.spc[i := SUnlock]))
    case SUnlock =>
      Some(s.(owner := Free, spc := s.spc[i := SOut]))
  }

  /** Only outside the pool, in its task, can a worker go on when the pool has been freed. */
  predicate InTask(pc: WorkPc) {
    pc.WRun? || pc.WBusy?
  }

  /** One step of worker i; `wake` is the set of submitters that its signal releases. */
  function WorkerNext(c: Config, s: State, i: nat, wake: set<nat>): Option<State> {
    if i >= |s.wpc| || i >= |s.local| || (Freed(s) && !InTask(s.wpc[i])) then None else
    match s.wpc[i]
    case WLock | WWoken =>
      if s.owner != Free then None
      else Some(s.(owner := Worker(i), wpc := s.wpc[i := WTest]))
    case WTest =>
      if s.ring.count == 0 && !s.shutdown
      then Some(s.(owner := Free, wpc := s.wpc[i := WWait]))
      else Some(s.(wpc := s.wpc[i := WCheck]))
    case WWait => None
    case WCheck =>
      Some(s.(wpc := s.wpc[i := if s.shutdown then WLeave else WTake]))
    case WLeave =>
      Some(s.(owner := Free, wpc := s.wpc[i := WExited]))
    case WTake =>
      if !(0 <= s.ring.head < |s.ring.buf|) then None
      else
        var task := s.ring.buf[s.ring.head];
        Some(s.(ring := s.ring.Take(), local := s.local[i := task], taken := s.taken + [task],
                wpc := s.wpc[i := WSignal]))
    case WSignal =>
      if !LegalSignal(s.spc, SWait, wake) then None
      else Some(s.(spc := Wake(s.spc, wake, SWoken), wpc := s.wpc[i := WUnlock]))
    case WUnlock =>
      Some(s.(owner := Free, wpc := s.wpc[i := WRun]))
    case WRun =>
      Some(s.(started := s.started + [s.local[i]], wpc := s.wpc[i := WBusy]))
    case WBusy =>
      Some(s.(wpc := s.wpc[i := WLock]))
    case WExited => None
  }

  /** No submitter is inside a call. */
  predicate AllOut(spc: seq<SubmitPc>) {
    forall i :: 0 <= i < |spc| ==> spc[i] == SOut
  }

  /**
   One step of the destroying thread. Joining a worker waits for its exit. A join on a slot of
   `threads` in which init stored no thread has no defined result; the model lets it wait for ever.
   */
  function DestroyerNext(c: Config, s: State): Option<State> {
    match s.dpc
    case DOut => None
    case DLock =>
      if s.owner != Free then None else Some(s.(owner := Destroyer, dpc := DFlag))
    case DFlag =>
      Some(s.(shutdown := true, dpc := DWakeWorkers))
    case DWakeWorkers =>
      Some(s.(wpc := Wake(s.wpc, Waiters(s.wpc, WWait), WWoken),
              dpc := if c.variant == AsWritten then DUnlock else DWakeSubmitters))
    case DWakeSubmitters =>
      Some(s.(spc := Wake(s.spc, Waiters(s.spc, SWait), SWoken), dpc := DUnlock))
    case DUnlock =>
      Some(s.(owner := Free, dpc := DJoin(0)))
    case DJoin(k) =>
      if k >= c.poolSize then Some(s.(dpc := DFree))
      else if k < |s.wpc| && s.wpc[k] == WExited then Some(s.(dpc := DJoin(k + 1)))
      else None
    case DFree =>
      if c.variant == WakesAndDrains && !AllOut(s.spc) then None else Some(s.(dpc := DDone))
    case DDone => None
  }

  /**
   What can happen next: a step of a thread, a call of submit or destroy by the program that uses
   the pool, or a spurious wakeup. Every submitted task is a new one; destroy is called once. Once the
   pool has been freed, a call and a step on its mutex have no defined effect, hence no successor.
   */
  datatype Step =
    | Submit(i: nat, wake: set<nat>)
    | Work(i: nat, wake: set<nat>)
    | Destroy
    | CallSubmit(i: nat, task: Task)
    | CallDestroy
    | SpuriousSubmitter(i: nat)
    | SpuriousWorker(i: nat)

  function Next(c: Config, s: State, step: Step): Option<State> {
    match step
    case Submit(i, wake) => SubmitterNext(c, s, i, wake)
    case Work(i, wake) => WorkerNext(c, s, i, wake)
    case Destroy => DestroyerNext(c, s)
    case CallSubmit(i, task) =>
      if !Freed(s) && i < |s.spc| && i < |s.arg| && s.spc[i] == SOut && task !in s.called
      then Some(s.(spc := s.spc[i := SLock], arg := s.arg[i := task], called := s.called + {task}))
      else None
    case CallDestroy =>
      if s.dpc == DOut then Some(s.(dpc := DLock)) else None
    case SpuriousSubmitter(i) =>
      if !Freed(s) && i < |s.spc| && s.spc[i] == SWait then Some(s.(spc := s.spc[i := SWoken])) else None
    case SpuriousWorker(i) =>
      if !Freed(s) && i < |s.wpc| && s.wpc[i] == WWait then Some(s.(wpc := s.wpc[i := WWoken])) else None
  }

  /** Steps taken by the threads of the pool themselves. */
  predicate ThreadStep(step: Step) {
    step.Submit? || step.Work? || step.Destroy?
  }

  predicate Spurious(step: Step) {
    step.SpuriousSubmitter? || step.SpuriousWorker?
  }

  /** The machine of a configuration. */
  function Machine(c: Config): (State, Step) -> Option<State> {
    (s: State, step: Step) => Next(c, s, step)
  }

  ghost predicate Legal(c: Config, s: State, run: seq<Step>) {
    LegalRun(Machine(c), s, run)
  }

  ghost function Exec(c: Config, s: State, run: seq<Step>): State
    requires Legal(c, s, run)
  {
    After(Machine(c), s, run)
  }

  lemma Then(c: Config, s: State, run: seq<Step>, step: Step)
    requires Legal(c, s, run) && Next(c, Exec(c, s, run), step).Some?
    ensures Legal(c, s, run + [step])
    ensures Exec(c, s, run + [step]) == Next(c, Exec(c, s, run), step).value
  {
    Extend(Machine(c), s, run, step);
  }

  lemma ThenRun(c: Config, s: State, run: seq<Step>, more: seq<Step>)
    requires Legal(c, s, run) && Legal(c, Exec(c, s, run), more)
    ensures Legal(c, s, run + more)
    ensures Exec(c, s, run + more) == Exec(c, Exec(c, s, run), more)
  {
    Concat(Machine(c), s, run, more);
  }

  ghost predicate Reachable(c: Config, s: State) {
    exists s0, run :: IsInit(c, s0) && Legal(c, s0, run) && Exec(c, s0, run) == s
  }

  /** No thread of the pool can take a step. */
  ghost predicate Stuck(c: Config, s: State) {
    forall step :: ThreadStep(step) ==> Next(c, s, step).None?
  }
}
