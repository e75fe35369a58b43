/**
 The struct `thread_pool_t` of pthreads/pthreads6.c and the code of its functions, updating the
 struct in place, one program point at a time, proved against the state machine of GrowingPool. The
 conventions are those of ShutdownPoolObject.
 */
module GrowingPoolObject {
  import opened Threads
  import opened Ring
  import opened Tasks
  import opened GrowingPool
  import opened GrowingPoolSafety

  /** How many calls of pthread_create succeed. */
  function Successes(outcomes: seq<bool>): nat {
    if outcomes == [] then 0
    else Successes(outcomes[..|outcomes| - 1]) + if outcomes[|outcomes| - 1] then 1 else 0
  }

  function Min(a: nat, b: nat): nat {
    if a < b then a else b
  }

  /** In lines 99-105, or in add_worker. */
  predicate AtGrowth(pc: SubmitPc) {
    pc.SGrow? || pc.SLockPool? || HoldsPool(pc)
  }

  /** At line 93 `tail` is an index of `tasks`; at line 122 `num_threads` is one of `threads`. */
  lemma StoreInBounds(c: Config, s: State, i: nat)
    requires Inv(c, s) && i < |s.spc|
    ensures s.spc[i] == SPut ==> 0 <= s.ring.tail < |s.ring.buf|
    ensures s.spc[i] == SCreate ==> s.num < |s.handles|
  {
  }

  /** At line 153 `head` is an index of `tasks`. */
  lemma RemoveInBounds(c: Config, s: State, i: nat)
    requires Inv(c, s) && i < |s.wpc|
    ensures s.wpc[i] == WTake ==> 0 <= s.ring.head < |s.ring.buf|
  {
  }

  class ThreadPool {
    const config: Config

    // the struct, lines 15-29
    const tasks: array<Task>
    var head: int
    var tail: int
    var count: int
    var queueMutex: Owner
    const threads: array<nat>
    var numThreads: nat
    var poolMutex: Owner

    // the threads that use it, with their program counters and local variables
    var submitters: seq<SubmitPc>
    var argument: seq<Task>
    var workers: seq<WorkPc>
    var task: seq<Task>
    var destroyer: DestroyPc

    ghost var called: set<Task>
    ghost var accepted: seq<Task>
    ghost var taken: seq<Task>
    ghost var started: seq<Task>
    ghost var returned: nat

    /** The arrays that init allocates. */
    ghost predicate Allocated() {
      tasks.Length == config.capacity && threads.Length == config.maxThreads && tasks != threads
    }

    ghost predicate Valid()
      reads this, tasks, threads
    {
      Allocated() && Inv(config, Abs())
    }

    ghost function Abs(): State
      reads this, tasks, threads
    {
      State(Ring(tasks[..], head, tail, count), threads[..], numThreads, queueMutex, poolMutex,
            submitters, argument, workers, task, destroyer, called, accepted, taken, started, returned)
    }

    /**
     thread_pool_init, run by the thread that later destroys the pool: one attempt per initial thread; a
     failed attempt leaves the pool with one thread less. `outcomes[k]` tells whether pthread_create
     succeeds in attempt k.
     */
    constructor (c: Config, outcomes: seq<bool>, junk: nat)
      ensures config == c && Valid() && fresh(tasks) && fresh(threads)
      ensures IsInit(c, Abs())
      ensures numThreads == Min(Successes(outcomes), c.maxThreads)
    {
      config := c;
      tasks := new Task[c.capacity];
      head, tail, count := 0, 0, 0;
      queueMutex, poolMutex := Free, Free;
      numThreads := 0;
      threads := new nat[c.maxThreads];
      submitters, argument := seq(c.submitters, i => SOut), seq(c.submitters, i => 0);
      workers, task := [], [];
      destroyer := DOut;
      called, accepted, taken, started, returned := {}, [], [], [], 0;
      new;
      StartWorkers(outcomes, junk);
      InitInv(c, Abs());
    }

    /** The loop of thread_pool_init, lines 68-73. */
    method StartWorkers(outcomes: seq<bool>, junk: nat)
      requires Allocated() && poolMutex == Free
      requires numThreads == 0 && workers == [] && task == []
      modifies this`numThreads, this`workers, this`task, this`poolMutex, threads
      ensures poolMutex == Free
      ensures numThreads == |workers| == |task| <= threads.Length
      ensures forall k :: 0 <= k < numThreads ==> threads[k] == k && workers[k] == WLock
      ensures numThreads == Min(Successes(outcomes), config.maxThreads)
    {
      for i := 0 to |outcomes|
        invariant poolMutex == Free
        invariant numThreads == |workers| == |task| <= threads.Length
        invariant forall k :: 0 <= k < numThreads ==> threads[k] == k && workers[k] == WLock
        invariant numThreads == Min(Successes(outcomes[..i]), config.maxThreads)
      {
        assert outcomes[..i + 1][..i] == outcomes[..i];
        var r := AddWorker(Destroyer, outcomes[i], junk);
      }
      assert outcomes[..|outcomes|] == outcomes;
    }

    /** add_worker, called with `pool_mutex` free: all of lines 120-133 in one go. */
    method AddWorker(caller: Owner, created: bool, junk: nat) returns (r: int)
      requires Allocated() && poolMutex == Free && numThreads <= config.maxThreads
      requires |workers| == |task| == numThreads
      modifies this`numThreads, this`workers, this`task, this`poolMutex, threads
      ensures r == if old(numThreads) < config.maxThreads && created then 0 else -1
      ensures poolMutex == Free
      ensures r == 0 ==>
        && numThreads == old(numThreads) + 1
        && workers == old(workers) + [WLock] && task == old(task) + [0]
        && threads[..] == old(threads[..])[old(numThreads) := |old(workers)|]
      ensures r == -1 ==>
        && numThreads == old(numThreads) && workers == old(workers) && task == old(task)
        && threads[..numThreads] == old(threads[..numThreads])
    {
      poolMutex := caller;
      if numThreads < config.maxThreads {
        if created {
          threads[numThreads] := |workers|;
          workers, task := workers + [WLock], task + [0];
          numThreads := numThreads + 1;
          poolMutex := Free;
          return 0;
        } else {
          threads[numThreads] := junk;
          poolMutex := Free;
          return -1;
        }
      }
      poolMutex := Free;
      return -1;
    }

    /** Lines 93-96. */
    method Enqueue(i: nat, x: Choice)
      requires Allocated() && 0 <= tail < tasks.Length && destroyer != DDone
      requires i < |submitters| && i < |argument| && submitters[i] == SPut
      modifies this, tasks
      ensures Some(Abs()) == SubmitterNext(config, old(Abs()), i, x)
    {
      tasks[tail] := argument[i];
      tail := (tail + 1) % config.capacity;
      count := count + 1;
      accepted := accepted + [argument[i]];
      submitters := submitters[i := SSignal];
    }

    /** Lines 153-155. */
    method Dequeue(i: nat, x: Choice)
      requires Allocated() && 0 <= head < tasks.Length && destroyer != DDone
      requires i < |workers| && i < |task| && workers[i] == WTake
      modifies this
      ensures Some(Abs()) == WorkerNext(config, old(Abs()), i, x)
    {
      var next := tasks[head];
      task := task[i := next];
      head := (head + 1) % config.capacity;
      count := count - 1;
      taken := taken + [next];
      workers := workers[i := WSignal];
    }

    /** Line 122. */
    method CreateThread(i: nat, x: Choice)
      requires Allocated() && numThreads < threads.Length && destroyer != DDone
      requires i < |submitters| && i < |argument| && submitters[i] == SCreate
      modifies this, threads
      ensures Some(Abs()) == SubmitterNext(config, old(Abs()), i, x)
    {
      if x.created {
        threads[numThreads] := |workers|;
        workers, task := workers + [WLock], task + [0];
        submitters := submitters[i := SCount];
      } else {
        threads[numThreads] := x.junk;
        submitters := submitters[i := AfterAdd(config)];
      }
    }

    /** The line of thread_pool_submit at which submitter i is, outside lines 99-105. */
    method SubmitLine(i: nat, x: Choice) returns (ran: bool)
      requires Allocated() && destroyer != DDone
      requires i < |submitters| && i < |argument| && !AtGrowth(submitters[i])
      requires submitters[i] == SPut ==> 0 <= tail < tasks.Length
      requires submitters[i] == SSignal ==> LegalSignal(workers, WWait, x.wake)
      modifies this, tasks
      ensures ran == SubmitterNext(config, old(Abs()), i, x).Some?
      ensures Abs() == if ran then SubmitterNext(config, old(Abs()), i, x).value else old(Abs())
    {
      ran := true;
      match submitters[i] {
        case SOut | SWait =>
          ran := false;
        case SLock | SWoken =>
          if queueMutex != Free {
            return false;
          }
          queueMutex, submitters := Submitter(i), submitters[i := STest];
        case STest =>
          if count == config.capacity {
            queueMutex, submitters := Free, submitters[i := SWait];
          } else {
            submitters := submitters[i := SPut];
          }
        case SPut =>
          Enqueue(i, x);
        case SSignal =>
          workers := Wake(workers, x.wake, WWoken);
          submitters := submitters[i := SGrow];
        case SUnlock =>
          queueMutex, submitters := Free, submitters[i := SOut];
          returned := returned + 1;
      }
    }

    /** Lines 99-105 and add_worker inside them. */
    method GrowLine(i: nat, x: Choice) returns (ran: bool)
      requires Allocated() && destroyer != DDone
      requires i < |submitters| && i < |argument| && AtGrowth(submitters[i])
      requires submitters[i] == SCreate ==> numThreads < threads.Length
      modifies this, threads
      ensures ran == SubmitterNext(config, old(Abs()), i, x).Some?
      ensures Abs() == if ran then SubmitterNext(config, old(Abs()), i, x).value else old(Abs())
    {
      ran := true;
      var pc := submitters[i];
      if pc == SGrow {
        if count == config.capacity && numThreads < config.maxThreads {
          submitters := submitters[i := SLockPool];
        } else {
          submitters := submitters[i := SUnlock];
        }
      } else if pc == SLockPool || pc == SRelock {
        if poolMutex != Free {
          return false;
        }
        poolMutex := Submitter(i);
        submitters := submitters[i := if pc == SLockPool then SRecheck else SBelowMax];
      } else if pc == SRecheck {
        if numThreads >= config.maxThreads {
          submitters := submitters[i := SUnlockPool];
        } else {
          submitters := submitters[i := if config.variant == AsWritten then SRelock else SBelowMax];
        }
      } else if pc == SBelowMax {
        submitters := submitters[i := if numThreads < config.maxThreads then SCreate else AfterAdd(config)];
      } else if pc == SCreate {
        CreateThread(i, x);
      } else if pc == SCount {
        numThreads := numThreads + 1;
        submitters := submitters[i := AfterAdd(config)];
      } else {
        poolMutex := Free;
        submitters := submitters[i := if pc == SUnlockInner then SUnlockPool else SUnlock];
      }
    }

    /** Submitter i, in a pool that has not been freed, goes from one program point to the next. */
    method SubmitStep(i: nat, x: Choice) returns (ran: bool)
      requires Valid() && i < config.submitters && destroyer != DDone
      requires submitters[i] == SSignal ==> LegalSignal(workers, WWait, x.wake)
      modifies this, tasks, threads
      ensures Valid()
      ensures ran == SubmitterNext(config, old(Abs()), i, x).Some?
      ensures Abs() == if ran then SubmitterNext(config, old(Abs()), i, x).value else old(Abs())
    {
      ghost var s := Abs();
      StoreInBounds(config, s, i);
      if AtGrowth(submitters[i]) {
        ran := GrowLine(i, x);
      } else {
        ran := SubmitLine(i, x);
      }
      if ran {
        InvSubmit(config, s, i, x);
      }
    }

    /** The line of worker at which worker i is. */
    method WorkLine(i: nat, x: Choice) returns (ran: bool)
      requires Allocated()
      requires i < |workers| && i < |task| && (destroyer == DDone ==> InTask(workers[i]))
      requires workers[i] == WTake ==> 0 <= head < tasks.Length
      requires workers[i] == WSignal ==> LegalSignal(submitters, SWait, x.wake)
      modifies this
      ensures ran == WorkerNext(config, old(Abs()), i, x).Some?
      ensures Abs() == if ran then WorkerNext(config, old(Abs()), i, x).value else old(Abs())
    {
      ran := true;
      match workers[i] {
        case WWait =>
          ran := false;
        case WLock | WWoken =>
          if queueMutex != Free {
            return false;
          }
          queueMutex, workers := Worker(i), workers[i := WTest];
        case WTest =>
          if count == 0 {
            queueMutex, workers := Free, workers[i := WWait];
          } else {
            workers := workers[i := WTake];
          }
        case WTake =>
          Dequeue(i, x);
        case WSignal =>
          submitters := Wake(submitters, x.wake, SWoken);
          workers := workers[i := WUnlock];
        case WUnlock =>
          queueMutex, workers := Free, workers[i := WRun];
        case WRun =>
          started := started + [task[i]];
          workers := workers[i := WBusy];
        case WBusy =>
          workers := workers[i := WLock];
      }
    }

    /** Worker i goes from one program point to the next; in a freed pool only inside its task. */
    method WorkStep(i: nat, x: Choice) returns (ran: bool)
      requires Valid() && i < |workers| && (destroyer == DDone ==> InTask(workers[i]))
      requires workers[i] == WSignal ==> LegalSignal(submitters, SWait, x.wake)
      modifies this
      ensures Valid()
      ensures ran == WorkerNext(config, old(Abs()), i, x).Some?
      ensures Abs() == if ran then WorkerNext(config, old(Abs()), i, x).value else old(Abs())
    {
      ghost var s := Abs();
      RemoveInBounds(config, s, i);
      ran := WorkLine(i, x);
      if ran {
        InvWork(config, s, i, x);
      }
    }

    /** The line of thread_pool_destroy at which the destroyer is. */
    method DestroyLine() returns (ran: bool)
      modifies this
      ensures ran == DestroyerNext(config, old(Abs())).Some?
      ensures Abs() == if ran then DestroyerNext(config, old(Abs())).value else old(Abs())
    {
      ran := true;
      match destroyer {
        case DOut | DDone =>
          ran := false;
        case DLock =>
          if queueMutex != Free {
            return false;
          }
          queueMutex, destroyer := Destroyer, DWake;
        case DWake =>
          workers := Wake(workers, Waiters(workers, WWait), WWoken);
          destroyer := DUnlock;
        case DUnlock =>
          queueMutex, destroyer := Free, DJoin(0);
        case DJoin(k) =>
          if k < numThreads {
            return false;
          }
          destroyer := DFree;
        case DFree =>
          destroyer := DDone;
      }
    }

    /** The destroyer goes from one program point to the next. */
    method DestroyStep() returns (ran: bool)
      requires Valid()
      modifies this
      ensures Valid()
      ensures ran == DestroyerNext(config, old(Abs())).Some?
      ensures Abs() == if ran then DestroyerNext(config, old(Abs())).value else old(Abs())
    {
      ghost var s := Abs();
      ran := DestroyLine();
      if ran {
        InvDestroy(config, s);
      }
    }

    /** A program calls submit with a new task, calls destroy, or a wait returns without a signal. */
    method CallLine(step: Step) returns (ran: bool)
      requires !ThreadStep(step) && |submitters| == |argument|
      requires !step.CallDestroy? ==> destroyer != DDone
      requires step.CallSubmit? ==> step.i < |submitters| && step.task !in called
      requires step.SpuriousSubmitter? ==> step.i < |submitters|
      requires step.SpuriousWorker? ==> step.i < |workers|
      modifies this
      ensures ran == Next(config, old(Abs()), step).Some?
      ensures Abs() == if ran then Next(config, old(Abs()), step).value else old(Abs())
    {
      match step {
        case CallSubmit(i, newTask) =>
          ran := submitters[i] == SOut;
          if ran {
            submitters, argument := submitters[i := SLock], argument[i := newTask];
            called := called + {newTask};
          }
        case CallDestroy =>
          ran := destroyer == DOut;
          if ran {
            destroyer := DLock;
          }
        case SpuriousSubmitter(i) =>
          ran := submitters[i] == SWait;
          if ran {
            submitters := submitters[i := SWoken];
          }
        case SpuriousWorker(i) =>
          ran := workers[i] == WWait;
          if ran {
            workers := workers[i := WWoken];
          }
        case Submit(_, _) | Work(_, _) | Destroy =>
          assert false;
      }
    }

    method Call(step: Step) returns (ran: bool)
      requires Valid() && !ThreadStep(step)
      requires !step.CallDestroy? ==> destroyer != DDone
      requires step.CallSubmit? ==> step.i < config.submitters && step.task !in called
      requires step.SpuriousSubmitter? ==> step.i < config.submitters
      requires step.SpuriousWorker? ==> step.i < |workers|
      modifies this
      ensures Valid()
      ensures ran == Next(config, old(Abs()), step).Some?
      ensures Abs() == if ran then Next(config, old(Abs()), step).value else old(Abs())
    {
      ghost var s := Abs();
      ran := CallLine(step);
      if ran {
        InvCall(config, s, step);
      }
    }
  }
}
