/**
 The struct `thread_pool_t` of pthreads/pthreads10.c and the code of its functions, updating the
 struct in place, one program point at a time. `Valid` contains the invariant of the machine
 ShutdownPool. A method named Line is the code at one program point and has only the preconditions
 without which that code is undefined; the method named Step shows that `Valid` implies them, that
 the code does the step of the machine and that it keeps `Valid`. `ran` is false when the thread is
 blocked, or not in the function at all.
 */
module ShutdownPoolObject {
  import opened Threads
  import opened Ring
  import opened Tasks
  import opened ShutdownPool
  import opened ShutdownPoolSafety

  /** At line 75 `tail` is an index of `tasks`. */
  lemma StoreInBounds(c: Config, s: State, i: nat)
    requires Inv(c, s) && i < |s.spc|
    ensures s.spc[i] == SPut ==> 0 <= s.ring.tail < |s.ring.buf|
  {
  }

  /** At line 94 `head` is an index of `tasks`. */
  lemma RemoveInBounds(c: Config, s: State, i: nat)
    requires Inv(c, s) && i < |s.wpc|
    ensures s.wpc[i] == WTake ==> 0 <= s.ring.head < |s.ring.buf|
  {
  }

  class ThreadPool {
    const config: Config

    // the struct, lines 25-36
    const tasks: array<Task>
    var head: int
    var tail: int
    var count: int
    var shutdown: bool
    var queueMutex: Owner

    // the threads that use it, with their program counters and local variables
    var submitters: seq<SubmitPc>
    var argument: seq<Task>
    var workers: seq<WorkPc>
    var task: seq<Task>
    var destroyer: DestroyPc

    ghost var called: set<Task>
    ghost var accepted: seq<Task>
    ghost var taken: seq<Task>
    ghost var started: seq<Task>

    ghost predicate Valid()
      reads this, tasks
    {
      tasks.Length == config.capacity && Inv(config, Abs())
    }

    ghost function Abs(): State
      reads this, tasks
    {
      State(Ring(tasks[..], head, tail, count), shutdown, queueMutex, submitters, argument,
            workers, task, destroyer, called, accepted, taken, started)
    }

    constructor (c: Config)
      ensures config == c && Valid() && fresh(tasks)
      ensures IsInit(c, Abs())
    {
      config := c;
      tasks := new Task[c.capacity];
      head, tail, count := 0, 0, 0;
      shutdown, queueMutex := false, Free;
      submitters, argument := seq(c.submitters, i => SOut), seq(c.submitters, i => 0);
      workers, task := seq(c.workers, i => WLock), seq(c.workers, i => 0);
      destroyer := DOut;
      called, accepted, taken, started := {}, [], [], [];
      new;
      InitInv(c, Abs());
    }

    /** Lines 75-78. */
    method Enqueue(i: nat)
      requires tasks.Length == config.capacity && 0 <= tail < tasks.Length && destroyer != DDone
      requires i < |submitters| && i < |argument| && submitters[i] == SPut
      modifies this, tasks
      ensures Some(Abs()) == SubmitterNext(config, old(Abs()), i, {})
    {
      tasks[tail] := argument[i];
      tail := (tail + 1) % config.capacity;
      count := count + 1;
      accepted := accepted + [argument[i]];
      submitters := submitters[i := SSignal];
    }

    /** Lines 94-96. */
    method Dequeue(i: nat)
      requires tasks.Length == config.capacity && 0 <= head < tasks.Length && destroyer != DDone
      requires i < |workers| && i < |task| && workers[i] == WTake
      modifies this
      ensures Some(Abs()) == WorkerNext(config, old(Abs()), i, {})
    {
      var next := tasks[head];
      task := task[i := next];
      head := (head + 1) % config.capacity;
      count := count - 1;
      taken := taken + [next];
      workers := workers[i := WSignal];
    }

    /** The line of thread_pool_submit at which submitter i is. */
    method SubmitLine(i: nat, wake: set<nat>) returns (ran: bool)
      requires tasks.Length == config.capacity && destroyer != DDone
      requires i < |submitters| && i < |argument|
      requires submitters[i] == SPut ==> 0 <= tail < tasks.Length
      requires submitters[i] == SSignal ==> LegalSignal(workers, WWait, wake)
      modifies this, tasks
      ensures ran == SubmitterNext(config, old(Abs()), i, wake).Some?
      ensures Abs() == if ran then SubmitterNext(config, old(Abs()), i, wake).value else old(Abs())
    {
      ran := true;
      match submitters[i] {
        case SOut | SWait =>
          ran := false;
        case SLock | SWoken =>
          if queueMutex != Free {
            return false;
          }
          queueMutex, submitters := Submitter(i), submitters[i := STest];
        case STest =>
          if count == config.capacity && !shutdown {
            queueMutex, submitters := Free, submitters[i := SWait];
          } else {
            submitters := submitters[i := SCheck];
          }
        case SCheck =>
          if shutdown {
            submitters := submitters[i := SLeave];
          } else {
            submitters := submitters[i := SPut];
          }
        case SLeave | SUnlock =>
          queueMutex, submitters := Free, submitters[i := SOut];
        case SPut =>
          Enqueue(i);
        case SSignal =>
          workers := Wake(workers, wake, WWoken);
          submitters := submitters[i := SUnlock];
      }
    }

    /** Submitter i, in a pool that has not been freed, goes from one program point to the next. */
    method SubmitStep(i: nat, wake: set<nat>) returns (ran: bool)
      requires Valid() && i < config.submitters && destroyer != DDone
      requires submitters[i] == SSignal ==> LegalSignal(workers, WWait, wake)
      modifies this, tasks
      ensures Valid()
      ensures ran == SubmitterNext(config, old(Abs()), i, wake).Some?
      ensures Abs() == if ran then SubmitterNext(config, old(Abs()), i, wake).value else old(Abs())
    {
      ghost var s := Abs();
      StoreInBounds(config, s, i);
      ran := SubmitLine(i, wake);
      if ran {
        InvSubmit(config, s, i, wake);
      }
    }

    /** The line of worker at which worker i is. */
    method WorkLine(i: nat, wake: set<nat>) returns (ran: bool)
      requires tasks.Length == config.capacity
      requires i < |workers| && i < |task| && (destroyer == DDone ==> InTask(workers[i]))
      requires workers[i] == WTake ==> 0 <= head < tasks.Length
      requires workers[i] == WSignal ==> LegalSignal(submitters, SWait, wake)
      modifies this
      ensures ran == WorkerNext(config, old(Abs()), i, wake).Some?
      ensures Abs() == if ran then WorkerNext(config, old(Abs()), i, wake).value else old(Abs())
    {
      ran := true;
      match workers[i] {
        case WWait | WExited =>
          ran := false;
        case WLock | WWoken =>
          if queueMutex != Free {
            return false;
          }
          queueMutex, workers := Worker(i), workers[i := WTest];
        case WTest =>
          if count == 0 && !shutdown {
            queueMutex, workers := Free, workers[i := WWait];
          } else {
            workers := workers[i := WCheck];
          }
        case WCheck =>
          if shutdown {
            workers := workers[i := WLeave];
          } else {
            workers := workers[i := WTake];
          }
        case WLeave =>
          queueMutex, workers := Free, workers[i := WExited];
        case WTake =>
          Dequeue(i);
        case WSignal =>
          submitters := Wake(submitters, wake, SWoken);
          workers := workers[i := WUnlock];
        case WUnlock =>
          queueMutex, workers := Free, workers[i := WRun];
        case WRun =>
          started := started + [task[i]];
          workers := workers[i := WBusy];
        case WBusy =>
          workers := workers[i := WLock];
      }
    }

    /** Worker i goes from one program point to the next; in a freed pool only inside its task. */
    method WorkStep(i: nat, wake: set<nat>) returns (ran: bool)
      requires Valid() && i < config.workers && (destroyer == DDone ==> InTask(workers[i]))
      requires workers[i] == WSignal ==> LegalSignal(submitters, SWait, wake)
      modifies this
      ensures Valid()
      ensures ran == WorkerNext(config, old(Abs()), i, wake).Some?
      ensures Abs() == if ran then WorkerNext(config, old(Abs()), i, wake).value else old(Abs())
    {
      ghost var s := Abs();
      RemoveInBounds(config, s, i);
      ran := WorkLine(i, wake);
      if ran {
        InvWork(config, s, i, wake);
      }
    }

    /** The line of thread_pool_destroy at which the destroyer is. */
    method DestroyLine() returns (ran: bool)
      modifies this
      ensures ran == DestroyerNext(config, old(Abs())).Some?
      ensures Abs() == if ran then DestroyerNext(config, old(Abs())).value else old(Abs())
    {
      ran := true;
      match destroyer {
        case DOut | DDone =>
          ran := false;
        case DLock =>
          if queueMutex != Free {
            return false;
          }
          queueMutex, destroyer := Destroyer, DFlag;
        case DFlag =>
          shutdown, destroyer := true, DWakeWorkers;
        case DWakeWorkers =>
          workers := Wake(workers, Waiters(workers, WWait), WWoken);
          destroyer := if config.variant == AsWritten then DUnlock else DWakeSubmitters;
        case DWakeSubmitters =>
          submitters := Wake(submitters, Waiters(submitters, SWait), SWoken);
          destroyer := DUnlock;
        case DUnlock =>
          queueMutex, destroyer := Free, DJoin(0);
        case DJoin(k) =>
          if k >= config.poolSize {
            destroyer := DFree;
          } else if k < |workers| && workers[k] == WExited {
            destroyer := DJoin(k + 1);
          } else {
            ran := false;
          }
        case DFree =>
          if config.variant == WakesAndDrains && !AllOut(submitters) {
            return false;
          }
          destroyer := DDone;
      }
    }

    /** The destroyer goes from one program point to the next. */
    method DestroyStep() returns (ran: bool)
      requires Valid()
      modifies this
      ensures Valid()
      ensures ran == DestroyerNext(config, old(Abs())).Some?
      ensures Abs() == if ran then DestroyerNext(config, old(Abs())).value else old(Abs())
    {
      ghost var s := Abs();
      ran := DestroyLine();
      if ran {
        InvDestroy(config, s);
      }
    }

    /** A program calls submit with a new task, calls destroy, or a wait returns without a signal. */
    method CallLine(step: Step) returns (ran: bool)
      requires !ThreadStep(step) && |submitters| == |argument|
      requires !step.CallDestroy? ==> destroyer != DDone
      requires step.CallSubmit? ==> step.i < |submitters| && step.task !in called
      requires step.SpuriousSubmitter? ==> step.i < |submitters|
      requires step.SpuriousWorker? ==> step.i < |workers|
      modifies this
      ensures ran == Next(config, old(Abs()), step).Some?
      ensures Abs() == if ran then Next(config, old(Abs()), step).value else old(Abs())
    {
      match step {
        case CallSubmit(i, newTask) =>
          ran := submitters[i] == SOut;
          if ran {
            submitters, argument := submitters[i := SLock], argument[i := newTask];
            called := called + {newTask};
          }
        case CallDestroy =>
          ran := destroyer == DOut;
          if ran {
            destroyer := DLock;
          }
        case SpuriousSubmitter(i) =>
          ran := submitters[i] == SWait;
          if ran {
            submitters := submitters[i := SWoken];
          }
        case SpuriousWorker(i) =>
          ran := workers[i] == WWait;
          if ran {
            workers := workers[i := WWoken];
          }
        case Submit(_, _) | Work(_, _) | Destroy =>
          assert false;
      }
    }

    method Call(step: Step) returns (ran: bool)
      requires Valid() && !ThreadStep(step)
      requires !step.CallDestroy? ==> destroyer != DDone
      requires step.CallSubmit? ==> step.i < config.submitters && step.task !in called
      requires step.SpuriousSubmitter? ==> step.i < config.submitters
      requires step.SpuriousWorker? ==> step.i < config.workers
      modifies this
      ensures Valid()
      ensures ran == Next(config, old(Abs()), step).Some?
      ensures Abs() == if ran then Next(config, old(Abs()), step).value else old(Abs())
    {
      ghost var s := Abs();
      ran := CallLine(step);
      if ran {
        InvCall(config, s, step);
      }
    }
  }
}
