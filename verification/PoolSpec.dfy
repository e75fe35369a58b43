/**
 The specification that the two thread pools have in common: a bounded first-in first-out queue of tasks
 with submitters on one side and workers on the other. It has no mutexes, no condition variables and no
 program counters; its steps are the events that a program can observe.
 */
module PoolSpec {
  import opened Threads
  import opened Tasks

  /**
   `maxThreads` is the number of workers up to which a submit that fills the queue adds one; `adds` tells
   whether it succeeds in doing so or stops for ever; `closes` tells whether the pool can be closed.
   */
  datatype Rules = Rules(capacity: nat, maxThreads: nat, adds: bool, closes: bool)

  /** What a worker has in its hands. */
  datatype Hand = Empty | Holds(task: Task) | Runs(task: Task)

  /**
   `asked[i]` is the task that submitter i waits to get into the queue; `started` the tasks in the order in
   which they have been started; `filling` a submitter that is adding a worker.
   */
  datatype Pool = Pool(
    queue: seq<Task>, asked: seq<Option<Task>>, hands: seq<Hand>, called: set<Task>, started: seq<Task>,
    filling: Option<nat>, closed: bool)

  datatype Event =
    | Call(i: nat, task: Task)      // submit is called with a new task
    | Accept(i: nat)                // the task enters the queue
    | TurnAway(i: nat)              // submit gives up because the pool is closed
    | Grow(i: nat, created: bool)   // the attempt to add a worker
    | Remove(j: nat)                // a worker takes the oldest task
    | Start(j: nat)
    | Finish(j: nat)
    | Close

  function SpecNext(r: Rules, p: Pool, e: Event): Option<Pool> {
    match e
    case Call(i, task) =>
      if i < |p.asked| && p.asked[i].None? && p.filling != Some(i) && task !in p.called
      then Some(p.(asked := p.asked[i := Some(task)], called := p.called + {task}))
      else None
    case Accept(i) =>
      if i < |p.asked| && p.asked[i].Some? && !p.closed && p.filling.None? && |p.queue| < r.capacity
      then
        var fills := |p.queue| + 1 == r.capacity && |p.hands| < r.maxThreads;
        Some(p.(queue := p.queue + [p.asked[i].value], asked := p.asked[i := None],
                filling := if fills then Some(i) else None))
      else None
    case TurnAway(i) =>
      if i < |p.asked| && p.asked[i].Some? && p.closed then Some(p.(asked := p.asked[i := None])) else None
    case Grow(i, created) =>
      if p.filling == Some(i) && r.adds
      then Some(p.(filling := None, hands := if created then p.hands + [Empty] else p.hands))
      else None
    case Remove(j) =>
      if j < |p.hands| && p.hands[j].Empty? && !p.closed && p.filling.None? && p.queue != []
      then Some(p.(queue := p.queue[1..], hands := p.hands[j := Holds(p.queue[0])]))
      else None
    case Start(j) =>
      if j < |p.hands| && p.hands[j].Holds?
      then Some(p.(hands := p.hands[j := Runs(p.hands[j].task)], started := p.started + [p.hands[j].task]))
      else None
    case Finish(j) =>
      if j < |p.hands| && p.hands[j].Runs? then Some(p.(hands := p.hands[j := Empty])) else None
    case Close =>
      if r.closes && !p.closed then Some(p.(closed := true)) else None
  }

  function Spec(r: Rules): (Pool, Event) -> Option<Pool> {
    (p: Pool, e: Event) => SpecNext(r, p, e)
  }

  /** Nothing asked, queued or held; `workers` workers. */
  function NewPool(submitters: nat, workers: nat): Pool {
    Pool([], seq(submitters, i => None), seq(workers, j => Empty), {}, [], None, false)
  }
}
