/**
 The blocking queue of pthreads/pthreads3.c with its producer and its consumer: n items 1, 2, ..., n
 pass through a circular buffer. Enqueue is code (lines 38-48); dequeue follows the steps listed in
 its comment (lines 54-63). The program uses n = 10 and capacity 5; here both are arbitrary.
 */
module ProducerConsumer {
  import opened Threads
  import opened Runs
  import opened Ring

  datatype Config = Config(n: nat, capacity: nat)

  datatype Owner = Free | Producer | Consumer

  /** bqueue_enqueue inside the loop of producer_thread. */
  datatype ProducerPc =
    | PLoop   // 75
    | PLock   // 39
    | PTest   // 40
    | PWait   // 41, in the wait set of not_full
    | PWoken  // 41, taken out of the wait set, wants the mutex back
    | PPut    // 43-45
    | PSignal // 46
    | PUnlock // 47
    | PDone   // 80

  /** bqueue_dequeue inside the loop of consumer_thread. */
  datatype ConsumerPc =
    | CLoop   // 85
    | CLock   // 54
    | CTest   // 55
    | CWait   // 56, in the wait set of not_empty
    | CWoken  // 56, taken out of the wait set, wants the mutex back
    | CTake   // 58-60
    | CSignal // 61
    | CUnlock // 62
    | CUse    // 63, 87
    | CDone   // 90

  /** `i` and `k` are the loop variables, `item` what dequeue has read, `output` what line 87 has printed. */
  datatype State = State(
    ring: Ring<int>, owner: Owner,
    ppc: ProducerPc, i: int,
    cpc: ConsumerPc, k: int, item: int,
    output: seq<int>)

  predicate IsInit(c: Config, s: State) {
    && s.ring.head == s.ring.tail == s.ring.count == 0
    && |s.ring.buf| == c.capacity
    && s.owner == Free
    && s.ppc == PLoop && s.i == 1
    && s.cpc == CLoop && s.k == 0
    && s.output == []
  }

  function ProducerNext(c: Config, s: State): Option<State> {
    match s.ppc
    case PLoop =>
      Some(s.(ppc := if s.i <= c.n then PLock else PDone))
    case PLock | PWoken =>
      if s.owner != Free then None else Some(s.(owner := Producer, ppc := PTest))
    case PTest =>
      if s.ring.count == c.capacity then Some(s.(owner := Free, ppc := PWait)) else Some(s.(ppc := PPut))
    case PWait => None
    case PPut =>
      if !(0 <= s.ring.tail < |s.ring.buf|) then None
      else Some(s.(ring := s.ring.Put(s.i), ppc := PSignal))
    case PSignal =>
      Some(s.(cpc := if s.cpc == CWait then CWoken else s.cpc, ppc := PUnlock))
    case PUnlock =>
      Some(s.(owner := Free, i := s.i + 1, ppc := PLoop))
    case PDone => None
  }

  function ConsumerNext(c: Config, s: State): Option<State> {
    match s.cpc
    case CLoop =>
      Some(s.(cpc := if s.k < c.n then CLock else CDone))
    case CLock | CWoken =>
      if s.owner != Free then None else Some(s.(owner := Consumer, cpc := CTest))
    case CTest =>
      if s.ring.count == 0 then Some(s.(owner := Free, cpc := CWait)) else Some(s.(cpc := CTake))
    case CWait => None
    case CTake =>
      if !(0 <= s.ring.head < |s.ring.buf|) then None
      else Some(s.(item := s.ring.buf[s.ring.head], ring := s.ring.Take(), cpc := CSignal))
    case CSignal =>
      Some(s.(ppc := if s.ppc == PWait then PWoken else s.ppc, cpc := CUnlock))
    case CUnlock =>
      Some(s.(owner := Free, cpc := CUse))
    case CUse =>
      Some(s.(output := s.output + [s.item], k := s.k + 1, cpc := CLoop))
    case CDone => None
  }

  datatype Step = Produce | Consume | SpuriousProducer | SpuriousConsumer

  function Next(c: Config, s: State, step: Step): Option<State> {
    match step
    case Produce => ProducerNext(c, s)
    case Consume => ConsumerNext(c, s)
    case SpuriousProducer => if s.ppc == PWait then Some(s.(ppc := PWoken)) else None
    case SpuriousConsumer => if s.cpc == CWait then Some(s.(cpc := CWoken)) else None
  }

  /** The machine of a configuration. */
  function Machine(c: Config): (State, Step) -> Option<State> {
    (s: State, step: Step) => Next(c, s, step)
  }

  ghost predicate Legal(c: Config, s: State, run: seq<Step>) {
    LegalRun(Machine(c), s, run)
  }

  ghost function Exec(c: Config, s: State, run: seq<Step>): State
    requires Legal(c, s, run)
  {
    After(Machine(c), s, run)
  }

  // ---------------------------------------------------------------------------------------------
  // The invariant
  // ---------------------------------------------------------------------------------------------

  /** The numbers from a to b. */
  function Numbers(a: int, b: int): (r: seq<int>)
    requires a <= b + 1
    ensures |r| == b + 1 - a
  {
    seq(b + 1 - a, j requires 0 <= j => a + j)
  }

  predicate PHolds(pc: ProducerPc) {
    pc.PTest? || pc.PPut? || pc.PSignal? || pc.PUnlock?
  }

  predicate CHolds(pc: ConsumerPc) {
    pc.CTest? || pc.CTake? || pc.CSignal? || pc.CUnlock?
  }

  /** How many items the producer has stored, and how many the consumer has removed. */
  function Stored(s: State): int {
    if s.ppc.PSignal? || s.ppc.PUnlock? then s.i else s.i - 1
  }

  predicate Carrying(pc: ConsumerPc) {
    pc.CSignal? || pc.CUnlock? || pc.CUse?
  }

  function Removed(s: State): int {
    if Carrying(s.cpc) then s.k + 1 else s.k
  }

  ghost predicate MutexInv(s: State) {
    && (PHolds(s.ppc) <==> s.owner == Producer)
    && (CHolds(s.cpc) <==> s.owner == Consumer)
    && (s.ppc == PPut ==> s.ring.count < |s.ring.buf|)
    && (s.cpc == CTake ==> s.ring.count > 0)
  }

  ghost predicate LoopInv(c: Config, s: State) {
    && 1 <= s.i <= c.n + 1 && 0 <= s.k <= c.n
    && (s.ppc == PDone ==> s.i == c.n + 1)
    && (!s.ppc.PLoop? && !s.ppc.PDone? ==> s.i <= c.n)
    && (s.cpc == CDone ==> s.k == c.n)
    && (!s.cpc.CLoop? && !s.cpc.CDone? ==> s.k < c.n)
  }

  /** The queue holds what was stored and not removed; the output is what was removed and printed. */
  ghost predicate DataInv(c: Config, s: State) {
    && s.ring.Valid() && |s.ring.buf| == c.capacity
    && 0 <= s.k <= Removed(s) <= Stored(s)
    && s.ring.Contents() == Numbers(Removed(s) + 1, Stored(s))
    && s.output == Numbers(1, s.k)
    && (Carrying(s.cpc) ==> s.item == s.k + 1)
  }

  /** Who sleeps has nothing to do, unless the other thread is about to signal. */
  ghost predicate WakeInv(s: State) {
    && (s.cpc == CWait && s.ppc != PSignal ==> s.ring.count == 0)
    && (s.ppc == PWait && s.cpc != CSignal ==> s.ring.count == |s.ring.buf|)
  }

  ghost predicate Inv(c: Config, s: State) {
    MutexInv(s) && LoopInv(c, s) && DataInv(c, s) && WakeInv(s)
  }

  lemma InitInv(c: Config, s: State)
    requires IsInit(c, s)
    ensures Inv(c, s)
  {
  }

  lemma PutStep(c: Config, s: State)
    requires Inv(c, s) && s.ppc == PPut && ProducerNext(c, s).Some?
    ensures DataInv(c, ProducerNext(c, s).value)
  {
    PutAppends(s.ring, s.i);
    assert Numbers(Removed(s) + 1, Stored(s)) + [s.i] == Numbers(Removed(s) + 1, s.i);
  }

  lemma TailOfNumbers(a: int, b: int)
    requires a <= b
    ensures Numbers(a, b) == [a] + Numbers(a + 1, b)
  {
  }

  lemma TakeStep(c: Config, s: State)
    requires MutexInv(s) && DataInv(c, s) && s.cpc == CTake && ConsumerNext(c, s).Some?
    ensures DataInv(c, ConsumerNext(c, s).value)
  {
    TakeRemovesOldest(s.ring);
    TailOfNumbers(s.k + 1, Stored(s));
    var next, rest := s.ring.buf[s.ring.head], s.ring.Take().Contents();
    assert [next] + rest == [s.k + 1] + Numbers(s.k + 2, Stored(s));
    assert next == ([next] + rest)[0] && rest == ([next] + rest)[1..];
    assert Numbers(s.k + 2, Stored(s)) == ([s.k + 1] + Numbers(s.k + 2, Stored(s)))[1..];
  }

  lemma UseStep(c: Config, s: State)
    requires Inv(c, s) && s.cpc == CUse
    ensures DataInv(c, ConsumerNext(c, s).value)
  {
    assert Numbers(1, s.k) + [s.k + 1] == Numbers(1, s.k + 1);
  }

  /** Every other step leaves the queue and what was stored, removed and printed alone. */
  lemma QuietStep(c: Config, s: State, step: Step)
    requires DataInv(c, s) && Next(c, s, step).Some?
    requires step == Produce ==> s.ppc != PPut
    requires step == Consume ==> s.cpc != CTake && s.cpc != CUse
    ensures DataInv(c, Next(c, s, step).value)
  {
    var t := Next(c, s, step).value;
    assert t.ring == s.ring && t.output == s.output && t.k == s.k && t.item == s.item;
    assert Stored(t) == Stored(s) && Removed(t) == Removed(s);
  }

  lemma ControlStep(c: Config, s: State, step: Step)
    requires Inv(c, s) && Next(c, s, step).Some?
    ensures var t := Next(c, s, step).value; MutexInv(t) && LoopInv(c, t)
  {
  }

  lemma WakeStep(c: Config, s: State, step: Step)
    requires MutexInv(s) && WakeInv(s) && |s.ring.buf| == c.capacity && Next(c, s, step).Some?
    ensures WakeInv(Next(c, s, step).value)
  {
  }

  lemma InvStep(c: Config, s: State, step: Step)
    requires Inv(c, s) && Next(c, s, step).Some?
    ensures Inv(c, Next(c, s, step).value)
  {
    ControlStep(c, s, step);
    WakeStep(c, s, step);
    if step == Produce && s.ppc == PPut {
      PutStep(c, s);
    } else if step == Consume && s.cpc == CTake {
      TakeStep(c, s);
    } else if step == Consume && s.cpc == CUse {
      UseStep(c, s);
    } else {
      QuietStep(c, s, step);
    }
  }

  lemma {:induction false} InvAlongRun(c: Config, s: State, run: seq<Step>)
    requires Inv(c, s) && Legal(c, s, run)
    ensures Inv(c, Exec(c, s, run))
    decreases |run|
  {
    if run != [] {
      InvStep(c, s, run[0]);
      InvAlongRun(c, Next(c, s, run[0]).value, run[1..]);
    }
  }

  // ---------------------------------------------------------------------------------------------
  // Every run
  // ---------------------------------------------------------------------------------------------

  /** At every moment of every run the output is a prefix of 1..n and at most `capacity` items are queued. */
  lemma OutputIsAPrefix(c: Config, s: State, run: seq<Step>)
    requires IsInit(c, s) && Legal(c, s, run)
    ensures var t := Exec(c, s, run);
      && t.output <= Numbers(1, c.n)
      && Stored(t) - Removed(t) == t.ring.count
      && 0 <= t.ring.count <= c.capacity
  {
    InitInv(c, s);
    InvAlongRun(c, s, run);
  }

  /** Neither thread can step. */
  predicate Stuck(c: Config, s: State) {
    ProducerNext(c, s).None? && ConsumerNext(c, s).None?
  }

  /**
   End to end: with capacity at least 1 the two threads never deadlock, and a run can only end with
   both threads finished, the output 1..n and the queue empty. (With capacity 0 they finish exactly when n = 0.)
   */
  lemma RunsEndWithEverythingDelivered(c: Config, s: State, run: seq<Step>)
    requires IsInit(c, s) && Legal(c, s, run)
    ensures var t := Exec(c, s, run);
      Stuck(c, t) && (c.capacity >= 1 || c.n == 0) ==>
        && t.ppc == PDone && t.cpc == CDone
        && t.output == Numbers(1, c.n)
        && t.ring.count == 0
    ensures c.capacity == 0 && c.n > 0 ==> Exec(c, s, run).ppc != PDone
  {
    InitInv(c, s);
    InvAlongRun(c, s, run);
    var t := Exec(c, s, run);
    if c.capacity == 0 && c.n > 0 && t.ppc == PDone {
      assert t.ring.count == 0 && Removed(t) == c.n;
      NothingMovesThroughNothing(c, s, run);
    }
  }

  /** With capacity 0 nothing is ever stored. */
  lemma {:induction false} NothingMovesThroughNothing(c: Config, s: State, run: seq<Step>)
    requires Inv(c, s) && Legal(c, s, run) && c.capacity == 0 && Stored(s) == 0
    ensures Stored(Exec(c, s, run)) == 0
    decreases |run|
  {
    if run != [] {
      InvStep(c, s, run[0]);
      NothingMovesThroughNothing(c, Next(c, s, run[0]).value, run[1..]);
    }
  }

  // ---------------------------------------------------------------------------------------------
  // Termination
  // ---------------------------------------------------------------------------------------------

  /** Items that the producer, and the consumer, have not begun with. */
  function ToProduce(c: Config, s: State): int {
    if s.ppc.PLoop? || s.ppc.PDone? then c.n + 1 - s.i else c.n - s.i
  }

  function ToConsume(c: Config, s: State): int {
    if s.cpc.CLoop? || s.cpc.CDone? then c.n - s.k else c.n - s.k - 1
  }

  function ProducerRank(pc: ProducerPc): nat {
    match pc
    case PDone => 0
    case PLoop => 1
    case PUnlock => 2
    case PSignal => 5 // may wake the consumer
    case PPut | PWait => 6
    case PTest => 7
    case PLock | PWoken => 8
  }

  function ConsumerRank(pc: ConsumerPc): nat {
    match pc
    case CDone => 0
    case CLoop => 1
    case CUse => 2
    case CUnlock => 3
    case CSignal => 6 // may wake the producer
    case CTake | CWait => 7
    case CTest => 8
    case CLock | CWoken => 9
  }

  function Potential(c: Config, s: State): int {
    8 * ToProduce(c, s) + ProducerRank(s.ppc) + 9 * ToConsume(c, s) + ConsumerRank(s.cpc)
  }

  function Spurious(run: seq<Step>): nat {
    if run == [] then 0
    else (if run[0] == SpuriousProducer || run[0] == SpuriousConsumer then 1 else 0) + Spurious(run[1..])
  }

  lemma StepDescends(c: Config, s: State, step: Step)
    requires Inv(c, s) && Next(c, s, step).Some?
    ensures Potential(c, s) >= 0
    ensures Potential(c, Next(c, s, step).value) <= Potential(c, s) +
      if step == SpuriousProducer || step == SpuriousConsumer then 2 else -1
  {
  }

  /** Every run is finite: it has at most 17 n + 2 steps and three more for each spurious wakeup. */
  lemma EveryRunEnds(c: Config, s: State, run: seq<Step>)
    requires IsInit(c, s) && Legal(c, s, run)
    ensures |run| <= 17 * c.n + 2 + 3 * Spurious(run)
  {
    InitInv(c, s);
    RunIsBounded(c, s, run);
  }

  lemma {:induction false} RunIsBounded(c: Config, s: State, run: seq<Step>)
    requires Inv(c, s) && Legal(c, s, run)
    ensures |run| + Potential(c, Exec(c, s, run)) <= Potential(c, s) + 3 * Spurious(run)
    ensures Potential(c, Exec(c, s, run)) >= 0
    decreases |run|
  {
    if run != [] {
      StepDescends(c, s, run[0]);
      InvStep(c, s, run[0]);
      RunIsBounded(c, Next(c, s, run[0]).value, run[1..]);
    }
  }

  // ---------------------------------------------------------------------------------------------
  // Which steps are possible, and how far the threads can get
  // ---------------------------------------------------------------------------------------------

  ghost predicate Reachable(c: Config, s: State) {
    exists s0, run :: IsInit(c, s0) && Legal(c, s0, run) && Exec(c, s0, run) == s
  }

  lemma ReachableInv(c: Config, s: State)
    requires Reachable(c, s)
    ensures Inv(c, s)
  {
    var s0, run :| IsInit(c, s0) && Legal(c, s0, run) && Exec(c, s0, run) == s;
    InitInv(c, s0);
    InvAlongRun(c, s0, run);
  }

  /**
   A thread that is not done waits only for the end of the other one's critical section, if it wants the
   mutex, or for a wakeup, if it is asleep; and no access to the array is out of bounds. A thread falls
   asleep, in its own step at the test, exactly when the queue is full or empty; it is woken exactly by
   the signal of the other one, or by a wakeup without a signal.
   */
  lemma StepIff(c: Config, s: State, step: Step)
    requires Reachable(c, s)
    ensures Next(c, s, step).Some? <==>
      match step
      case Produce => s.ppc != PDone && s.ppc != PWait && (s.ppc == PLock || s.ppc == PWoken ==> !CHolds(s.cpc))
      case Consume => s.cpc != CDone && s.cpc != CWait && (s.cpc == CLock || s.cpc == CWoken ==> !PHolds(s.ppc))
      case SpuriousProducer => s.ppc == PWait
      case SpuriousConsumer => s.cpc == CWait
    ensures Next(c, s, step).Some? ==>
      var t, queued := Next(c, s, step).value, Stored(s) - Removed(s);
      && (s.ppc != PWait ==> (t.ppc == PWait <==> step == Produce && s.ppc == PTest && queued == c.capacity))
      && (s.cpc != CWait ==> (t.cpc == CWait <==> step == Consume && s.cpc == CTest && queued == 0))
      && (s.ppc == PWait ==>
            t.ppc == if step == SpuriousProducer || (step == Consume && s.cpc == CSignal) then PWoken else PWait)
      && (s.cpc == CWait ==>
            t.cpc == if step == SpuriousConsumer || (step == Produce && s.ppc == PSignal) then CWoken else CWait)
  {
    ReachableInv(c, s);
  }

  /** Both threads are at the top of their loops, a items have been stored and b removed. */
  ghost predicate AtTop(c: Config, s: State, a: int, b: int) {
    Inv(c, s) && s.ppc == PLoop && s.cpc == CLoop && s.i == a + 1 && s.k == b
  }

  lemma Then(c: Config, s: State, run: seq<Step>, step: Step)
    requires Legal(c, s, run) && Next(c, Exec(c, s, run), step).Some?
    ensures Legal(c, s, run + [step])
    ensures Exec(c, s, run + [step]) == Next(c, Exec(c, s, run), step).value
  {
    Extend(Machine(c), s, run, step);
  }

  lemma ProducesOne(c: Config, s: State, a: int, b: int) returns (run: seq<Step>)
    requires AtTop(c, s, a, b) && a < c.n && a - b < c.capacity
    ensures Legal(c, s, run) && AtTop(c, Exec(c, s, run), a + 1, b)
  {
    run := [];
    Then(c, s, run, Produce);
    run := run + [Produce];
    Then(c, s, run, Produce);
    run := run + [Produce];
    Then(c, s, run, Produce);
    run := run + [Produce];
    assert Exec(c, s, run) == s.(ppc := PPut, owner := Producer);
    Then(c, s, run, Produce);
    run := run + [Produce];
    Then(c, s, run, Produce);
    run := run + [Produce];
    Then(c, s, run, Produce);
    run := run + [Produce];
    InvAlongRun(c, s, run);
  }

  lemma ConsumesOne(c: Config, s: State, a: int, b: int) returns (run: seq<Step>)
    requires AtTop(c, s, a, b) && b < a
    ensures Legal(c, s, run) && AtTop(c, Exec(c, s, run), a, b + 1)
  {
    run := [];
    Then(c, s, run, Consume);
    run := run + [Consume];
    Then(c, s, run, Consume);
    run := run + [Consume];
    Then(c, s, run, Consume);
    run := run + [Consume];
    assert Exec(c, s, run) == s.(cpc := CTake, owner := Consumer);
    Then(c, s, run, Consume);
    run := run + [Consume];
    Then(c, s, run, Consume);
    run := run + [Consume];
    Then(c, s, run, Consume);
    run := run + [Consume];
    var t := Exec(c, s, run);
    assert t.cpc == CUse && t.ppc == PLoop && t.i == a + 1 && t.k == b;
    Then(c, s, run, Consume);
    run := run + [Consume];
    InvAlongRun(c, s, run);
  }

  predicate Counts(c: Config, a: int, b: int) {
    0 <= b <= a <= c.n && a - b <= c.capacity && (c.capacity == 0 ==> a == 0)
  }

  lemma {:induction false} Gets(c: Config, s: State, a: int, b: int) returns (run: seq<Step>)
    requires IsInit(c, s) && Counts(c, a, b)
    ensures Legal(c, s, run) && AtTop(c, Exec(c, s, run), a, b)
    decreases a + b
  {
    InitInv(c, s);
    run := [];
    if a > b {
      run := Gets(c, s, a - 1, b);
      var more := ProducesOne(c, Exec(c, s, run), a - 1, b);
      Concat(Machine(c), s, run, more);
      run := run + more;
    } else if a > 0 {
      run := Gets(c, s, a, b - 1);
      var more := ConsumesOne(c, Exec(c, s, run), a, b - 1);
      Concat(Machine(c), s, run, more);
      run := run + more;
    }
  }

  /**
   How far the two threads can be apart: exactly every number a of stored and b of removed items occurs
   with b <= a <= n and a - b within the capacity (and nothing at all gets through a queue of capacity 0).
   */
  lemma CountsIff(c: Config, a: int, b: int)
    ensures (exists s :: Reachable(c, s) && Stored(s) == a && Removed(s) == b) <==> Counts(c, a, b)
  {
    forall s | Reachable(c, s)
      ensures Counts(c, Stored(s), Removed(s))
    {
      var s0, run :| IsInit(c, s0) && Legal(c, s0, run) && Exec(c, s0, run) == s;
      InitInv(c, s0);
      InvAlongRun(c, s0, run);
      if c.capacity == 0 { NothingMovesThroughNothing(c, s0, run); }
    }
    if Counts(c, a, b) {
      var s0 := State(Ring(seq(c.capacity, k => 0), 0, 0, 0), Free, PLoop, 1, CLoop, 0, 0, []);
      var run := Gets(c, s0, a, b);
      assert Reachable(c, Exec(c, s0, run));
    }
  }
}
