/**
 The pool of pthreads/pthreads6.c has exactly the histories of the bounded queue of PoolSpec that adds a
 worker when a submit fills it; as written, the attempt to add one is never made.
 */
module GrowingPoolHistories {
  import opened Threads
  import opened Ring
  import opened Tasks
  import opened Runs
  import opened Histories
  import opened PoolSpec
  import opened GrowingPool
  import opened GrowingPoolSafety
  import opened GrowingPoolTheorems

  function RulesOf(c: Config): Rules {
    Rules(c.capacity, c.maxThreads, c.variant == WithoutRelock, false)
  }

  /** The event that a step shows. */
  function EventOf(s: State, step: Step): Option<Event> {
    match step
    case Submit(i, x) =>
      if i < |s.spc| && s.spc[i] == SPut then Some(Accept(i))
      else if i < |s.spc| && s.spc[i] == SCreate then Some(Event.Grow(i, x.created))
      else None
    case Work(j, _) =>
      if j < |s.wpc| && s.wpc[j] == WTake then Some(Remove(j))
      else if j < |s.wpc| && s.wpc[j] == WRun then Some(Start(j))
      else if j < |s.wpc| && s.wpc[j] == WBusy then Some(Finish(j))
      else None
    case CallSubmit(i, task) => Some(Call(i, task))
    case _ => None
  }

  function Asked(pc: SubmitPc, task: Task): Option<Task> {
    if Pending(pc) then Some(task) else None
  }

  function HandOf(pc: WorkPc, task: Task): Hand {
    if Holding(pc) then Holds(task) else if pc == WBusy then Hand.Runs(task) else Empty
  }

  /** The submitter that has filled the queue below the maximum and not tried to create a thread yet. */
  function Filling(c: Config, s: State): Option<nat> {
    if s.queueOwner.Submitter? && s.queueOwner.i < |s.spc| && Grows(c, s) && BeforeCreation(s.spc[s.queueOwner.i])
    then Some(s.queueOwner.i)
    else None
  }

  predicate BeforeCreation(pc: SubmitPc) {
    pc.SSignal? || pc.SGrow? || pc.SLockPool? || pc.SRecheck? || pc.SRelock? || pc.SBelowMax? || pc.SCreate?
  }

  function Abs(c: Config, s: State): Pool {
    Pool(
      if s.ring.Valid() then s.ring.Contents() else [],
      seq(|s.spc|, i requires 0 <= i < |s.spc| => if i < |s.arg| then Asked(s.spc[i], s.arg[i]) else None),
      seq(|s.wpc|, j requires 0 <= j < |s.wpc| => if j < |s.local| then HandOf(s.wpc[j], s.local[j]) else Empty),
      s.called, s.started, Filling(c, s), false)
  }

  ghost predicate Refines(c: Config, s: State, step: Step, t: State) {
    if EventOf(s, step).Some? then SpecNext(RulesOf(c), Abs(c, s), EventOf(s, step).value) == Some(Abs(c, t))
    else Abs(c, t) == Abs(c, s)
  }

  lemma RefinesPut(c: Config, s: State, i: nat, x: Choice)
    requires Inv(c, s) && SubmitterNext(c, s, i, x).Some? && s.spc[i] == SPut
    ensures Refines(c, s, Submit(i, x), SubmitterNext(c, s, i, x).value)
  {
    PutAppends(s.ring, s.arg[i]);
    var t := SubmitterNext(c, s, i, x).value;
    assert Abs(c, t).asked == Abs(c, s).asked[i := None];
    assert Abs(c, t).hands == Abs(c, s).hands;
  }

  lemma SubmitterFills(c: Config, s: State, i: nat, x: Choice)
    requires Inv(c, s) && SubmitterNext(c, s, i, x).Some?
    requires s.spc[i] != SPut && s.spc[i] != SSignal && s.spc[i] != SCreate
    ensures Filling(c, SubmitterNext(c, s, i, x).value) == Filling(c, s)
  {
  }

  lemma SubmitterMoves(c: Config, s: State, i: nat, x: Choice)
    requires SubmitterNext(c, s, i, x).Some? && s.spc[i] != SPut && s.spc[i] != SSignal && s.spc[i] != SCreate
    ensures var t := SubmitterNext(c, s, i, x).value;
      && t.ring == s.ring && t.wpc == s.wpc && t.local == s.local && t.arg == s.arg
      && t.called == s.called && t.started == s.started
      && t.spc == s.spc[i := t.spc[i]] && Pending(t.spc[i]) == Pending(s.spc[i])
  {
  }

  lemma RefinesMove(c: Config, s: State, i: nat, x: Choice)
    requires Inv(c, s) && SubmitterNext(c, s, i, x).Some?
    requires s.spc[i] != SPut && s.spc[i] != SSignal && s.spc[i] != SCreate
    ensures Refines(c, s, Submit(i, x), SubmitterNext(c, s, i, x).value)
  {
    SubmitterMoves(c, s, i, x);
    SubmitterFills(c, s, i, x);
    assert Abs(c, SubmitterNext(c, s, i, x).value).asked == Abs(c, s).asked;
  }

  lemma CreationFills(c: Config, s: State, i: nat, x: Choice)
    requires Inv(c, s) && SubmitterNext(c, s, i, x).Some? && s.spc[i] == SCreate
    ensures Filling(c, s) == Some(i) && Filling(c, SubmitterNext(c, s, i, x).value) == None
    ensures c.variant == WithoutRelock
  {
  }

  lemma RefinesCreate(c: Config, s: State, i: nat, x: Choice)
    requires Inv(c, s) && SubmitterNext(c, s, i, x).Some? && s.spc[i] == SCreate
    ensures Refines(c, s, Submit(i, x), SubmitterNext(c, s, i, x).value)
  {
    var t := SubmitterNext(c, s, i, x).value;
    CreationFills(c, s, i, x);
    assert Abs(c, t).asked == Abs(c, s).asked;
    assert Abs(c, t).hands == if x.created then Abs(c, s).hands + [Empty] else Abs(c, s).hands;
  }

  lemma RefinesSubmit(c: Config, s: State, i: nat, x: Choice)
    requires Inv(c, s) && SubmitterNext(c, s, i, x).Some?
    ensures Refines(c, s, Submit(i, x), SubmitterNext(c, s, i, x).value)
  {
    var t := SubmitterNext(c, s, i, x).value;
    if s.spc[i] == SPut {
      RefinesPut(c, s, i, x);
    } else if s.spc[i] == SSignal {
      assert Abs(c, t).asked == Abs(c, s).asked;
      assert Abs(c, t).hands == Abs(c, s).hands;
    } else if s.spc[i] == SCreate {
      RefinesCreate(c, s, i, x);
    } else {
      RefinesMove(c, s, i, x);
    }
  }

  lemma RefinesTake(c: Config, s: State, j: nat, x: Choice)
    requires Inv(c, s) && WorkerNext(c, s, j, x).Some? && s.wpc[j] == WTake
    ensures Refines(c, s, Work(j, x), WorkerNext(c, s, j, x).value)
  {
    TakeRemovesOldest(s.ring);
    var t := WorkerNext(c, s, j, x).value;
    var queue := s.ring.Contents();
    assert queue[0] == s.ring.buf[s.ring.head] && queue[1..] == t.ring.Contents();
    assert Abs(c, t).hands == Abs(c, s).hands[j := Holds(queue[0])];
    assert Abs(c, t).asked == Abs(c, s).asked;
  }

  lemma RefinesSignal(c: Config, s: State, j: nat, x: Choice)
    requires Inv(c, s) && WorkerNext(c, s, j, x).Some? && s.wpc[j] == WSignal
    ensures Refines(c, s, Work(j, x), WorkerNext(c, s, j, x).value)
  {
    var t := WorkerNext(c, s, j, x).value;
    assert s.queueOwner == t.queueOwner == Worker(j);
    assert Abs(c, t).asked == Abs(c, s).asked;
    assert Abs(c, t).hands == Abs(c, s).hands;
  }

  lemma WorkersDoNotFill(c: Config, s: State, j: nat, x: Choice)
    requires Inv(c, s) && WorkerNext(c, s, j, x).Some? && s.wpc[j] != WTake && s.wpc[j] != WSignal
    ensures Filling(c, WorkerNext(c, s, j, x).value) == Filling(c, s)
  {
  }

  lemma WorkerMoves(c: Config, s: State, j: nat, x: Choice)
    requires WorkerNext(c, s, j, x).Some? && s.wpc[j] != WTake && s.wpc[j] != WSignal
    ensures var t := WorkerNext(c, s, j, x).value;
      && t.ring == s.ring && t.spc == s.spc && t.arg == s.arg && t.local == s.local && t.called == s.called
      && t.wpc == s.wpc[j := t.wpc[j]]
      && t.started == s.started + if s.wpc[j] == WRun then [s.local[j]] else []
  {
  }

  lemma RefinesHands(c: Config, s: State, j: nat, t: State)
    requires t.ring == s.ring && t.spc == s.spc && t.arg == s.arg && t.local == s.local && t.called == s.called
    requires Filling(c, t) == Filling(c, s)
    requires j < |s.wpc| == |t.wpc| == |s.local| && t.wpc == s.wpc[j := t.wpc[j]]
    ensures Abs(c, t) == Abs(c, s).(hands := Abs(c, s).hands[j := HandOf(t.wpc[j], s.local[j])], started := t.started)
  {
    assert Abs(c, t).asked == Abs(c, s).asked;
    assert Abs(c, t).hands == Abs(c, s).hands[j := HandOf(t.wpc[j], s.local[j])];
  }

  lemma RefinesWorkMove(c: Config, s: State, j: nat, x: Choice)
    requires Inv(c, s) && WorkerNext(c, s, j, x).Some? && s.wpc[j] != WTake && s.wpc[j] != WSignal
    ensures Refines(c, s, Work(j, x), WorkerNext(c, s, j, x).value)
  {
    WorkerMoves(c, s, j, x);
    WorkersDoNotFill(c, s, j, x);
    RefinesHands(c, s, j, WorkerNext(c, s, j, x).value);
    assert s.wpc[j].WBusy? || s.wpc[j].WRun? ==> EventOf(s, Work(j, x)).Some?;
  }

  lemma RefinesWork(c: Config, s: State, j: nat, x: Choice)
    requires Inv(c, s) && WorkerNext(c, s, j, x).Some?
    ensures Refines(c, s, Work(j, x), WorkerNext(c, s, j, x).value)
  {
    if s.wpc[j] == WTake {
      RefinesTake(c, s, j, x);
    } else if s.wpc[j] == WSignal {
      RefinesSignal(c, s, j, x);
    } else {
      RefinesWorkMove(c, s, j, x);
    }
  }

  lemma RefinesCall(c: Config, s: State, step: Step)
    requires Inv(c, s) && Next(c, s, step).Some? && step.CallSubmit?
    ensures Refines(c, s, step, Next(c, s, step).value)
  {
    var t := Next(c, s, step).value;
    assert Abs(c, t).hands == Abs(c, s).hands;
    assert Abs(c, t).asked == Abs(c, s).asked[step.i := Some(step.task)];
  }

  lemma RestMoves(c: Config, s: State, step: Step)
    requires Next(c, s, step).Some? && !step.Submit? && !step.Work? && !step.CallSubmit?
    ensures var t := Next(c, s, step).value;
      && t.ring == s.ring && t.arg == s.arg && t.local == s.local && t.called == s.called && t.started == s.started
      && |t.spc| == |s.spc| && (forall i :: 0 <= i < |s.spc| ==> Pending(t.spc[i]) == Pending(s.spc[i]))
      && |t.wpc| == |s.wpc|
      && (forall j :: 0 <= j < |s.wpc| ==>
            t.wpc[j] == s.wpc[j] || (s.wpc[j] == WWait && t.wpc[j] == WWoken))
  {
  }

  lemma RestDoesNotFill(c: Config, s: State, step: Step)
    requires Inv(c, s) && Next(c, s, step).Some? && !step.Submit? && !step.Work? && !step.CallSubmit?
    ensures Filling(c, Next(c, s, step).value) == Filling(c, s)
  {
  }

  lemma RefinesRest(c: Config, s: State, step: Step)
    requires Inv(c, s) && Next(c, s, step).Some? && !step.Submit? && !step.Work? && !step.CallSubmit?
    ensures Refines(c, s, step, Next(c, s, step).value)
  {
    var t := Next(c, s, step).value;
    RestMoves(c, s, step);
    RestDoesNotFill(c, s, step);
    assert Abs(c, t).hands == Abs(c, s).hands;
    assert Abs(c, t).asked == Abs(c, s).asked;
  }

  ghost function InvOf(c: Config): State -> bool {
    s => Inv(c, s)
  }

  function AbsOf(c: Config): State -> Pool {
    s => Abs(c, s)
  }

  lemma PoolSimulates(c: Config)
    ensures Simulates(Machine(c), EventOf, InvOf(c), Spec(RulesOf(c)), AbsOf(c))
  {
    forall s, step | Inv(c, s) && Next(c, s, step).Some?
      ensures Inv(c, Next(c, s, step).value) && Refines(c, s, step, Next(c, s, step).value)
    {
      InvStep(c, s, step);
      if step.Submit? {
        RefinesSubmit(c, s, step.i, step.x);
      } else if step.Work? {
        RefinesWork(c, s, step.i, step.x);
      } else if step.CallSubmit? {
        RefinesCall(c, s, step);
      } else {
        RefinesRest(c, s, step);
      }
    }
  }


  // ---------------------------------------------------------------------------------------------
  // Every history of the specification occurs
  // ---------------------------------------------------------------------------------------------

  ghost function HistoryOf(c: Config, s: State, run: seq<Step>): seq<Event>
    requires Legal(c, s, run)
  {
    History(Machine(c), EventOf, s, run)
  }

  /**
   No worker is in its critical section and none sleeps; no submitter either, but for one that has filled
   the queue and is about to pass its growth test. Destroy has not been called.
   */
  ghost predicate Ready(c: Config, s: State) {
    && Inv(c, s) && s.dpc == DOut
    && (forall i :: 0 <= i < |s.spc| ==> s.spc[i] == SOut || s.spc[i] == SLock || (s.spc[i] == SGrow && Grows(c, s)))
    && (forall j :: 0 <= j < |s.wpc| ==> s.wpc[j] == WLock || s.wpc[j] == WRun || s.wpc[j] == WBusy)
  }

  /** One more step of a run, and what it shows. */
  lemma Goes(c: Config, s: State, run: seq<Step>, step: Step)
    requires Legal(c, s, run) && Next(c, Exec(c, s, run), step).Some?
    ensures Legal(c, s, run + [step])
    ensures Exec(c, s, run + [step]) == Next(c, Exec(c, s, run), step).value
    ensures HistoryOf(c, s, run + [step]) == HistoryOf(c, s, run) + Shown(EventOf(Exec(c, s, run), step))
  {
    Then(c, s, run, step);
    HistoryExtend(Machine(c), EventOf, s, run, step);
  }

  /** A call up to the growth test, and from there to its end if the test fails. */
  lemma AcceptRun(c: Config, s: State, i: nat) returns (run: seq<Step>)
    requires s.queueOwner == Free && !Freed(s) && s.ring.count < c.capacity
    requires i < |s.spc| == |s.arg| && s.spc[i] == SLock && WWait !in s.wpc && 0 <= s.ring.tail < |s.ring.buf|
    ensures Legal(c, s, run) && HistoryOf(c, s, run) == [Accept(i)]
    ensures Exec(c, s, run) == s.(ring := s.ring.Put(s.arg[i]), accepted := s.accepted + [s.arg[i]],
                                  queueOwner := Submitter(i), spc := s.spc[i := SGrow])
  {
    var go := Submit(i, Choice({}, false, 0));
    run := [];
    Goes(c, s, run, go);
    run := run + [go];
    assert Exec(c, s, run) == s.(queueOwner := Submitter(i), spc := s.spc[i := STest]);
    Goes(c, s, run, go);
    run := run + [go];
    assert Exec(c, s, run) == s.(queueOwner := Submitter(i), spc := s.spc[i := SPut]);
    Goes(c, s, run, go);
    run := run + [go];
    var t := s.(queueOwner := Submitter(i), ring := s.ring.Put(s.arg[i]), accepted := s.accepted + [s.arg[i]]);
    assert Exec(c, s, run) == t.(spc := s.spc[i := SSignal]);
    assert Wake(s.wpc, {}, WWoken) == s.wpc;
    Goes(c, s, run, go);
    run := run + [go];
  }

  lemma ReturnRun(c: Config, s: State, i: nat) returns (run: seq<Step>)
    requires !Freed(s) && i < |s.spc| == |s.arg| && s.spc[i] == SGrow && !Grows(c, s)
    ensures Legal(c, s, run) && HistoryOf(c, s, run) == []
    ensures Exec(c, s, run) == s.(queueOwner := Free, spc := s.spc[i := SOut], returned := s.returned + 1)
  {
    var go := Submit(i, Choice({}, false, 0));
    run := [];
    Goes(c, s, run, go);
    run := run + [go];
    assert Exec(c, s, run) == s.(spc := s.spc[i := SUnlock]);
    Goes(c, s, run, go);
    run := run + [go];
    assert s.spc[i := SUnlock][i := SOut] == s.spc[i := SOut];
  }

  /** From the growth test to the creation of the thread. */
  lemma GrowFirst(c: Config, s: State, i: nat) returns (run: seq<Step>)
    requires c.variant == WithoutRelock && !Freed(s) && Grows(c, s) && s.poolOwner == Free
    requires i < |s.spc| == |s.arg| && s.spc[i] == SGrow && |s.handles| == c.maxThreads
    ensures Legal(c, s, run) && HistoryOf(c, s, run) == []
    ensures Exec(c, s, run) == s.(poolOwner := Submitter(i), spc := s.spc[i := SCreate])
  {
    var go := Submit(i, Choice({}, false, 0));
    run := [];
    Goes(c, s, run, go);
    run := run + [go];
    assert Exec(c, s, run) == s.(spc := s.spc[i := SLockPool]);
    Goes(c, s, run, go);
    run := run + [go];
    assert Exec(c, s, run) == s.(poolOwner := Submitter(i), spc := s.spc[i := SRecheck]);
    Goes(c, s, run, go);
    run := run + [go];
    assert Exec(c, s, run) == s.(poolOwner := Submitter(i), spc := s.spc[i := SBelowMax]);
    Goes(c, s, run, go);
    run := run + [go];
  }

  /** The creation of the thread, and its count. */
  lemma CreateRun(c: Config, s: State, i: nat, created: bool) returns (run: seq<Step>)
    requires c.variant == WithoutRelock && !Freed(s) && s.num < |s.handles|
    requires i < |s.spc| == |s.arg| && s.spc[i] == SCreate
    ensures Legal(c, s, run) && HistoryOf(c, s, run) == [Event.Grow(i, created)]
    ensures var t := s.(spc := s.spc[i := SUnlockPool]);
      Exec(c, s, run) ==
        if created
        then t.(handles := s.handles[s.num := |s.wpc|], wpc := s.wpc + [WLock], local := s.local + [0],
                num := s.num + 1)
        else t.(handles := s.handles[s.num := 0])
  {
    var make, go := Submit(i, Choice({}, created, 0)), Submit(i, Choice({}, false, 0));
    run := [];
    Goes(c, s, run, make);
    run := run + [make];
    if created {
      assert Exec(c, s, run).spc == s.spc[i := SCount];
      Goes(c, s, run, go);
      run := run + [go];
      assert s.spc[i := SCount][i := SUnlockPool] == s.spc[i := SUnlockPool];
    }
  }

  /** The two unlocks. */
  lemma UnlockRun(c: Config, s: State, i: nat) returns (run: seq<Step>)
    requires !Freed(s) && i < |s.spc| == |s.arg| && s.spc[i] == SUnlockPool
    ensures Legal(c, s, run) && HistoryOf(c, s, run) == []
    ensures Exec(c, s, run) ==
      s.(queueOwner := Free, poolOwner := Free, spc := s.spc[i := SOut], returned := s.returned + 1)
  {
    var go := Submit(i, Choice({}, false, 0));
    run := [];
    Goes(c, s, run, go);
    run := run + [go];
    assert Exec(c, s, run) == s.(poolOwner := Free, spc := s.spc[i := SUnlock]);
    Goes(c, s, run, go);
    run := run + [go];
    assert s.spc[i := SUnlock][i := SOut] == s.spc[i := SOut];
  }

  /** A whole growth check whose test succeeds. */
  lemma GrowRun(c: Config, s: State, i: nat, created: bool) returns (run: seq<Step>)
    requires c.variant == WithoutRelock && !Freed(s) && Grows(c, s) && s.poolOwner == Free
    requires i < |s.spc| == |s.arg| && s.spc[i] == SGrow && |s.handles| == c.maxThreads
    ensures Legal(c, s, run) && HistoryOf(c, s, run) == [Event.Grow(i, created)]
    ensures var t := s.(queueOwner := Free, spc := s.spc[i := SOut], returned := s.returned + 1);
      Exec(c, s, run) ==
        if created
        then t.(handles := s.handles[s.num := |s.wpc|], wpc := s.wpc + [WLock], local := s.local + [0],
                num := s.num + 1)
        else t.(handles := s.handles[s.num := 0])
  {
    run := GrowFirst(c, s, i);
    var t := Exec(c, s, run);
    var create := CreateRun(c, t, i, created);
    ThenRun(c, s, run, create);
    HistoryConcat(Machine(c), EventOf, s, run, create);
    run := run + create;
    var u := Exec(c, s, run);
    var unlock := UnlockRun(c, u, i);
    ThenRun(c, s, run, unlock);
    HistoryConcat(Machine(c), EventOf, s, run, unlock);
    run := run + unlock;
    assert t.spc[i := SUnlockPool] == s.spc[i := SUnlockPool] && u.spc[i := SOut] == s.spc[i := SOut];
  }

  lemma RemoveRun(c: Config, s: State, j: nat) returns (run: seq<Step>)
    requires s.queueOwner == Free && !Freed(s) && s.ring.count > 0
    requires j < |s.wpc| == |s.local| && s.wpc[j] == WLock && SWait !in s.spc && 0 <= s.ring.head < |s.ring.buf|
    ensures Legal(c, s, run) && HistoryOf(c, s, run) == [Remove(j)]
    ensures var task := s.ring.buf[s.ring.head];
      Exec(c, s, run) ==
        s.(wpc := s.wpc[j := WRun], ring := s.ring.Take(), local := s.local[j := task], taken := s.taken + [task])
  {
    var go, task := Work(j, Choice({}, false, 0)), s.ring.buf[s.ring.head];
    run := [];
    Goes(c, s, run, go);
    run := run + [go];
    assert Exec(c, s, run) == s.(queueOwner := Worker(j), wpc := s.wpc[j := WTest]);
    Goes(c, s, run, go);
    run := run + [go];
    assert Exec(c, s, run) == s.(queueOwner := Worker(j), wpc := s.wpc[j := WTake]);
    Goes(c, s, run, go);
    run := run + [go];
    var t := s.(queueOwner := Worker(j), ring := s.ring.Take(), local := s.local[j := task], taken := s.taken + [task]);
    assert Exec(c, s, run) == t.(wpc := s.wpc[j := WSignal]);
    assert Wake(s.spc, {}, SWoken) == s.spc;
    Goes(c, s, run, go);
    run := run + [go];
    assert Exec(c, s, run) == t.(wpc := s.wpc[j := WUnlock]);
    Goes(c, s, run, go);
    run := run + [go];
    assert s.wpc[j := WUnlock][j := WRun] == s.wpc[j := WRun];
  }

  lemma StepRun(c: Config, s: State, step: Step) returns (run: seq<Step>)
    requires Next(c, s, step).Some? && EventOf(s, step).Some?
    ensures Legal(c, s, run) && HistoryOf(c, s, run) == [EventOf(s, step).value]
    ensures Exec(c, s, run) == Next(c, s, step).value
  {
    run := [];
    Goes(c, s, run, step);
    run := run + [step];
  }

  lemma OwnersHold(c: Config, s: State)
    requires Inv(c, s)
    ensures s.poolOwner == Free || s.poolOwner.Submitter?
    ensures s.poolOwner.Submitter? ==> s.poolOwner.i < |s.spc| && HoldsPool(s.spc[s.poolOwner.i])
    ensures s.queueOwner.Submitter? ==> s.queueOwner.i < |s.spc| && SHolds(s.spc[s.queueOwner.i])
    ensures s.queueOwner.Worker? ==> s.queueOwner.i < |s.wpc| && WHolds(s.wpc[s.queueOwner.i])
  {
  }

  /** Who holds the mutexes of a pool that is ready. */
  lemma WhoHolds(c: Config, s: State)
    requires Ready(c, s)
    ensures s.poolOwner == Free && |s.wpc| == s.num && |s.handles| == c.maxThreads
    ensures Filling(c, s) == None ==> s.queueOwner == Free
    ensures Filling(c, s).Some? ==>
      var i := Filling(c, s).value; i < |s.spc| && s.spc[i] == SGrow && Grows(c, s) && s.queueOwner == Submitter(i)
    ensures forall i: nat :: i < |s.spc| && s.spc[i] == SGrow ==> Filling(c, s) == Some(i)
  {
    forall i: nat | i < |s.spc| && s.spc[i] == SGrow ensures s.queueOwner == Submitter(i) { assert SHolds(s.spc[i]); }
    OwnersHold(c, s);
  }

  /** Where a submitter or worker of a pool that is ready stands, from what it has in its hands. */
  lemma WhoIsWhere(c: Config, s: State)
    requires Ready(c, s)
    ensures WWait !in s.wpc && SWait !in s.spc && !Freed(s) && s.ring.Valid() && |s.ring.buf| == c.capacity
    ensures |Abs(c, s).asked| == |s.spc| == |s.arg| && |Abs(c, s).hands| == |s.wpc| == |s.local|
    ensures |Abs(c, s).queue| == s.ring.count
    ensures forall i: nat :: i < |s.spc| ==>
      && (Abs(c, s).asked[i].Some? ==> s.spc[i] == SLock)
      && (Abs(c, s).asked[i].None? ==> s.spc[i] == SOut || s.spc[i] == SGrow)
    ensures forall j: nat :: j < |s.wpc| ==>
      && (Abs(c, s).hands[j].Empty? ==> s.wpc[j] == WLock) && (Abs(c, s).hands[j].Holds? ==> s.wpc[j] == WRun)
      && (Abs(c, s).hands[j].Runs? ==> s.wpc[j] == WBusy)
  {
  }

  lemma ShowsAccept(c: Config, s: State, i: nat) returns (run: seq<Step>)
    requires Ready(c, s) && i < |s.spc| && s.spc[i] == SLock && s.queueOwner == Free && s.ring.count < c.capacity
    ensures Legal(c, s, run) && HistoryOf(c, s, run) == [Accept(i)] && Ready(c, Exec(c, s, run))
  {
    WhoIsWhere(c, s);
    WhoHolds(c, s);
    run := AcceptRun(c, s, i);
    var t := Exec(c, s, run);
    if !Grows(c, t) {
      var more := ReturnRun(c, t, i);
      ThenRun(c, s, run, more);
      HistoryConcat(Machine(c), EventOf, s, run, more);
      run := run + more;
      assert t.spc[i := SOut] == s.spc[i := SOut];
    }
    InvAlongRun(c, s, run);
  }

  lemma ShowsGrow(c: Config, s: State, i: nat, created: bool) returns (run: seq<Step>)
    requires Ready(c, s) && c.variant == WithoutRelock && i < |s.spc| && s.spc[i] == SGrow
    ensures Legal(c, s, run) && HistoryOf(c, s, run) == [Event.Grow(i, created)] && Ready(c, Exec(c, s, run))
  {
    WhoIsWhere(c, s);
    WhoHolds(c, s);
    run := GrowRun(c, s, i, created);
    InvAlongRun(c, s, run);
  }

  lemma ShowsRemove(c: Config, s: State, j: nat) returns (run: seq<Step>)
    requires Ready(c, s) && j < |s.wpc| && s.wpc[j] == WLock && s.queueOwner == Free && s.ring.count > 0
    ensures Legal(c, s, run) && HistoryOf(c, s, run) == [Remove(j)] && Ready(c, Exec(c, s, run))
  {
    WhoIsWhere(c, s);
    WhoHolds(c, s);
    run := RemoveRun(c, s, j);
    InvAlongRun(c, s, run);
  }

  lemma ShowsCall(c: Config, s: State, i: nat, task: Task) returns (run: seq<Step>)
    requires Ready(c, s) && i < |s.spc| && s.spc[i] == SOut && task !in s.called
    ensures Legal(c, s, run) && HistoryOf(c, s, run) == [Call(i, task)] && Ready(c, Exec(c, s, run))
  {
    WhoIsWhere(c, s);
    WhoHolds(c, s);
    run := StepRun(c, s, CallSubmit(i, task));
    InvStep(c, s, CallSubmit(i, task));
  }

  lemma ShowsTask(c: Config, s: State, j: nat, e: Event) returns (run: seq<Step>)
    requires Ready(c, s) && j < |s.wpc|
    requires (e == Start(j) && s.wpc[j] == WRun) || (e == Finish(j) && s.wpc[j] == WBusy)
    ensures Legal(c, s, run) && HistoryOf(c, s, run) == [e] && Ready(c, Exec(c, s, run))
  {
    WhoIsWhere(c, s);
    WhoHolds(c, s);
    run := StepRun(c, s, Work(j, Choice({}, false, 0)));
    InvStep(c, s, Work(j, Choice({}, false, 0)));
  }

  ghost function ReadyOf(c: Config): State -> bool {
    s => Ready(c, s)
  }

  lemma ShownBySubmitter(c: Config, s: State, e: Event)
    ensures Ready(c, s) && SpecNext(RulesOf(c), Abs(c, s), e).Some? && (e.Call? || e.Accept? || e.Grow?) ==>
      Shows(Machine(c), EventOf, ReadyOf(c), s, e)
  {
    if Ready(c, s) && SpecNext(RulesOf(c), Abs(c, s), e).Some? && (e.Call? || e.Accept? || e.Grow?) {
      WhoIsWhere(c, s);
      WhoHolds(c, s);
      var run: seq<Step>;
      if e.Call? {
        run := ShowsCall(c, s, e.i, e.task);
      } else if e.Accept? {
        run := ShowsAccept(c, s, e.i);
      } else {
        run := ShowsGrow(c, s, e.i, e.created);
      }
      assert ReadyOf(c)(After(Machine(c), s, run));
    }
  }

  lemma ShownByWorker(c: Config, s: State, e: Event)
    ensures Ready(c, s) && SpecNext(RulesOf(c), Abs(c, s), e).Some? && (e.Remove? || e.Start? || e.Finish?) ==>
      Shows(Machine(c), EventOf, ReadyOf(c), s, e)
  {
    if Ready(c, s) && SpecNext(RulesOf(c), Abs(c, s), e).Some? && (e.Remove? || e.Start? || e.Finish?) {
      WhoIsWhere(c, s);
      WhoHolds(c, s);
      var run: seq<Step>;
      if e.Remove? {
        run := ShowsRemove(c, s, e.j);
      } else {
        run := ShowsTask(c, s, e.j, e);
      }
      assert ReadyOf(c)(After(Machine(c), s, run));
    }
  }

  lemma PoolRealizes(c: Config)
    ensures Realizes(Machine(c), EventOf, ReadyOf(c), Spec(RulesOf(c)), AbsOf(c))
  {
    forall s, e | Ready(c, s) && SpecNext(RulesOf(c), Abs(c, s), e).Some?
      ensures Shows(Machine(c), EventOf, ReadyOf(c), s, e)
    {
      ShownBySubmitter(c, s, e);
      ShownByWorker(c, s, e);
    }
  }

  /**
   From the initial state the histories of the pool are exactly those of PoolSpec. Without the relock, a
   submit that fills the queue below the maximum number of threads holds up every other acceptance and
   every removal until it has tried to add a worker; as written, it does so for ever.
   */
  lemma HistoriesIff(c: Config, s: State, history: seq<Event>)
    requires IsInit(c, s)
    ensures (exists run :: Legal(c, s, run) && HistoryOf(c, s, run) == history)
       <==> LegalRun(Spec(RulesOf(c)), NewPool(c.submitters, s.num), history)
  {
    InitInv(c, s);
    assert Abs(c, s) == NewPool(c.submitters, s.num);
    PoolSimulates(c);
    forall run | Legal(c, s, run) && HistoryOf(c, s, run) == history
      ensures LegalRun(Spec(RulesOf(c)), Abs(c, s), history)
    {
      HistoriesAreSpecified(Machine(c), EventOf, InvOf(c), Spec(RulesOf(c)), AbsOf(c), s, run);
    }
    if LegalRun(Spec(RulesOf(c)), Abs(c, s), history) {
      PoolRealizes(c);
      var spec := Spec(RulesOf(c));
      var run := HistoriesAreRealized(Machine(c), EventOf, InvOf(c), ReadyOf(c), spec, AbsOf(c), s, history);
      assert HistoryOf(c, s, run) == history;
    }
  }
}
