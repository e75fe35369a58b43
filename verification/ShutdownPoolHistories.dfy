/**
 The pool of pthreads/pthreads10.c has exactly the histories of the bounded queue of PoolSpec.
 */
module ShutdownPoolHistories {
  import opened Threads
  import opened Ring
  import opened Tasks
  import opened Runs
  import opened Histories
  import opened PoolSpec
  import opened ShutdownPool
  import opened ShutdownPoolSafety

  function RulesOf(c: Config): Rules {
    Rules(c.capacity, 0, false, true)
  }

  /** The event that a step shows. */
  function EventOf(s: State, step: Step): Option<Event> {
    match step
    case Submit(i, _) =>
      if i < |s.spc| && s.spc[i] == SPut then Some(Accept(i))
      else if i < |s.spc| && s.spc[i] == SCheck && s.shutdown then Some(TurnAway(i))
      else None
    case Work(j, _) =>
      if j < |s.wpc| && s.wpc[j] == WTake then Some(Remove(j))
      else if j < |s.wpc| && s.wpc[j] == WRun then Some(Start(j))
      else if j < |s.wpc| && s.wpc[j] == WBusy then Some(Finish(j))
      else None
    case Destroy => if s.dpc == DFlag then Some(Close) else None
    case CallSubmit(i, task) => Some(Call(i, task))
    case _ => None
  }

  function Asked(pc: SubmitPc, task: Task): Option<Task> {
    if Pending(pc) then Some(task) else None
  }

  function HandOf(pc: WorkPc, task: Task): Hand {
    if Holding(pc) then Holds(task) else if pc == WBusy then Hand.Runs(task) else Empty
  }

  function Abs(s: State): Pool {
    Pool(
      if s.ring.Valid() then s.ring.Contents() else [],
      seq(|s.spc|, i requires 0 <= i < |s.spc| => if i < |s.arg| then Asked(s.spc[i], s.arg[i]) else None),
      seq(|s.wpc|, j requires 0 <= j < |s.wpc| => if j < |s.local| then HandOf(s.wpc[j], s.local[j]) else Empty),
      s.called, s.started, None, s.shutdown)
  }

  ghost predicate Refines(c: Config, s: State, step: Step, t: State) {
    if EventOf(s, step).Some? then SpecNext(RulesOf(c), Abs(s), EventOf(s, step).value) == Some(Abs(t))
    else Abs(t) == Abs(s)
  }

  lemma RefinesPut(c: Config, s: State, i: nat, wake: set<nat>)
    requires Inv(c, s) && SubmitterNext(c, s, i, wake).Some? && s.spc[i] == SPut
    ensures Refines(c, s, Submit(i, wake), SubmitterNext(c, s, i, wake).value)
  {
    PutAppends(s.ring, s.arg[i]);
    var t := SubmitterNext(c, s, i, wake).value;
    assert Abs(t).asked == Abs(s).asked[i := None];
    assert Abs(t).hands == Abs(s).hands;
  }

  lemma RefinesMove(c: Config, s: State, i: nat, wake: set<nat>)
    requires Inv(c, s) && SubmitterNext(c, s, i, wake).Some? && s.spc[i] != SPut && s.spc[i] != SSignal
    ensures Refines(c, s, Submit(i, wake), SubmitterNext(c, s, i, wake).value)
  {
    var t := SubmitterNext(c, s, i, wake).value;
    assert t.wpc == s.wpc && t.spc == s.spc[i := t.spc[i]];
    assert Abs(t).asked == Abs(s).asked[i := Asked(t.spc[i], s.arg[i])];
  }

  lemma RefinesSubmit(c: Config, s: State, i: nat, wake: set<nat>)
    requires Inv(c, s) && SubmitterNext(c, s, i, wake).Some?
    ensures Refines(c, s, Submit(i, wake), SubmitterNext(c, s, i, wake).value)
  {
    var t := SubmitterNext(c, s, i, wake).value;
    if s.spc[i] == SPut {
      RefinesPut(c, s, i, wake);
    } else if s.spc[i] == SSignal {
      assert Abs(t).asked == Abs(s).asked;
      assert Abs(t).hands == Abs(s).hands;
    } else {
      RefinesMove(c, s, i, wake);
    }
  }

  lemma RefinesTake(c: Config, s: State, j: nat, wake: set<nat>)
    requires Inv(c, s) && WorkerNext(c, s, j, wake).Some? && s.wpc[j] == WTake
    ensures Refines(c, s, Work(j, wake), WorkerNext(c, s, j, wake).value)
  {
    TakeRemovesOldest(s.ring);
    var t := WorkerNext(c, s, j, wake).value;
    var queue := s.ring.Contents();
    assert queue[0] == s.ring.buf[s.ring.head] && queue[1..] == t.ring.Contents();
    assert Abs(t).hands == Abs(s).hands[j := Holds(queue[0])];
    assert Abs(t).asked == Abs(s).asked;
  }

  lemma RefinesSignal(c: Config, s: State, j: nat, wake: set<nat>)
    requires Inv(c, s) && WorkerNext(c, s, j, wake).Some? && s.wpc[j] == WSignal
    ensures Refines(c, s, Work(j, wake), WorkerNext(c, s, j, wake).value)
  {
    var t := WorkerNext(c, s, j, wake).value;
    assert Abs(t).asked == Abs(s).asked;
    assert Abs(t).hands == Abs(s).hands;
  }

  lemma WorkerMoves(c: Config, s: State, j: nat, wake: set<nat>)
    requires WorkerNext(c, s, j, wake).Some? && s.wpc[j] != WTake && s.wpc[j] != WSignal
    ensures var t := WorkerNext(c, s, j, wake).value;
      && t.ring == s.ring && t.spc == s.spc && t.arg == s.arg && t.local == s.local && t.called == s.called
      && t.shutdown == s.shutdown && t.wpc == s.wpc[j := t.wpc[j]]
      && t.started == s.started + if s.wpc[j] == WRun then [s.local[j]] else []
  {
  }

  lemma RefinesWork(c: Config, s: State, j: nat, wake: set<nat>)
    requires Inv(c, s) && WorkerNext(c, s, j, wake).Some?
    ensures Refines(c, s, Work(j, wake), WorkerNext(c, s, j, wake).value)
  {
    if s.wpc[j] == WTake {
      RefinesTake(c, s, j, wake);
    } else if s.wpc[j] == WSignal {
      RefinesSignal(c, s, j, wake);
    } else {
      var t := WorkerNext(c, s, j, wake).value;
      WorkerMoves(c, s, j, wake);
      assert Abs(t).asked == Abs(s).asked;
      assert Abs(t).hands == Abs(s).hands[j := HandOf(t.wpc[j], s.local[j])];
    }
  }

  lemma RefinesDestroy(c: Config, s: State)
    requires Inv(c, s) && DestroyerNext(c, s).Some?
    ensures Refines(c, s, Destroy, DestroyerNext(c, s).value)
  {
    var t := DestroyerNext(c, s).value;
    assert Abs(t).hands == Abs(s).hands;
    assert Abs(t).asked == Abs(s).asked;
  }

  lemma RefinesCall(c: Config, s: State, step: Step)
    requires Inv(c, s) && Next(c, s, step).Some? && step.CallSubmit?
    ensures Refines(c, s, step, Next(c, s, step).value)
  {
    var t := Next(c, s, step).value;
    assert Abs(t).hands == Abs(s).hands;
    assert Abs(t).asked == Abs(s).asked[step.i := Some(step.task)];
  }

  lemma RefinesRest(c: Config, s: State, step: Step)
    requires Inv(c, s) && Next(c, s, step).Some? && !ThreadStep(step) && !step.CallSubmit?
    ensures Refines(c, s, step, Next(c, s, step).value)
  {
    var t := Next(c, s, step).value;
    assert Abs(t).hands == Abs(s).hands;
    assert Abs(t).asked == Abs(s).asked;
  }

  ghost function InvOf(c: Config): State -> bool {
    s => Inv(c, s)
  }

  lemma PoolSimulates(c: Config)
    ensures Simulates(Machine(c), EventOf, InvOf(c), Spec(RulesOf(c)), Abs)
  {
    forall s, step | Inv(c, s) && Next(c, s, step).Some?
      ensures Inv(c, Next(c, s, step).value) && Refines(c, s, step, Next(c, s, step).value)
    {
      InvStep(c, s, step);
      if step.Submit? {
        RefinesSubmit(c, s, step.i, step.wake);
      } else if step.Work? {
        RefinesWork(c, s, step.i, step.wake);
      } else if step.Destroy? {
        RefinesDestroy(c, s);
      } else if step.CallSubmit? {
        RefinesCall(c, s, step);
      } else {
        RefinesRest(c, s, step);
      }
    }
  }

  // ---------------------------------------------------------------------------------------------
  // Every history of the specification occurs
  // ---------------------------------------------------------------------------------------------

  ghost function HistoryOf(c: Config, s: State, run: seq<Step>): seq<Event>
    requires Legal(c, s, run)
  {
    History(Machine(c), EventOf, s, run)
  }

  /** No thread is in its critical section and none sleeps; destroy has not been called, or is at its first join. */
  ghost predicate Ready(c: Config, s: State) {
    && Inv(c, s) && s.owner == Free
    && (forall i :: 0 <= i < |s.spc| ==> s.spc[i] == SOut || s.spc[i] == SLock)
    && (forall j :: 0 <= j < |s.wpc| ==> s.wpc[j] == WLock || s.wpc[j] == WRun || s.wpc[j] == WBusy)
    && s.dpc == if s.shutdown then DJoin(0) else DOut
  }

  /** One more step of a run, and what it shows. */
  lemma Goes(c: Config, s: State, run: seq<Step>, step: Step)
    requires Legal(c, s, run) && Next(c, Exec(c, s, run), step).Some?
    ensures Legal(c, s, run + [step])
    ensures Exec(c, s, run + [step]) == Next(c, Exec(c, s, run), step).value
    ensures HistoryOf(c, s, run + [step]) == HistoryOf(c, s, run) + Shown(EventOf(Exec(c, s, run), step))
  {
    Then(c, s, run, step);
    HistoryExtend(Machine(c), EventOf, s, run, step);
  }

  lemma AcceptRun(c: Config, s: State, i: nat) returns (run: seq<Step>)
    requires s.owner == Free && !s.shutdown && !Freed(s) && s.ring.count < c.capacity
    requires i < |s.spc| == |s.arg| && s.spc[i] == SLock && WWait !in s.wpc && 0 <= s.ring.tail < |s.ring.buf|
    ensures Legal(c, s, run) && HistoryOf(c, s, run) == [Accept(i)]
    ensures Exec(c, s, run) ==
      s.(spc := s.spc[i := SOut], ring := s.ring.Put(s.arg[i]), accepted := s.accepted + [s.arg[i]])
  {
    var go := Submit(i, {});
    run := [];
    Goes(c, s, run, go);
    run := run + [go];
    assert Exec(c, s, run) == s.(owner := Submitter(i), spc := s.spc[i := STest]);
    Goes(c, s, run, go);
    run := run + [go];
    assert Exec(c, s, run) == s.(owner := Submitter(i), spc := s.spc[i := SCheck]);
    Goes(c, s, run, go);
    run := run + [go];
    assert Exec(c, s, run) == s.(owner := Submitter(i), spc := s.spc[i := SPut]);
    Goes(c, s, run, go);
    run := run + [go];
    var t := s.(owner := Submitter(i), ring := s.ring.Put(s.arg[i]), accepted := s.accepted + [s.arg[i]]);
    assert Exec(c, s, run) == t.(spc := s.spc[i := SSignal]);
    assert Wake(s.wpc, {}, WWoken) == s.wpc;
    Goes(c, s, run, go);
    run := run + [go];
    assert Exec(c, s, run) == t.(spc := s.spc[i := SUnlock]);
    Goes(c, s, run, go);
    run := run + [go];
    assert s.spc[i := SUnlock][i := SOut] == s.spc[i := SOut];
  }

  lemma TurnAwayRun(c: Config, s: State, i: nat) returns (run: seq<Step>)
    requires s.owner == Free && s.shutdown && !Freed(s) && i < |s.spc| == |s.arg| && s.spc[i] == SLock
    ensures Legal(c, s, run) && HistoryOf(c, s, run) == [TurnAway(i)]
    ensures Exec(c, s, run) == s.(spc := s.spc[i := SOut])
  {
    var go := Submit(i, {});
    run := [];
    Goes(c, s, run, go);
    run := run + [go];
    assert Exec(c, s, run) == s.(owner := Submitter(i), spc := s.spc[i := STest]);
    Goes(c, s, run, go);
    run := run + [go];
    assert Exec(c, s, run) == s.(owner := Submitter(i), spc := s.spc[i := SCheck]);
    Goes(c, s, run, go);
    run := run + [go];
    assert Exec(c, s, run) == s.(owner := Submitter(i), spc := s.spc[i := SLeave]);
    Goes(c, s, run, go);
    run := run + [go];
    assert s.spc[i := SLeave][i := SOut] == s.spc[i := SOut];
  }

  /** A worker up to line 94. */
  lemma ToTheQueue(c: Config, s: State, j: nat) returns (run: seq<Step>)
    requires s.owner == Free && !s.shutdown && !Freed(s) && s.ring.count > 0
    requires j < |s.wpc| == |s.local| && s.wpc[j] == WLock
    ensures Legal(c, s, run) && HistoryOf(c, s, run) == []
    ensures Exec(c, s, run) == s.(owner := Worker(j), wpc := s.wpc[j := WTake])
  {
    var go := Work(j, {});
    run := [];
    Goes(c, s, run, go);
    run := run + [go];
    assert Exec(c, s, run) == s.(owner := Worker(j), wpc := s.wpc[j := WTest]);
    Goes(c, s, run, go);
    run := run + [go];
    assert Exec(c, s, run) == s.(owner := Worker(j), wpc := s.wpc[j := WCheck]);
    Goes(c, s, run, go);
    run := run + [go];
  }

  /** A worker from line 94 to its unlock, when no submitter sleeps. */
  lemma FromTheQueue(c: Config, s: State, j: nat) returns (run: seq<Step>)
    requires !Freed(s) && SWait !in s.spc && 0 <= s.ring.head < |s.ring.buf|
    requires j < |s.wpc| == |s.local| && s.wpc[j] == WTake
    ensures Legal(c, s, run) && HistoryOf(c, s, run) == [Remove(j)]
    ensures var task := s.ring.buf[s.ring.head];
      Exec(c, s, run) == s.(owner := Free, wpc := s.wpc[j := WRun], ring := s.ring.Take(),
                            local := s.local[j := task], taken := s.taken + [task])
  {
    var go, task := Work(j, {}), s.ring.buf[s.ring.head];
    var t := s.(ring := s.ring.Take(), local := s.local[j := task], taken := s.taken + [task]);
    run := [];
    Goes(c, s, run, go);
    run := run + [go];
    assert Exec(c, s, run) == t.(wpc := s.wpc[j := WSignal]);
    assert Wake(s.spc, {}, SWoken) == s.spc;
    Goes(c, s, run, go);
    run := run + [go];
    assert Exec(c, s, run) == t.(wpc := s.wpc[j := WUnlock]);
    Goes(c, s, run, go);
    run := run + [go];
    assert s.wpc[j := WUnlock][j := WRun] == s.wpc[j := WRun];
  }

  lemma RemoveRun(c: Config, s: State, j: nat) returns (run: seq<Step>)
    requires s.owner == Free && !s.shutdown && !Freed(s) && s.ring.count > 0
    requires j < |s.wpc| == |s.local| && s.wpc[j] == WLock && SWait !in s.spc && 0 <= s.ring.head < |s.ring.buf|
    ensures Legal(c, s, run) && HistoryOf(c, s, run) == [Remove(j)]
    ensures var task := s.ring.buf[s.ring.head];
      Exec(c, s, run) ==
        s.(wpc := s.wpc[j := WRun], ring := s.ring.Take(), local := s.local[j := task], taken := s.taken + [task])
  {
    run := ToTheQueue(c, s, j);
    var t := Exec(c, s, run);
    var more := FromTheQueue(c, t, j);
    ThenRun(c, s, run, more);
    HistoryConcat(Machine(c), EventOf, s, run, more);
    run := run + more;
    assert t.wpc[j := WRun] == s.wpc[j := WRun];
  }

  lemma CloseRun(c: Config, s: State) returns (run: seq<Step>)
    requires s.owner == Free && s.dpc == DOut && WWait !in s.wpc && SWait !in s.spc
    ensures Legal(c, s, run) && HistoryOf(c, s, run) == [Close]
    ensures Exec(c, s, run) == s.(dpc := DJoin(0), shutdown := true)
  {
    run := [];
    Goes(c, s, run, CallDestroy);
    run := run + [CallDestroy];
    assert Exec(c, s, run) == s.(dpc := DLock);
    Goes(c, s, run, Destroy);
    run := run + [Destroy];
    assert Exec(c, s, run) == s.(owner := Destroyer, dpc := DFlag);
    Goes(c, s, run, Destroy);
    run := run + [Destroy];
    var t := s.(owner := Destroyer, shutdown := true);
    assert Exec(c, s, run) == t.(dpc := DWakeWorkers);
    assert Waiters(s.wpc, WWait) == {} && Wake(s.wpc, {}, WWoken) == s.wpc;
    Goes(c, s, run, Destroy);
    run := run + [Destroy];
    if c.variant != AsWritten {
      assert Exec(c, s, run) == t.(dpc := DWakeSubmitters);
      assert Waiters(s.spc, SWait) == {} && Wake(s.spc, {}, SWoken) == s.spc;
      Goes(c, s, run, Destroy);
      run := run + [Destroy];
    }
    assert Exec(c, s, run) == t.(dpc := DUnlock);
    Goes(c, s, run, Destroy);
    run := run + [Destroy];
  }

  lemma StepRun(c: Config, s: State, step: Step) returns (run: seq<Step>)
    requires Next(c, s, step).Some? && EventOf(s, step).Some?
    ensures Legal(c, s, run) && HistoryOf(c, s, run) == [EventOf(s, step).value]
    ensures Exec(c, s, run) == Next(c, s, step).value
  {
    run := [];
    Goes(c, s, run, step);
    run := run + [step];
  }

  /** Where a submitter or worker of a pool that is ready stands, from what it has in its hands. */
  lemma WhoIsWhere(c: Config, s: State)
    requires Ready(c, s)
    ensures WWait !in s.wpc && SWait !in s.spc && !Freed(s) && s.ring.Valid() && |s.ring.buf| == c.capacity
    ensures |Abs(s).asked| == |s.spc| == |s.arg| && |Abs(s).hands| == |s.wpc| == |s.local|
    ensures |Abs(s).queue| == s.ring.count
    ensures forall i: nat :: i < |s.spc| ==>
      (Abs(s).asked[i].Some? ==> s.spc[i] == SLock) && (Abs(s).asked[i].None? ==> s.spc[i] == SOut)
    ensures forall j: nat :: j < |s.wpc| ==>
      && (Abs(s).hands[j].Empty? ==> s.wpc[j] == WLock) && (Abs(s).hands[j].Holds? ==> s.wpc[j] == WRun)
      && (Abs(s).hands[j].Runs? ==> s.wpc[j] == WBusy)
  {
  }

  lemma ShowsSubmit(c: Config, s: State, i: nat, e: Event) returns (run: seq<Step>)
    requires Ready(c, s) && i < |s.spc| && s.spc[i] == SLock
    requires (e == Accept(i) && !s.shutdown && s.ring.count < c.capacity) || (e == TurnAway(i) && s.shutdown)
    ensures Legal(c, s, run) && HistoryOf(c, s, run) == [e] && Ready(c, Exec(c, s, run))
  {
    WhoIsWhere(c, s);
    if e == Accept(i) {
      run := AcceptRun(c, s, i);
    } else {
      run := TurnAwayRun(c, s, i);
    }
    InvAlongRun(c, s, run);
  }

  lemma ShowsRemove(c: Config, s: State, j: nat) returns (run: seq<Step>)
    requires Ready(c, s) && j < |s.wpc| && s.wpc[j] == WLock && !s.shutdown && s.ring.count > 0
    ensures Legal(c, s, run) && HistoryOf(c, s, run) == [Remove(j)] && Ready(c, Exec(c, s, run))
  {
    WhoIsWhere(c, s);
    run := RemoveRun(c, s, j);
    InvAlongRun(c, s, run);
  }

  lemma ShowsClose(c: Config, s: State) returns (run: seq<Step>)
    requires Ready(c, s) && !s.shutdown
    ensures Legal(c, s, run) && HistoryOf(c, s, run) == [Close] && Ready(c, Exec(c, s, run))
  {
    WhoIsWhere(c, s);
    run := CloseRun(c, s);
    InvAlongRun(c, s, run);
  }

  lemma ShowsCall(c: Config, s: State, i: nat, task: Task) returns (run: seq<Step>)
    requires Ready(c, s) && i < |s.spc| && s.spc[i] == SOut && task !in s.called
    ensures Legal(c, s, run) && HistoryOf(c, s, run) == [Call(i, task)] && Ready(c, Exec(c, s, run))
  {
    WhoIsWhere(c, s);
    run := StepRun(c, s, CallSubmit(i, task));
    InvStep(c, s, CallSubmit(i, task));
  }

  lemma ShowsTask(c: Config, s: State, j: nat, e: Event) returns (run: seq<Step>)
    requires Ready(c, s) && j < |s.wpc|
    requires (e == Start(j) && s.wpc[j] == WRun) || (e == Finish(j) && s.wpc[j] == WBusy)
    ensures Legal(c, s, run) && HistoryOf(c, s, run) == [e] && Ready(c, Exec(c, s, run))
  {
    WhoIsWhere(c, s);
    run := StepRun(c, s, Work(j, {}));
    InvStep(c, s, Work(j, {}));
  }

  ghost function ReadyOf(c: Config): State -> bool {
    s => Ready(c, s)
  }

  lemma PoolRealizes(c: Config)
    ensures Realizes(Machine(c), EventOf, ReadyOf(c), Spec(RulesOf(c)), Abs)
  {
    forall s, e | Ready(c, s) && SpecNext(RulesOf(c), Abs(s), e).Some?
      ensures Shows(Machine(c), EventOf, ReadyOf(c), s, e)
    {
      WhoIsWhere(c, s);
      var run: seq<Step>;
      match e {
        case Call(i, task) => run := ShowsCall(c, s, i, task);
        case Accept(i) => run := ShowsSubmit(c, s, i, e);
        case TurnAway(i) => run := ShowsSubmit(c, s, i, e);
        case Remove(j) => run := ShowsRemove(c, s, j);
        case Start(j) => run := ShowsTask(c, s, j, e);
        case Finish(j) => run := ShowsTask(c, s, j, e);
        case Close => run := ShowsClose(c, s);
      }
      assert ReadyOf(c)(After(Machine(c), s, run));
    }
  }

  /**
   The pool does what a bounded first-in first-out queue does, and can do all of it: from the initial state,
   in every variant, the histories of calls, acceptances, refusals, removals, starts and ends of tasks and
   the closing are exactly those of PoolSpec.
   */
  lemma HistoriesIff(c: Config, s: State, history: seq<Event>)
    requires IsInit(c, s)
    ensures (exists run :: Legal(c, s, run) && HistoryOf(c, s, run) == history)
       <==> LegalRun(Spec(RulesOf(c)), NewPool(c.submitters, c.workers), history)
  {
    InitInv(c, s);
    assert Abs(s) == NewPool(c.submitters, c.workers);
    PoolSimulates(c);
    forall run | Legal(c, s, run) && HistoryOf(c, s, run) == history
      ensures LegalRun(Spec(RulesOf(c)), Abs(s), history)
    {
      HistoriesAreSpecified(Machine(c), EventOf, InvOf(c), Spec(RulesOf(c)), Abs, s, run);
    }
    if LegalRun(Spec(RulesOf(c)), Abs(s), history) {
      PoolRealizes(c);
      var run := HistoriesAreRealized(Machine(c), EventOf, InvOf(c), ReadyOf(c), Spec(RulesOf(c)), Abs, s, history);
      assert HistoryOf(c, s, run) == history;
    }
  }
}
