/**
 Exactly when a call of submit adds a worker to the pool of pthreads/pthreads6.c with the second lock of
 `pool_mutex` left out.
 */
module GrowingPoolGrowth {
  import opened GrowingPool
  import opened GrowingPoolSafety
  import opened GrowingPoolTheorems

  /** Submitter i takes the step of line 122, in which pthread_create answers `created`. */
  predicate Creates(s: State, step: Step, i: nat, created: bool) {
    step.Submit? && step.i == i && i < |s.spc| && s.spc[i] == SCreate && step.x.created == created
  }

  /** Submitter i makes such a step somewhere in the run. */
  ghost predicate CreatesIn(c: Config, s: State, run: seq<Step>, i: nat, created: bool)
    requires Legal(c, s, run)
    decreases |run|
  {
    run != [] && (Creates(s, run[0], i, created) || CreatesIn(c, Next(c, s, run[0]).value, run[1..], i, created))
  }

  /** The run ends with the first return from submit. */
  ghost predicate EndsWithReturn(c: Config, s: State, run: seq<Step>)
    requires Legal(c, s, run)
    decreases |run|
  {
    && run != []
    && if |run| == 1 then Next(c, s, run[0]).value.returned > s.returned
       else Next(c, s, run[0]).value.returned == s.returned && EndsWithReturn(c, Next(c, s, run[0]).value, run[1..])
  }

  /** Submitter i is in its call, at the growth test or behind it. */
  ghost predicate Checking(s: State, i: nat) {
    && i < |s.spc| && s.queueOwner == Submitter(i)
    && (s.spc[i] == SGrow || s.spc[i] == SLockPool || HoldsPool(s.spc[i]) || s.spc[i] == SUnlock)
  }

  /** It is going to create a thread. */
  ghost predicate WillCreate(c: Config, s: State, i: nat)
    requires i < |s.spc|
  {
    if s.spc[i] == SGrow then Grows(c, s)
    else s.spc[i].SLockPool? || s.spc[i].SRecheck? || s.spc[i].SBelowMax? || s.spc[i].SCreate?
  }

  /** One more while the created thread is not counted. */
  function Uncounted(s: State, i: nat): nat {
    if i < |s.spc| && s.spc[i] == SCount then 1 else 0
  }

  lemma OwnStep(c: Config, s: State, i: nat, x: Choice)
    requires SubmitterPointInv(c, s) && c.variant == WithoutRelock
    requires Checking(s, i) && SubmitterNext(c, s, i, x).Some?
    ensures var t, created := SubmitterNext(c, s, i, x).value, Creates(s, Submit(i, x), i, true);
      && (t.returned > s.returned <==> s.spc[i] == SUnlock)
      && (s.spc[i] != SUnlock ==> Checking(t, i) && t.returned == s.returned)
      && t.num + Uncounted(t, i) == s.num + Uncounted(s, i) + (if created then 1 else 0)
      && (s.spc[i] != SUnlock ==>
            && (WillCreate(c, s, i) <==> WillCreate(c, t, i) || s.spc[i] == SCreate)
            && !(WillCreate(c, t, i) && s.spc[i] == SCreate))
  {
  }

  lemma OtherStep(c: Config, s: State, step: Step, i: nat)
    requires MutexInv(c, s) && c.variant == WithoutRelock
    requires Checking(s, i) && Next(c, s, step).Some? && !(step.Submit? && step.i == i)
    ensures var t := Next(c, s, step).value;
      && Checking(t, i) && t.returned == s.returned && t.num == s.num && t.ring == s.ring && t.spc[i] == s.spc[i]
  {
  }

  lemma LastStep(c: Config, s: State, run: seq<Step>, i: nat)
    requires Inv(c, s) && c.variant == WithoutRelock && Checking(s, i)
    requires Legal(c, s, run) && |run| == 1 && EndsWithReturn(c, s, run)
    ensures run[0].Submit? && run[0].i == i && s.spc[i] == SUnlock
    ensures var t := Exec(c, s, run);
      t.num == s.num && i < |t.spc| && t.spc[i] == SOut && t.poolOwner == Free
    ensures !CreatesIn(c, s, run, i, true) && !CreatesIn(c, s, run, i, false)
  {
    if run[0].Submit? && run[0].i == i {
      OwnStep(c, s, i, run[0].x);
    } else {
      OtherStep(c, s, run[0], i);
    }
    var t := Next(c, s, run[0]).value;
    assert run[1..] == [];
    assert Exec(c, t, []) == t && Exec(c, s, run) == Exec(c, t, run[1..]);
  }

  /** From any point of a growth check to the return of its submit. */
  lemma {:induction false} CheckedRun(c: Config, s: State, run: seq<Step>, i: nat)
    requires Inv(c, s) && c.variant == WithoutRelock && Checking(s, i)
    requires Legal(c, s, run) && EndsWithReturn(c, s, run)
    ensures Exec(c, s, run).num == s.num + Uncounted(s, i) + (if CreatesIn(c, s, run, i, true) then 1 else 0)
    ensures WillCreate(c, s, i) <==> CreatesIn(c, s, run, i, true) || CreatesIn(c, s, run, i, false)
    ensures !(CreatesIn(c, s, run, i, true) && CreatesIn(c, s, run, i, false))
    ensures i < |Exec(c, s, run).spc| && Exec(c, s, run).spc[i] == SOut && Exec(c, s, run).poolOwner == Free
    decreases |run|
  {
    if |run| == 1 {
      LastStep(c, s, run, i);
    } else {
      InvStep(c, s, run[0]);
      if run[0].Submit? && run[0].i == i {
        OwnStep(c, s, i, run[0].x);
      } else {
        OtherStep(c, s, run[0], i);
      }
      CheckedRun(c, Next(c, s, run[0]).value, run[1..], i);
    }
  }

  /**
   The growth check of line 99, exactly. From the check to the return of the submit that makes it, whatever
   the other threads do: a thread is created, or fails to be created, if and only if the queue is full and
   there are fewer threads than the maximum; and the number of threads, and of workers, is one more at
   the return if and only if that creation succeeded, and else the same.
   */
  lemma GrowthAddsIff(c: Config, s: State, run: seq<Step>, i: nat)
    requires Reachable(c, s) && c.variant == WithoutRelock && i < |s.spc| && s.spc[i] == SGrow
    requires Legal(c, s, run) && EndsWithReturn(c, s, run)
    ensures var t := Exec(c, s, run);
      && i < |t.spc| && t.spc[i] == SOut
      && (Grows(c, s) <==> CreatesIn(c, s, run, i, true) || CreatesIn(c, s, run, i, false))
      && !(CreatesIn(c, s, run, i, true) && CreatesIn(c, s, run, i, false))
      && |s.wpc| == s.num && |t.wpc| == t.num
      && t.num == s.num + if CreatesIn(c, s, run, i, true) then 1 else 0
  {
    ReachableInv(c, s);
    assert SHolds(s.spc[i]);
    CheckedRun(c, s, run, i);
    InvAlongRun(c, s, run);
  }

  function CheckRank(pc: SubmitPc): nat {
    match pc
    case SGrow => 7
    case SLockPool => 6
    case SRecheck => 5
    case SBelowMax => 4
    case SCreate => 3
    case SCount => 2
    case SUnlockPool => 1
    case _ => 0
  }

  /** The step of a submitter in its growth check; it is not blocked. */
  lemma CheckGoesOn(c: Config, s: State, i: nat, created: bool)
    requires Inv(c, s) && c.variant == WithoutRelock && !Freed(s) && Checking(s, i)
    ensures var step := Submit(i, Choice({}, created, 0));
      && Next(c, s, step).Some?
      && var t := Next(c, s, step).value;
         && !Freed(t) && i < |t.spc|
         && (s.spc[i] != SUnlock ==> Checking(t, i) && CheckRank(t.spc[i]) < CheckRank(s.spc[i]))
  {
  }

  /** The submitter alone goes on to its return. */
  lemma {:induction false} FinishesCheck(c: Config, s: State, i: nat, created: bool) returns (run: seq<Step>)
    requires Inv(c, s) && c.variant == WithoutRelock && !Freed(s) && Checking(s, i)
    ensures Legal(c, s, run) && EndsWithReturn(c, s, run)
    ensures Exec(c, s, run).num == s.num + Uncounted(s, i) + if WillCreate(c, s, i) && created then 1 else 0
    decreases CheckRank(s.spc[i])
  {
    var go := Submit(i, Choice({}, created, 0));
    var t := Next(c, s, go).value;
    CheckGoesOn(c, s, i, created);
    OwnStep(c, s, i, go.x);
    if s.spc[i] == SUnlock {
      run := [go];
      assert run[1..] == [];
      assert Exec(c, t, []) == t && Exec(c, s, run) == Exec(c, t, run[1..]);
    } else {
      InvStep(c, s, go);
      var rest := FinishesCheck(c, t, i, created);
      run := [go] + rest;
      assert run[1..] == rest;
    }
  }

  /**
   And it does grow: whenever the growth test succeeds in a pool that is not freed, the submit can return
   with one thread more, and, if the creation fails, with the same number.
   */
  lemma GrowthHappens(c: Config, s: State, i: nat, created: bool)
    requires Reachable(c, s) && c.variant == WithoutRelock && !Freed(s)
    requires i < |s.spc| && s.spc[i] == SGrow && Grows(c, s)
    ensures exists run :: Legal(c, s, run) && EndsWithReturn(c, s, run)
                    && Exec(c, s, run).num == s.num + if created then 1 else 0
  {
    ReachableInv(c, s);
    assert SHolds(s.spc[i]);
    var run := FinishesCheck(c, s, i, created);
  }
}
