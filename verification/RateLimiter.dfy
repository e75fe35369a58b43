/**
 The rate limiter of pthreads/pthreads4.c: a counting semaphore that any number of threads acquire
 once and release once.
 */
module RateLimiter {
  import opened Threads
  import opened Runs

  /** `max` is the `max_requests` of line 16. */
  datatype Config = Config(max: nat, threads: nat)

  /** task_function, lines 69-78. */
  datatype Pc =
    | Acquire // 72: sem_wait
    | Working // 73-75
    | Release // 76: sem_post
    | Done    // 77

  datatype State = State(value: int, pcs: seq<Pc>)

  predicate IsInit(c: Config, s: State) {
    s.value == c.max && |s.pcs| == c.threads && forall i :: 0 <= i < |s.pcs| ==> s.pcs[i] == Acquire
  }

  /** A step of thread i. */
  function Next(s: State, i: nat): Option<State> {
    if i >= |s.pcs| then None else
    match s.pcs[i]
    case Acquire => if s.value > 0 then Some(State(s.value - 1, s.pcs[i := Working])) else None
    case Working => Some(s.(pcs := s.pcs[i := Release]))
    case Release => Some(State(s.value + 1, s.pcs[i := Done]))
    case Done => None
  }

  /** A run names the thread that takes each step. */
  ghost predicate Legal(s: State, run: seq<nat>) {
    LegalRun(Next, s, run)
  }

  ghost function Exec(s: State, run: seq<nat>): State
    requires Legal(s, run)
  {
    After(Next, s, run)
  }

  ghost predicate Stuck(s: State) {
    forall i: nat :: Next(s, i).None?
  }

  /** The threads that hold a permit. */
  function Holders(s: State): nat {
    Count(s.pcs, Working) + Count(s.pcs, Release)
  }

  ghost predicate Inv(c: Config, s: State) {
    |s.pcs| == c.threads && s.value >= 0 && s.value + Holders(s) == c.max
  }

  function Rank(pc: Pc): nat {
    match pc
    case Acquire => 3
    case Working => 2
    case Release => 1
    case Done => 0
  }

  lemma StepKeepsPermits(c: Config, s: State, i: nat)
    requires Inv(c, s) && Next(s, i).Some?
    ensures Inv(c, Next(s, i).value)
    ensures Sum(Next(s, i).value.pcs, Rank) + 1 == Sum(s.pcs, Rank)
  {
    SumUpdate(s.pcs, Rank, i, Next(s, i).value.pcs[i]);
  }

  lemma {:induction false} RunKeepsPermits(c: Config, s: State, run: seq<nat>)
    requires Inv(c, s) && Legal(s, run)
    ensures Inv(c, Exec(s, run))
    ensures |run| + Sum(Exec(s, run).pcs, Rank) == Sum(s.pcs, Rank)
    decreases |run|
  {
    if run != [] {
      StepKeepsPermits(c, s, run[0]);
      RunKeepsPermits(c, Next(s, run[0]).value, run[1..]);
    }
  }

  lemma InitInv(c: Config, s: State)
    requires IsInit(c, s)
    ensures Inv(c, s) && Sum(s.pcs, Rank) == 3 * c.threads
  {
    assert Working !in s.pcs && Release !in s.pcs;
    SumConstant(s.pcs, Rank, Acquire);
  }

  /**
   In every state of every run, permits are conserved and no more than `max` threads hold one; no run
   exceeds 3 steps a thread.
   */
  lemma PermitsAreConserved(c: Config, s: State, run: seq<nat>)
    requires IsInit(c, s) && Legal(s, run)
    ensures Exec(s, run).value + Holders(Exec(s, run)) == c.max
    ensures 0 <= Exec(s, run).value <= c.max && Holders(Exec(s, run)) <= c.max
    ensures |run| <= 3 * c.threads
  {
    InitInv(c, s);
    RunKeepsPermits(c, s, run);
  }

  /**
   With at least one permit a run can stop only when every thread is done, after exactly 3 steps a
   thread, with all permits returned. Without permits no thread ever gets past its acquire.
   */
  lemma RunsComplete(c: Config, s: State, run: seq<nat>)
    requires IsInit(c, s) && Legal(s, run) && Stuck(Exec(s, run))
    ensures var t := Exec(s, run);
      if c.max >= 1
      then (forall i :: 0 <= i < |t.pcs| ==> t.pcs[i] == Done) && t.value == c.max && |run| == 3 * c.threads
      else run == []
  {
    InitInv(c, s);
    RunKeepsPermits(c, s, run);
    var t := Exec(s, run);
    if c.max >= 1 {
      StuckMeansDone(c, t);
      SumConstant(t.pcs, Rank, Done);
      assert Working !in t.pcs && Release !in t.pcs;
    }
  }

  lemma StuckMeansDone(c: Config, t: State)
    requires Inv(c, t) && Stuck(t) && c.max >= 1
    ensures forall i :: 0 <= i < |t.pcs| ==> t.pcs[i] == Done
  {
    forall i: nat | i < |t.pcs| ensures t.pcs[i] == Acquire || t.pcs[i] == Done {
      assert Next(t, i).None?;
    }
    assert Working !in t.pcs && Release !in t.pcs;
    forall i: nat | i < |t.pcs| ensures t.pcs[i] == Done {
      assert Next(t, i).None?;
    }
  }

  // ---------------------------------------------------------------------------------------------
  // Which states occur
  // ---------------------------------------------------------------------------------------------

  ghost predicate Reachable(c: Config, s: State) {
    exists s0, run :: IsInit(c, s0) && Legal(s0, run) && Exec(s0, run) == s
  }

  /**
   In every reachable state a thread that is not done can go on, unless it is at its acquire and `max`
   threads hold a permit: the semaphore keeps nobody out as long as fewer do.
   */
  lemma StepIff(c: Config, s: State, i: nat)
    requires Reachable(c, s)
    ensures |s.pcs| == c.threads
    ensures Next(s, i).Some? <==> i < c.threads && s.pcs[i] != Done && (s.pcs[i] == Acquire ==> Holders(s) < c.max)
  {
    var s0, run :| IsInit(c, s0) && Legal(s0, run) && Exec(s0, run) == s;
    InitInv(c, s0);
    RunKeepsPermits(c, s0, run);
  }

  /** Permits are conserved; without permits nobody has moved. */
  ghost predicate Possible(c: Config, s: State) {
    Inv(c, s) && (c.max == 0 ==> forall i :: 0 <= i < |s.pcs| ==> s.pcs[i] == Acquire)
  }

  lemma {:induction false} RunIsPossible(c: Config, s: State, run: seq<nat>)
    requires Possible(c, s) && Legal(s, run)
    ensures Possible(c, Exec(s, run))
    decreases |run|
  {
    if run != [] {
      StepKeepsPermits(c, s, run[0]);
      RunIsPossible(c, Next(s, run[0]).value, run[1..]);
    }
  }

  /** The steps of thread i from its acquire to the point `to`. */
  lemma Advance(c: Config, s: State, i: nat, to: Pc) returns (run: seq<nat>)
    requires Inv(c, s) && i < |s.pcs| && s.pcs[i] == Acquire && (to != Acquire ==> s.value > 0)
    ensures Legal(s, run) && Inv(c, Exec(s, run)) && Exec(s, run).pcs == s.pcs[i := to]
  {
    run := [];
    if to != Acquire {
      Extend(Next, s, run, i);
      run := run + [i];
      assert Exec(s, run) == State(s.value - 1, s.pcs[i := Working]);
    }
    if to == Release || to == Done {
      Extend(Next, s, run, i);
      run := run + [i];
      assert Exec(s, run) == State(s.value - 1, s.pcs[i := Release]);
    }
    if to == Done {
      Extend(Next, s, run, i);
      run := run + [i];
    }
    assert s.pcs[i := Acquire] == s.pcs;
    RunKeepsPermits(c, s, run);
  }

  predicate Holding(pc: Pc) {
    pc == Working || pc == Release
  }

  /** First the threads that are to be done go to their end, in the second pass the holders take their permits. */
  function Target(pcs: seq<Pc>, second: bool, n: nat): (r: seq<Pc>)
    requires n <= |pcs|
    ensures |r| == |pcs|
  {
    seq(|pcs|, i requires 0 <= i < |pcs| =>
      if pcs[i] == Done && (second || i < n) then Done
      else if second && i < n then pcs[i]
      else Acquire)
  }

  lemma {:induction false} FewerHolders(a: seq<Pc>, b: seq<Pc>)
    requires |a| == |b| && forall i :: 0 <= i < |a| ==> a[i] == b[i] || a[i] == Acquire
    ensures Count(a, Working) + Count(a, Release) <= Count(b, Working) + Count(b, Release)
    ensures (exists i :: 0 <= i < |a| && a[i] != b[i] && Holding(b[i])) ==>
      Count(a, Working) + Count(a, Release) < Count(b, Working) + Count(b, Release)
  {
    if a != [] {
      var n := |a| - 1;
      assert a == a[..n] + [a[n]] && b == b[..n] + [b[n]];
      FewerHolders(a[..n], b[..n]);
    }
  }

  /** A thread that has to take a permit finds one. */
  lemma PermitLeft(c: Config, s: State, t: State, second: bool, n: nat)
    requires Possible(c, s) && Inv(c, t) && 0 < n <= |s.pcs| && t.pcs == Target(s.pcs, second, n - 1)
    requires t.pcs[n - 1] == Acquire
    ensures Target(s.pcs, second, n)[n - 1] != Acquire ==> t.value > 0
  {
    if !second {
      assert Working !in t.pcs && Release !in t.pcs;
    } else if Target(s.pcs, second, n)[n - 1] != Acquire {
      FewerHolders(t.pcs, s.pcs);
      assert t.pcs[n - 1] != s.pcs[n - 1] && Holding(s.pcs[n - 1]);
    }
  }

  lemma {:induction false} Reaches(c: Config, s0: State, s: State, second: bool, n: nat) returns (run: seq<nat>)
    requires IsInit(c, s0) && Possible(c, s) && n <= |s.pcs|
    ensures Legal(s0, run) && Inv(c, Exec(s0, run)) && Exec(s0, run).pcs == Target(s.pcs, second, n)
    decreases second, n
  {
    InitInv(c, s0);
    if n > 0 {
      run := Reaches(c, s0, s, second, n - 1);
      var t := Exec(s0, run);
      var to := Target(s.pcs, second, n)[n - 1];
      assert Target(s.pcs, second, n) == t.pcs[n - 1 := to];
      if t.pcs[n - 1] == Acquire {
        PermitLeft(c, s, t, second, n);
        var more := Advance(c, t, n - 1, to);
        Concat(Next, s0, run, more);
        run := run + more;
      }
    } else if second {
      run := Reaches(c, s0, s, false, |s.pcs|);
      assert Target(s.pcs, true, 0) == Target(s.pcs, false, |s.pcs|);
    } else {
      run := [];
      assert Target(s.pcs, false, 0) == s0.pcs;
    }
  }

  /** The reachable states are exactly those in which permits are conserved (and, without permits, nobody has moved). */
  lemma ReachableIff(c: Config, s: State)
    ensures Reachable(c, s) <==> Possible(c, s)
  {
    if Possible(c, s) {
      var s0 := State(c.max, seq(c.threads, i => Acquire));
      var run := Reaches(c, s0, s, true, |s.pcs|);
      assert Target(s.pcs, true, |s.pcs|) == s.pcs;
    }
    if Reachable(c, s) {
      var s0, run :| IsInit(c, s0) && Legal(s0, run) && Exec(s0, run) == s;
      InitInv(c, s0);
      RunIsPossible(c, s0, run);
    }
  }

  lemma {:induction false} FirstWorking(n: nat, h: nat) returns (pcs: seq<Pc>)
    requires h <= n
    ensures |pcs| == n && Count(pcs, Working) == h && Count(pcs, Release) == 0
    ensures forall i :: 0 <= i < n ==> pcs[i] == if i < h then Working else Acquire
  {
    pcs := [];
    if n > 0 {
      pcs := FirstWorking(n - 1, if h == n then h - 1 else h);
      pcs := pcs + [if h == n then Working else Acquire];
    }
  }

  /** So the numbers of threads that can hold a permit together are those up to the smaller of `max` and the threads. */
  lemma HoldersIff(c: Config, h: nat)
    ensures (exists s :: Reachable(c, s) && Holders(s) == h) <==> h <= c.max && h <= c.threads
  {
    forall s | Reachable(c, s)
      ensures Holders(s) <= c.max && Holders(s) <= c.threads
    {
      ReachableIff(c, s);
      HoldersAtMost(s.pcs);
    }
    if h <= c.max && h <= c.threads {
      var pcs := FirstWorking(c.threads, h);
      var s := State(c.max - h, pcs);
      ReachableIff(c, s);
      assert Reachable(c, s) && Holders(s) == h;
    }
  }

  lemma {:induction false} HoldersAtMost(pcs: seq<Pc>)
    ensures Count(pcs, Working) + Count(pcs, Release) <= |pcs|
  {
    if pcs != [] {
      var n := |pcs| - 1;
      assert pcs == pcs[..n] + [pcs[n]];
      HoldersAtMost(pcs[..n]);
    }
  }

  /** The struct and its functions, updating the semaphore in place. */
  class Limiter {
    const config: Config
    var semaphore: int
    var pcs: seq<Pc>

    ghost function Abs(): State
      reads this
    {
      State(semaphore, pcs)
    }

    ghost predicate Valid()
      reads this
    {
      Inv(config, Abs())
    }

    constructor (c: Config)
      ensures config == c && Valid()
      ensures IsInit(c, Abs())
    {
      config := c;
      semaphore := c.max;
      pcs := seq(c.threads, i => Acquire);
      new;
      InitInv(c, Abs());
    }

    /** rate_limiter_acquire, lines 35-44: false if the thread has to wait. */
    method AcquirePermit() returns (got: bool)
      modifies this`semaphore
      ensures got == (old(semaphore) > 0)
      ensures semaphore == if got then old(semaphore) - 1 else old(semaphore)
    {
      got := semaphore > 0;
      if got {
        semaphore := semaphore - 1;
      }
    }

    /** rate_limiter_release, lines 46-54. */
    method ReleasePermit()
      modifies this`semaphore
      ensures semaphore == old(semaphore) + 1
    {
      semaphore := semaphore + 1;
    }

    /** task_function, from one program point to the next. */
    method TaskStep(i: nat) returns (ran: bool)
      requires Valid() && i < config.threads
      modifies this
      ensures Valid()
      ensures ran == Next(old(Abs()), i).Some?
      ensures Abs() == if ran then Next(old(Abs()), i).value else old(Abs())
    {
      ghost var s := Abs();
      ran := true;
      match pcs[i] {
        case Acquire =>
          ran := AcquirePermit();
          if ran {
            pcs := pcs[i := Working];
          }
        case Working =>
          pcs := pcs[i := Release];
        case Release =>
          ReleasePermit();
          pcs := pcs[i := Done];
        case Done =>
          ran := false;
      }
      if ran {
        StepKeepsPermits(config, s, i);
      }
    }
  }
}
