/**
 Accounting of tasks, shared by the two thread pools: which tasks workers hold in their local
 variable, and which tasks are still on their way into the queue. Each family of threads is given by
 its program counters and the task variable of each thread.
 */
module Tasks {
  import opened Threads

  /** Tasks are opaque; only their identity matters. */
  type Task = nat

  /** How many threads at a program point satisfying `holding` have task x in their variable. */
  function Held<P>(pcs: seq<P>, local: seq<Task>, holding: P -> bool, x: Task): nat
    requires |pcs| == |local|
  {
    if pcs == [] then 0
    else
      var n := |pcs| - 1;
      Held(pcs[..n], local[..n], holding, x) + if holding(pcs[n]) && local[n] == x then 1 else 0
  }

  lemma {:induction false} HeldNothing<P>(pcs: seq<P>, local: seq<Task>, holding: P -> bool, x: Task)
    requires |pcs| == |local|
    requires forall i :: 0 <= i < |pcs| ==> !holding(pcs[i])
    ensures Held(pcs, local, holding, x) == 0
  {
    if pcs != [] {
      HeldNothing(pcs[..|pcs| - 1], local[..|pcs| - 1], holding, x);
    }
  }

  /** Only thread i changes: the number of holders of x changes by what thread i holds. */
  lemma {:induction false} HeldUpdate<P>(pcs: seq<P>, local: seq<Task>, holding: P -> bool,
                                         i: nat, pc: P, task: Task, x: Task)
    requires |pcs| == |local| && i < |pcs|
    ensures Held(pcs[i := pc], local[i := task], holding, x) + (if holding(pcs[i]) && local[i] == x then 1 else 0)
         == Held(pcs, local, holding, x) + (if holding(pc) && task == x then 1 else 0)
  {
    var n := |pcs| - 1;
    if i == n {
      assert pcs[i := pc][..n] == pcs[..n] && local[i := task][..n] == local[..n];
    } else {
      HeldUpdate(pcs[..n], local[..n], holding, i, pc, task, x);
      assert pcs[i := pc][..n] == pcs[..n][i := pc] && local[i := task][..n] == local[..n][i := task];
    }
  }

  lemma HeldMove<P>(pcs: seq<P>, local: seq<Task>, holding: P -> bool, i: nat, pc: P, x: Task)
    requires |pcs| == |local| && i < |pcs|
    ensures Held(pcs[i := pc], local, holding, x) + (if holding(pcs[i]) && local[i] == x then 1 else 0)
         == Held(pcs, local, holding, x) + (if holding(pc) && local[i] == x then 1 else 0)
  {
    assert local[i := local[i]] == local;
    HeldUpdate(pcs, local, holding, i, pc, local[i], x);
  }

  lemma {:induction false} HeldWake<P>(pcs: seq<P>, local: seq<Task>, holding: P -> bool,
                                       wake: set<nat>, woken: P, x: Task)
    requires |pcs| == |local| && !holding(woken)
    requires forall j :: j in wake && j < |pcs| ==> !holding(pcs[j])
    ensures Held(Wake(pcs, wake, woken), local, holding, x) == Held(pcs, local, holding, x)
  {
    if pcs != [] {
      var n := |pcs| - 1;
      HeldWake(pcs[..n], local[..n], holding, wake, woken, x);
      assert Wake(pcs, wake, woken)[..n] == Wake(pcs[..n], wake, woken);
    }
  }

  lemma HeldAppend<P>(pcs: seq<P>, local: seq<Task>, holding: P -> bool, pc: P, task: Task, x: Task)
    requires |pcs| == |local| && !holding(pc)
    ensures Held(pcs + [pc], local + [task], holding, x) == Held(pcs, local, holding, x)
  {
    assert (pcs + [pc])[..|pcs|] == pcs && (local + [task])[..|pcs|] == local;
  }

  /** Every task removed from the queue is in the variable of one holding thread, or has been started. */
  ghost predicate Conserved<P>(pcs: seq<P>, local: seq<Task>, holding: P -> bool, taken: seq<Task>, started: seq<Task>)
    requires |pcs| == |local|
  {
    forall x :: multiset(taken)[x] == Held(pcs, local, holding, x) + multiset(started)[x]
  }

  lemma ConservedTake<P>(pcs: seq<P>, local: seq<Task>, holding: P -> bool, taken: seq<Task>, started: seq<Task>,
                         i: nat, pc: P, task: Task)
    requires |pcs| == |local| && i < |pcs| && !holding(pcs[i]) && holding(pc)
    requires Conserved(pcs, local, holding, taken, started)
    ensures Conserved(pcs[i := pc], local[i := task], holding, taken + [task], started)
  {
    forall x
      ensures multiset(taken + [task])[x] == Held(pcs[i := pc], local[i := task], holding, x) + multiset(started)[x]
    {
      HeldUpdate(pcs, local, holding, i, pc, task, x);
    }
  }

  lemma ConservedStart<P>(pcs: seq<P>, local: seq<Task>, holding: P -> bool, taken: seq<Task>, started: seq<Task>,
                          i: nat, pc: P)
    requires |pcs| == |local| && i < |pcs| && holding(pcs[i]) && !holding(pc)
    requires Conserved(pcs, local, holding, taken, started)
    ensures Conserved(pcs[i := pc], local, holding, taken, started + [local[i]])
  {
    forall x
      ensures multiset(taken)[x] == Held(pcs[i := pc], local, holding, x) + multiset(started + [local[i]])[x]
    {
      HeldMove(pcs, local, holding, i, pc, x);
    }
  }

  lemma ConservedMove<P>(pcs: seq<P>, local: seq<Task>, holding: P -> bool, taken: seq<Task>, started: seq<Task>,
                         i: nat, pc: P)
    requires |pcs| == |local| && i < |pcs| && holding(pcs[i]) == holding(pc)
    requires Conserved(pcs, local, holding, taken, started)
    ensures Conserved(pcs[i := pc], local, holding, taken, started)
  {
    forall x
      ensures Held(pcs[i := pc], local, holding, x) == Held(pcs, local, holding, x)
    {
      HeldMove(pcs, local, holding, i, pc, x);
    }
  }

  lemma ConservedWake<P>(pcs: seq<P>, local: seq<Task>, holding: P -> bool, taken: seq<Task>, started: seq<Task>,
                         wake: set<nat>, woken: P)
    requires |pcs| == |local| && !holding(woken)
    requires forall j :: j in wake && j < |pcs| ==> !holding(pcs[j])
    requires Conserved(pcs, local, holding, taken, started)
    ensures Conserved(Wake(pcs, wake, woken), local, holding, taken, started)
  {
    forall x
      ensures Held(Wake(pcs, wake, woken), local, holding, x) == Held(pcs, local, holding, x)
    {
      HeldWake(pcs, local, holding, wake, woken, x);
    }
  }

  ghost predicate Distinct<T>(xs: seq<T>) {
    forall i, j :: 0 <= i < j < |xs| ==> xs[i] != xs[j]
  }

  lemma {:induction false} DistinctOnce<T>(xs: seq<T>, x: T)
    requires Distinct(xs)
    ensures multiset(xs)[x] == if x in xs then 1 else 0
  {
    if xs != [] {
      var n := |xs| - 1;
      assert xs == xs[..n] + [xs[n]];
      DistinctOnce(xs[..n], x);
    }
  }

  lemma {:induction false} DistinctBound<T>(xs: seq<T>, all: set<T>)
    requires Distinct(xs) && forall x :: x in xs ==> x in all
    ensures |xs| <= |all|
  {
    if xs != [] {
      var n := |xs| - 1;
      assert forall x :: x in xs[..n] ==> x in all - {xs[n]};
      DistinctBound(xs[..n], all - {xs[n]});
    }
  }

  lemma CardinalityOrder<T>(a: set<T>, b: set<T>)
    requires a <= b
    ensures |a| <= |b|
  {
    assert b == a + (b - a);
  }

  lemma {:induction false} BelowCardinality(xs: set<nat>, k: nat)
    requires forall x: nat :: x in xs <==> x < k
    ensures |xs| == k
  {
    if k > 0 {
      BelowCardinality(xs - {k - 1}, k - 1);
    } else {
      assert xs == {};
    }
  }

  /** Accepted tasks, and the tasks of threads at a `pending` point, are pairwise different called tasks. */
  ghost predicate Fresh<P>(pcs: seq<P>, arg: seq<Task>, pending: P -> bool, called: set<Task>, accepted: seq<Task>)
    requires |pcs| == |arg|
  {
    && Distinct(accepted)
    && (forall x :: x in accepted ==> x in called)
    && (forall i :: 0 <= i < |pcs| && pending(pcs[i]) ==> arg[i] in called && arg[i] !in accepted)
    && (forall i, j :: 0 <= i < j < |pcs| && pending(pcs[i]) && pending(pcs[j]) ==> arg[i] != arg[j])
  }

  lemma FreshMove<P>(pcs: seq<P>, arg: seq<Task>, pending: P -> bool, called: set<Task>, accepted: seq<Task>,
                     i: nat, pc: P)
    requires |pcs| == |arg| && i < |pcs| && (pending(pc) ==> pending(pcs[i]))
    requires Fresh(pcs, arg, pending, called, accepted)
    ensures Fresh(pcs[i := pc], arg, pending, called, accepted)
  {
  }

  /** Some thread at a `pending` point carries task x. */
  ghost predicate InFlight<P>(pcs: seq<P>, arg: seq<Task>, pending: P -> bool, x: Task)
    requires |pcs| == |arg|
  {
    exists i :: 0 <= i < |pcs| && pending(pcs[i]) && arg[i] == x
  }

  /** A task that was passed to submit is accepted or still with its submitter. */
  ghost predicate Delivered<P>(pcs: seq<P>, arg: seq<Task>, pending: P -> bool, called: set<Task>, accepted: seq<Task>)
    requires |pcs| == |arg|
  {
    forall x :: x in called ==> x in accepted || InFlight(pcs, arg, pending, x)
  }

  lemma DeliveredMove<P>(pcs: seq<P>, arg: seq<Task>, pending: P -> bool, called: set<Task>, accepted: seq<Task>,
                         more: seq<Task>, i: nat, pc: P)
    requires |pcs| == |arg| && i < |pcs| && (pending(pcs[i]) ==> pending(pc) || arg[i] in more)
    requires Delivered(pcs, arg, pending, called, accepted)
    ensures Delivered(pcs[i := pc], arg, pending, called, accepted + more)
  {
    forall x | x in called && x !in accepted + more
      ensures InFlight(pcs[i := pc], arg, pending, x)
    {
      var k :| 0 <= k < |pcs| && pending(pcs[k]) && arg[k] == x;
      assert pending(pcs[i := pc][k]);
    }
  }
}
