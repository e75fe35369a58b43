/**
 Vocabulary shared by every protocol of the project: optional results, the wake-up rule of
 condition variables, and sums over the program counters of a family of threads.

 Threads of one kind are numbered from 0; the sequence `pcs` holds their program counters.
 */
module Threads {
  datatype Option<+T> = None | Some(value: T)

  /** How many threads of the family stand at `p`. */
  function Count<P(==)>(pcs: seq<P>, p: P): nat {
    multiset(pcs)[p]
  }

  /** `pthread_cond_signal`: wakes only waiting threads, and at least one if any is waiting. */
  predicate LegalSignal<P(==)>(pcs: seq<P>, waiting: P, wake: set<nat>) {
    && (forall j :: j in wake ==> j < |pcs| && pcs[j] == waiting)
    && (waiting in pcs ==> wake != {})
  }

  /** The program counters after the threads in `wake` have left the wait set. */
  function Wake<P>(pcs: seq<P>, wake: set<nat>, woken: P): (r: seq<P>)
    ensures |r| == |pcs|
    ensures forall j :: 0 <= j < |pcs| ==> r[j] == if j in wake then woken else pcs[j]
  {
    seq(|pcs|, j requires 0 <= j < |pcs| => if j in wake then woken else pcs[j])
  }

  /** `pthread_cond_broadcast` wakes all of them. */
  function Waiters<P(==)>(pcs: seq<P>, waiting: P): (r: set<nat>)
    ensures forall j: nat :: j in r <==> j < |pcs| && pcs[j] == waiting
  {
    set j: nat | j < |pcs| && pcs[j] == waiting
  }

  /** A signal has an outcome whatever the wait set is. */
  lemma SignalCanRun<P>(pcs: seq<P>, waiting: P) returns (wake: set<nat>)
    ensures LegalSignal(pcs, waiting, wake)
  {
    wake := {};
    if waiting in pcs {
      var j: nat :| j < |pcs| && pcs[j] == waiting;
      wake := {j};
    }
  }

  /** Every thread a signal releases is one more woken thread. */
  lemma {:induction false} WakeCounts<P>(pcs: seq<P>, wake: set<nat>, waiting: P, woken: P)
    requires forall j :: j in wake ==> j < |pcs| && pcs[j] == waiting
    requires waiting != woken
    ensures Count(Wake(pcs, wake, woken), woken) == Count(pcs, woken) + |wake|
  {
    if wake == {} {
      assert Wake(pcs, wake, woken) == pcs;
    } else {
      var j :| j in wake;
      var rest := wake - {j};
      WakeCounts(pcs, rest, waiting, woken);
      assert Wake(pcs, wake, woken) == Wake(pcs, rest, woken)[j := woken];
      assert Wake(pcs, rest, woken)[j] == waiting;
    }
  }

  /** While somebody waits, the woken threads (and `slack` more) are at least the `due` reasons to be awake. */
  predicate Covered<P(==)>(pcs: seq<P>, waiting: P, woken: P, slack: nat, due: int) {
    waiting in pcs ==> Count(pcs, woken) + slack >= due
  }

  /** The sum of `r` over a family of threads. */
  function Sum<P>(pcs: seq<P>, r: P -> nat): nat {
    if pcs == [] then 0 else Sum(pcs[..|pcs| - 1], r) + r(pcs[|pcs| - 1])
  }

  lemma {:induction false} SumUpdate<P>(pcs: seq<P>, r: P -> nat, i: nat, p: P)
    requires i < |pcs|
    ensures Sum(pcs[i := p], r) + r(pcs[i]) == Sum(pcs, r) + r(p)
  {
    var n := |pcs| - 1;
    if i == n {
      assert pcs[i := p][..n] == pcs[..n];
    } else {
      SumUpdate(pcs[..n], r, i, p);
      assert pcs[i := p][..n] == pcs[..n][i := p];
    }
  }

  /** Moving every thread of a set from rank at least `low` to `low + d` costs at most `d` per thread. */
  lemma {:induction false} SumWake<P>(pcs: seq<P>, r: P -> nat, wake: set<nat>, woken: P, d: nat)
    requires forall j :: j in wake && j < |pcs| ==> r(woken) <= r(pcs[j]) + d
    ensures Sum(Wake(pcs, wake, woken), r) <= Sum(pcs, r) + d * |pcs|
  {
    if pcs != [] {
      var n := |pcs| - 1;
      SumWake(pcs[..n], r, wake, woken, d);
      assert Wake(pcs, wake, woken)[..n] == Wake(pcs[..n], wake, woken);
      assert d * |pcs| == d * n + d;
    } else {
      assert Wake(pcs, wake, woken) == pcs;
    }
  }

  lemma {:induction false} SumAppend<P>(pcs: seq<P>, r: P -> nat, p: P)
    ensures Sum(pcs + [p], r) == Sum(pcs, r) + r(p)
  {
    assert (pcs + [p])[..|pcs|] == pcs;
  }

  lemma {:induction false} SumConstant<P>(pcs: seq<P>, r: P -> nat, p: P)
    requires forall i :: 0 <= i < |pcs| ==> pcs[i] == p
    ensures Sum(pcs, r) == r(p) * |pcs|
  {
    if pcs != [] {
      var n := |pcs| - 1;
      SumConstant(pcs[..n], r, p);
      assert r(p) * |pcs| == r(p) * n + r(p);
    }
  }
}
