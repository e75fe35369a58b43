/**
 Runs of a state machine: sequences of steps each of which can happen where it stands. The machine is
 given by its step function; None means that the step cannot happen. A potential that steps of one kind
 lower bounds how many of them a run has, and leads to a state in which none can happen.
 */
module Runs {
  import opened Threads

  ghost predicate LegalRun<S, A>(next: (S, A) -> Option<S>, s: S, run: seq<A>)
    decreases |run|
  {
    run == [] || (next(s, run[0]).Some? && LegalRun(next, next(s, run[0]).value, run[1..]))
  }

  /** The state after a run. */
  ghost function After<S, A>(next: (S, A) -> Option<S>, s: S, run: seq<A>): S
    requires LegalRun(next, s, run)
    decreases |run|
  {
    if run == [] then s else After(next, next(s, run[0]).value, run[1..])
  }

  /** A run can be continued by another one. */
  lemma {:induction false} Concat<S, A>(next: (S, A) -> Option<S>, s: S, run: seq<A>, more: seq<A>)
    requires LegalRun(next, s, run) && LegalRun(next, After(next, s, run), more)
    ensures LegalRun(next, s, run + more)
    ensures After(next, s, run + more) == After(next, After(next, s, run), more)
    decreases |run|
  {
    if run == [] {
      assert run + more == more;
    } else {
      Concat(next, next(s, run[0]).value, run[1..], more);
      assert (run + more)[0] == run[0] && (run + more)[1..] == run[1..] + more;
    }
  }

  /** A run can be extended by one step. */
  lemma Extend<S, A>(next: (S, A) -> Option<S>, s: S, run: seq<A>, step: A)
    requires LegalRun(next, s, run) && next(After(next, s, run), step).Some?
    ensures LegalRun(next, s, run + [step])
    ensures After(next, s, run + [step]) == next(After(next, s, run), step).value
  {
    var t := After(next, s, run);
    var u := next(t, step).value;
    assert LegalRun(next, u, []) && [step][1..] == [];
    assert LegalRun(next, t, [step]) && After(next, t, [step]) == After(next, u, []);
    Concat(next, s, run, [step]);
  }

  // ---------------------------------------------------------------------------------------------
  // Potentials
  // ---------------------------------------------------------------------------------------------

  /** How many steps of a run are of a kind. */
  function StepsOf<A>(kind: A -> bool, run: seq<A>): nat {
    if run == [] then 0 else (if kind(run[0]) then 1 else 0) + StepsOf(kind, run[1..])
  }

  /** What the steps of a run supply together. */
  function Supplied<A>(supply: A -> nat, run: seq<A>): nat {
    if run == [] then 0 else supply(run[0]) + Supplied(supply, run[1..])
  }

  /** When only one kind of step supplies anything, and each the same amount. */
  lemma {:induction false} SuppliedByKind<A(!new)>(supply: A -> nat, kind: A -> bool, amount: nat, run: seq<A>)
    requires forall step :: supply(step) == if kind(step) then amount else 0
    ensures Supplied(supply, run) == amount * StepsOf(kind, run)
  {
    if run != [] {
      SuppliedByKind(supply, kind, amount, run[1..]);
      assert amount * (1 + StepsOf(kind, run[1..])) == amount + amount * StepsOf(kind, run[1..]);
    }
  }

  /** The potential is never negative, and every step of the kind keeps `inv` and lowers the potential. */
  ghost predicate Falls<S(!new), A(!new)>(next: (S, A) -> Option<S>, inv: S -> bool, potential: S -> int,
                                          kind: A -> bool) {
    && (forall s :: inv(s) ==> potential(s) >= 0)
    && forall s, step :: inv(s) && kind(step) && next(s, step).Some? ==>
         inv(next(s, step).value) && potential(next(s, step).value) < potential(s)
  }

  /** Every step keeps `inv` and raises the potential by no more than it supplies; steps of the kind lower it. */
  ghost predicate Pays<S(!new), A(!new)>(next: (S, A) -> Option<S>, inv: S -> bool, potential: S -> int,
                                         kind: A -> bool, supply: A -> nat) {
    && (forall s :: inv(s) ==> potential(s) >= 0)
    && forall s, step :: inv(s) && next(s, step).Some? ==>
         && inv(next(s, step).value)
         && potential(next(s, step).value) + (if kind(step) then 1 else 0) <= potential(s) + supply(step)
  }

  /** The steps of the kind are bounded by the potential and by what the run supplies. */
  lemma {:induction false} StepsAreBounded<S(!new), A(!new)>(
      next: (S, A) -> Option<S>, inv: S -> bool, potential: S -> int, kind: A -> bool, supply: A -> nat,
      s: S, run: seq<A>)
    requires Pays(next, inv, potential, kind, supply) && inv(s) && LegalRun(next, s, run)
    ensures StepsOf(kind, run) + potential(After(next, s, run)) <= potential(s) + Supplied(supply, run)
    ensures potential(After(next, s, run)) >= 0
    decreases |run|
  {
    if run != [] {
      StepsAreBounded(next, inv, potential, kind, supply, next(s, run[0]).value, run[1..]);
    }
  }

  /** No step of the kind can happen. */
  ghost predicate Exhausted<S, A(!new)>(next: (S, A) -> Option<S>, kind: A -> bool, s: S) {
    forall step :: kind(step) ==> next(s, step).None?
  }

  /** Steps of the kind alone lead to a state in which none can happen, within the potential. */
  lemma {:induction false} RunsDown<S(!new), A(!new)>(
      next: (S, A) -> Option<S>, inv: S -> bool, potential: S -> int, kind: A -> bool, s: S)
      returns (run: seq<A>)
    requires Falls(next, inv, potential, kind) && inv(s)
    ensures LegalRun(next, s, run) && |run| <= potential(s)
    ensures inv(After(next, s, run)) && Exhausted(next, kind, After(next, s, run))
    ensures forall k :: 0 <= k < |run| ==> kind(run[k])
    decreases potential(s)
  {
    run := [];
    if !Exhausted(next, kind, s) {
      var step :| kind(step) && next(s, step).Some?;
      var rest := RunsDown(next, inv, potential, kind, next(s, step).value);
      run := [step] + rest;
      assert run[1..] == rest;
    }
  }
}
