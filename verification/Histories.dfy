/**
 Histories of a state machine: the events that its runs show, where a step shows one event or none. Two
 inductions compare the histories of a machine with those of a specification, whose steps are the events.
 */
module Histories {
  import opened Threads
  import opened Runs

  function Shown<E>(e: Option<E>): seq<E> {
    if e.Some? then [e.value] else []
  }

  ghost function History<S, A, E>(next: (S, A) -> Option<S>, event: (S, A) -> Option<E>, s: S, run: seq<A>): seq<E>
    requires LegalRun(next, s, run)
    decreases |run|
  {
    if run == [] then [] else Shown(event(s, run[0])) + History(next, event, next(s, run[0]).value, run[1..])
  }

  lemma {:induction false} HistoryConcat<S, A, E>(
      next: (S, A) -> Option<S>, event: (S, A) -> Option<E>, s: S, run: seq<A>, more: seq<A>)
    requires LegalRun(next, s, run) && LegalRun(next, After(next, s, run), more)
    ensures LegalRun(next, s, run + more)
    ensures History(next, event, s, run + more)
         == History(next, event, s, run) + History(next, event, After(next, s, run), more)
    decreases |run|
  {
    Concat(next, s, run, more);
    if run == [] {
      assert run + more == more;
    } else {
      HistoryConcat(next, event, next(s, run[0]).value, run[1..], more);
      assert (run + more)[0] == run[0] && (run + more)[1..] == run[1..] + more;
    }
  }

  lemma HistoryExtend<S, A, E>(next: (S, A) -> Option<S>, event: (S, A) -> Option<E>, s: S, run: seq<A>, step: A)
    requires LegalRun(next, s, run) && next(After(next, s, run), step).Some?
    ensures LegalRun(next, s, run + [step])
    ensures History(next, event, s, run + [step])
         == History(next, event, s, run) + Shown(event(After(next, s, run), step))
  {
    var t := After(next, s, run);
    var u := next(t, step).value;
    assert LegalRun(next, u, []) && [step][1..] == [];
    assert History(next, event, t, [step]) == Shown(event(t, step)) + History(next, event, u, []);
    HistoryConcat(next, event, s, run, [step]);
  }

  /** Every step that shows an event is a step of the specification, and every other one does nothing there. */
  ghost predicate Simulates<S(!new), A(!new), B(!new), E(!new)>(
      next: (S, A) -> Option<S>, event: (S, A) -> Option<E>, inv: S -> bool,
      spec: (B, E) -> Option<B>, abs: S -> B)
  {
    forall s, step :: inv(s) && next(s, step).Some? ==>
      && inv(next(s, step).value)
      && (if event(s, step).Some? then spec(abs(s), event(s, step).value) == Some(abs(next(s, step).value))
          else abs(next(s, step).value) == abs(s))
  }

  /** Then every history of the machine is one of the specification. */
  lemma {:induction false} HistoriesAreSpecified<S(!new), A(!new), B(!new), E(!new)>(
      next: (S, A) -> Option<S>, event: (S, A) -> Option<E>, inv: S -> bool,
      spec: (B, E) -> Option<B>, abs: S -> B, s: S, run: seq<A>)
    requires Simulates(next, event, inv, spec, abs) && inv(s) && LegalRun(next, s, run)
    ensures LegalRun(spec, abs(s), History(next, event, s, run))
    ensures After(spec, abs(s), History(next, event, s, run)) == abs(After(next, s, run))
    decreases |run|
  {
    if run != [] {
      var t := next(s, run[0]).value;
      HistoriesAreSpecified(next, event, inv, spec, abs, t, run[1..]);
      var history, rest := History(next, event, s, run), History(next, event, t, run[1..]);
      if event(s, run[0]).Some? {
        assert history[1..] == rest;
      } else {
        assert history == rest;
      }
    }
  }

  /** From a state that is `ready`, some run shows exactly the event and ends in a state that is `ready`. */
  ghost predicate Shows<S, A(!new), E>(
      next: (S, A) -> Option<S>, event: (S, A) -> Option<E>, ready: S -> bool, s: S, e: E)
  {
    exists run :: LegalRun(next, s, run) && History(next, event, s, run) == [e] && ready(After(next, s, run))
  }

  ghost predicate Realizes<S(!new), A(!new), B(!new), E(!new)>(
      next: (S, A) -> Option<S>, event: (S, A) -> Option<E>, ready: S -> bool,
      spec: (B, E) -> Option<B>, abs: S -> B)
  {
    forall s, e :: ready(s) && spec(abs(s), e).Some? ==> Shows(next, event, ready, s, e)
  }

  /** Then every history of the specification is one of the machine. */
  lemma {:induction false} HistoriesAreRealized<S(!new), A(!new), B(!new), E(!new)>(
      next: (S, A) -> Option<S>, event: (S, A) -> Option<E>, inv: S -> bool, ready: S -> bool,
      spec: (B, E) -> Option<B>, abs: S -> B, s: S, history: seq<E>) returns (run: seq<A>)
    requires Simulates(next, event, inv, spec, abs) && Realizes(next, event, ready, spec, abs)
    requires forall t :: ready(t) ==> inv(t)
    requires ready(s) && LegalRun(spec, abs(s), history)
    ensures LegalRun(next, s, run) && History(next, event, s, run) == history
    decreases |history|
  {
    run := [];
    if history != [] {
      var e := history[0];
      assert Shows(next, event, ready, s, e);
      run :| LegalRun(next, s, run) && History(next, event, s, run) == [e] && ready(After(next, s, run));
      var t := After(next, s, run);
      HistoriesAreSpecified(next, event, inv, spec, abs, s, run);
      assert [e][1..] == [];
      assert After(spec, abs(s), [e]) == After(spec, spec(abs(s), e).value, []);
      var more := HistoriesAreRealized(next, event, inv, ready, spec, abs, t, history[1..]);
      HistoryConcat(next, event, s, run, more);
      run := run + more;
      assert [e] + history[1..] == history;
    }
  }
}
