/**
 What a lookup in the cache of pthreads/pthreads1.c returns, in every run, and which steps readers and
 writers can take.
 */
module SharedCacheLookups {
  import opened Threads
  import opened SharedCache
  import opened SharedCacheTheorems

  // ---------------------------------------------------------------------------------------------
  // Who can go on
  // ---------------------------------------------------------------------------------------------

  /** Some writer is between its lock and its unlock. */
  ghost predicate WriterInside(s: State) {
    exists w :: 0 <= w < |s.wpc| && WHolds(s.wpc[w])
  }

  ghost predicate ReaderInside(s: State) {
    exists r :: 0 <= r < |s.rpc| && RHolds(s.rpc[r])
  }

  lemma InsideIff(c: Config, s: State)
    requires Inv(c, s)
    ensures WriterInside(s) <==> s.lock.writer != None
    ensures ReaderInside(s) <==> s.lock.readers != {}
  {
    if s.lock.writer.Some? {
      assert WHolds(s.wpc[s.lock.writer.value]);
    }
    if s.lock.readers != {} {
      var r :| r in s.lock.readers;
      assert RHolds(s.rpc[r]);
    }
  }

  /**
   In every reachable state a writer in its program is kept waiting only by another thread inside its
   critical section, and a reader only by a writer: readers do not exclude each other. A reader outside
   a lookup can start one. (In a cache of size 0 the coded loop has no entry 0 to look at.)
   */
  lemma StepIff(c: Config, s: State, step: Step)
    requires Reachable(c, s)
    ensures |s.wpc| == |c.programs| && |s.rpc| == c.readers
    ensures Next(c, s, step).Some? <==>
      match step
      case Write(w) =>
        w < |c.programs| && s.wpc[w] != WDone && (s.wpc[w] == WLock ==> !WriterInside(s) && !ReaderInside(s))
      case Read(r) =>
        && r < c.readers && !Idle(s.rpc[r])
        && (s.rpc[r].RLock? ==> !WriterInside(s))
        && (s.rpc[r].RCompare? && c.variant == AsCoded ==> c.size > 0)
      case CallLookup(r, key) => r < c.readers && Idle(s.rpc[r])
  {
    ReachableInv(c, s);
    InsideIff(c, s);
  }

  /** Any set of readers can be inside a lookup at the same time. */
  lemma {:induction false} ReadersTogether(c: Config, s: State, inside: set<nat>, key: string) returns (run: seq<Step>)
    requires IsInit(c, s) && forall r :: r in inside ==> r < c.readers
    ensures Legal(c, s, run)
    ensures |Exec(c, s, run).rpc| == c.readers
    ensures Exec(c, s, run).lock == RwLock(inside, None)
    ensures forall r :: 0 <= r < c.readers ==>
      Exec(c, s, run).rpc[r] == if r in inside then RTest(key, -1) else RIdle
    decreases |inside|
  {
    run := [];
    if inside != {} {
      var r :| r in inside;
      run := ReadersTogether(c, s, inside - {r}, key);
      Then(c, s, run, CallLookup(r, key));
      run := run + [CallLookup(r, key)];
      Then(c, s, run, Read(r));
      run := run + [Read(r)];
      assert inside - {r} + {r} == inside;
    }
  }

  // ---------------------------------------------------------------------------------------------
  // What a lookup returns
  // ---------------------------------------------------------------------------------------------

  /** A reader that has returned to `pc` has the answer that the lookup of the variant gives on this cache. */
  ghost predicate Answers(c: Config, s: State, key: string, pc: ReaderPc) {
    || (pc.RGot? && pc.key == key && IsAnswer(c, s, key, Found(pc.i)) && (pc.live <==> pc.i < s.count))
    || (pc.RNull? && pc.key == key && IsAnswer(c, s, key, Null))
  }

  /** Some state of the run in which reader r is inside a lookup of the key gives that answer. */
  ghost predicate AnsweredIn(c: Config, s: State, run: seq<Step>, r: nat, key: string, pc: ReaderPc)
    requires Legal(c, s, run)
    decreases |run|
  {
    || (r < |s.rpc| && LooksUp(s.rpc[r], key) && Answers(c, s, key, pc))
    || (run != [] && AnsweredIn(c, Next(c, s, run[0]).value, run[1..], r, key, pc))
  }

  ghost predicate NoCall(run: seq<Step>, r: nat) {
    forall k :: 0 <= k < |run| ==> !(run[k].CallLookup? && run[k].r == r)
  }

  /** The reader is inside a lookup of the key, or waiting for the lock. */
  predicate LooksUp(pc: ReaderPc, key: string) {
    !Idle(pc) && pc.key == key
  }

  lemma {:induction false} StaysOut(c: Config, s: State, run: seq<Step>, r: nat)
    requires r < |s.rpc| && Idle(s.rpc[r]) && Legal(c, s, run) && NoCall(run, r)
    ensures r < |Exec(c, s, run).rpc| && Exec(c, s, run).rpc[r] == s.rpc[r]
    decreases |run|
  {
    if run != [] {
      assert Next(c, s, run[0]).value.rpc[r] == s.rpc[r];
      StaysOut(c, Next(c, s, run[0]).value, run[1..], r);
    }
  }

  lemma LookupReturns(c: Config, s: State, r: nat, key: string)
    requires Inv(c, s) && r < |s.rpc| && LooksUp(s.rpc[r], key) && (s.rpc[r].RHit? || s.rpc[r].RMiss?)
    ensures var t := ReaderNext(c, s, r).value;
      r < |t.rpc| && Idle(t.rpc[r]) && Answers(c, s, key, t.rpc[r])
  {
    assert if s.rpc[r].RHit? then IsAnswer(c, s, key, Found(s.rpc[r].i)) else IsAnswer(c, s, key, Null);
  }

  lemma LookupOwnStep(c: Config, s: State, r: nat, key: string)
    requires Inv(c, s) && r < |s.rpc| && LooksUp(s.rpc[r], key) && ReaderNext(c, s, r).Some?
    ensures var t := ReaderNext(c, s, r).value;
      && r < |t.rpc|
      && if Idle(t.rpc[r]) then Answers(c, s, key, t.rpc[r]) else LooksUp(t.rpc[r], key)
  {
    if s.rpc[r].RHit? || s.rpc[r].RMiss? {
      LookupReturns(c, s, r, key);
    }
  }

  lemma LookupStep(c: Config, s: State, step: Step, r: nat, key: string)
    requires Inv(c, s) && r < |s.rpc| && LooksUp(s.rpc[r], key)
    requires Next(c, s, step).Some? && !(step.CallLookup? && step.r == r)
    ensures var t := Next(c, s, step).value;
      && r < |t.rpc|
      && if Idle(t.rpc[r]) then Answers(c, s, key, t.rpc[r]) else LooksUp(t.rpc[r], key)
  {
    if step == Read(r) {
      LookupOwnStep(c, s, r, key);
    } else {
      assert Next(c, s, step).value.rpc[r] == s.rpc[r];
    }
  }

  lemma {:induction false} LookupRun(c: Config, s: State, run: seq<Step>, r: nat, key: string)
    requires Inv(c, s) && r < |s.rpc| && LooksUp(s.rpc[r], key)
    requires Legal(c, s, run) && NoCall(run, r)
    ensures var t := Exec(c, s, run);
      && r < |t.rpc|
      && if Idle(t.rpc[r]) then AnsweredIn(c, s, run, r, key, t.rpc[r]) else LooksUp(t.rpc[r], key)
    decreases |run|
  {
    if run != [] {
      var t := Next(c, s, run[0]).value;
      LookupStep(c, s, run[0], r, key);
      InvStep(c, s, run[0]);
      if Idle(t.rpc[r]) {
        StaysOut(c, t, run[1..], r);
      } else {
        LookupRun(c, t, run[1..], r, key);
      }
    }
  }

  /** A run that begins with a call by reader r, and has no other call by it. */
  ghost predicate OneCall(run: seq<Step>, r: nat, key: string) {
    run != [] && run[0] == CallLookup(r, key) && NoCall(run[1..], r)
  }

  /**
   Lookups are linearizable: once a reader has returned from a lookup, in whatever run, its result is the
   answer that its variant gives on the cache at one moment between the call and the return.
   */
  lemma LookupIsLinearizable(c: Config, s: State, run: seq<Step>, r: nat, key: string)
    requires Reachable(c, s) && r < |s.rpc| && Legal(c, s, run) && OneCall(run, r, key)
    ensures var t := Exec(c, s, run);
      && r < |t.rpc|
      && if Idle(t.rpc[r]) then AnsweredIn(c, s, run, r, key, t.rpc[r]) else LooksUp(t.rpc[r], key)
  {
    ReachableInv(c, s);
    InvStep(c, s, run[0]);
    LookupRun(c, Next(c, s, run[0]).value, run[1..], r, key);
  }

  lemma {:induction false} MatchStays(a: seq<Entry>, b: seq<Entry>, key: string, i: nat)
    requires a <= b && i <= |a| && FirstMatch(a, key, i).Some?
    ensures FirstMatch(b, key, i) == FirstMatch(a, key, i)
    decreases |a| - i
  {
    if a[i].key != key { MatchStays(a, b, key, i + 1); }
  }

  lemma PublishedGrows(c: Config, s: State, step: Step)
    requires Next(c, s, step).Some?
    ensures s.published <= Next(c, s, step).value.published
  {
  }

  /** The key is published, and a lookup of the variant finds it: anywhere as documented, in entry 0 as coded. */
  ghost predicate FoundAt(c: Config, published: seq<Entry>, key: string, i: nat) {
    FirstMatch(published, key, 0) == Some(i) && (c.variant == AsCoded ==> i == 0)
  }

  lemma {:induction false} AnsweredFound(c: Config, s: State, run: seq<Step>, r: nat, key: string, i: nat,
                                            pc: ReaderPc)
    requires Inv(c, s) && Legal(c, s, run) && FoundAt(c, s.published, key, i) && AnsweredIn(c, s, run, r, key, pc)
    ensures pc == RGot(key, i, true)
    decreases |run|
  {
    FirstMatchIsEarliest(s.published, key, 0);
    if Answers(c, s, key, pc) {
      assert s.cache[..s.count] == s.published;
    } else {
      var t := Next(c, s, run[0]).value;
      InvStep(c, s, run[0]);
      PublishedGrows(c, s, run[0]);
      MatchStays(s.published, t.published, key, 0);
      AnsweredFound(c, t, run[1..], r, key, i, pc);
    }
  }

  /**
   A published key is found: a lookup that starts when the key is published (as entry 0, in the coded
   loop) never returns NULL, and when it has returned, the reader has a pointer to the first published
   entry with the key, a live one.
   */
  lemma PublishedKeyIsFound(c: Config, s: State, run: seq<Step>, r: nat, key: string, i: nat)
    requires Reachable(c, s) && r < |s.rpc| && FoundAt(c, s.published, key, i)
    requires Legal(c, s, run) && OneCall(run, r, key)
    ensures var t := Exec(c, s, run);
      && r < |t.rpc|
      && !t.rpc[r].RNull?
      && (Idle(t.rpc[r]) ==> t.rpc[r] == RGot(key, i, true))
  {
    ReachableInv(c, s);
    LookupIsLinearizable(c, s, run, r, key);
    if Idle(Exec(c, s, run).rpc[r]) {
      AnsweredFound(c, s, run, r, key, i, Exec(c, s, run).rpc[r]);
    }
  }

  /** No lookup of the variant can find the key: it is not published, or, as coded, entry 0 has another one. */
  ghost predicate NotFound(c: Config, published: seq<Entry>, key: string) {
    if c.variant == AsCoded then |published| > 0 && published[0].key != key
    else forall k :: 0 <= k < |published| ==> published[k].key != key
  }

  lemma {:induction false} PublishedGrowsRun(c: Config, s: State, run: seq<Step>)
    requires Legal(c, s, run)
    ensures s.published <= Exec(c, s, run).published
    decreases |run|
  {
    if run != [] {
      PublishedGrows(c, s, run[0]);
      PublishedGrowsRun(c, Next(c, s, run[0]).value, run[1..]);
    }
  }

  lemma {:induction false} AnsweredNull(c: Config, s: State, run: seq<Step>, r: nat, key: string, pc: ReaderPc)
    requires Inv(c, s) && Legal(c, s, run) && AnsweredIn(c, s, run, r, key, pc)
    requires NotFound(c, if c.variant == AsCoded then s.published else Exec(c, s, run).published, key)
    ensures pc == RNull(key)
    decreases |run|
  {
    PublishedGrowsRun(c, s, run);
    FirstMatchIsEarliest(s.published, key, 0);
    if Answers(c, s, key, pc) {
      assert s.cache[..s.count] == s.published;
    } else {
      InvStep(c, s, run[0]);
      PublishedGrows(c, s, run[0]);
      AnsweredNull(c, Next(c, s, run[0]).value, run[1..], r, key, pc);
    }
  }

  /**
   A key that is not published by the time the lookup has returned is answered with NULL by the
   documented scan; and the coded loop so answers every key other than that of entry 0, once there is one.
   */
  lemma MissingKeyIsNull(c: Config, s: State, run: seq<Step>, r: nat, key: string)
    requires Reachable(c, s) && r < |s.rpc| && Legal(c, s, run) && OneCall(run, r, key)
    requires NotFound(c, if c.variant == AsCoded then s.published else Exec(c, s, run).published, key)
    ensures var t := Exec(c, s, run);
      && r < |t.rpc|
      && !t.rpc[r].RGot?
      && (Idle(t.rpc[r]) ==> t.rpc[r] == RNull(key))
  {
    ReachableInv(c, s);
    LookupIsLinearizable(c, s, run, r, key);
    if Idle(Exec(c, s, run).rpc[r]) {
      AnsweredNull(c, s, run, r, key, Exec(c, s, run).rpc[r]);
    }
  }
}
