/**
 What holds of every run of the cache of pthreads/pthreads1.c.
 */
module SharedCacheTheorems {
  import opened Threads
  import opened SharedCache

  // ---------------------------------------------------------------------------------------------
  // The invariant is inductive
  // ---------------------------------------------------------------------------------------------

  lemma {:induction false} TotalZero(xs: seq<nat>)
    requires forall i :: 0 <= i < |xs| ==> xs[i] == 0
    ensures Total(xs) == 0
  {
    if xs != [] { TotalZero(xs[..|xs| - 1]); }
  }

  lemma {:induction false} TotalUpdate(xs: seq<nat>, i: nat, x: nat)
    requires i < |xs|
    ensures Total(xs[i := x]) + xs[i] == Total(xs) + x
  {
    var n := |xs| - 1;
    if i == n {
      assert xs[i := x][..n] == xs[..n];
    } else {
      TotalUpdate(xs[..n], i, x);
      assert xs[i := x][..n] == xs[..n][i := x];
    }
  }

  lemma {:induction false} TotalAtMost(xs: seq<nat>, ys: seq<nat>)
    requires |xs| == |ys| && forall i :: 0 <= i < |xs| ==> xs[i] <= ys[i]
    ensures Total(xs) <= Total(ys)
  {
    if xs != [] { TotalAtMost(xs[..|xs| - 1], ys[..|xs| - 1]); }
  }

  lemma ProjectAppend(published: seq<Entry>, author: seq<nat>, e: Entry, v: nat, w: nat)
    requires |published| == |author|
    ensures Project(published + [e], author + [v], w) == Project(published, author, w) + if v == w then [e] else []
  {
    assert (published + [e])[..|published|] == published && (author + [v])[..|author|] == author;
  }

  lemma InitInv(c: Config, s: State)
    requires IsInit(c, s)
    ensures Inv(c, s)
  {
    TotalZero(s.pos);
  }

  lemma LockWrite(c: Config, s: State, w: nat)
    requires LockInv(c, s)
    requires WriterNext(c, s, w).Some?
    ensures LockInv(c, WriterNext(c, s, w).value)
  {
  }

  lemma LockRead(c: Config, s: State, r: nat)
    requires LockInv(c, s)
    requires ReaderNext(c, s, r).Some?
    ensures LockInv(c, ReaderNext(c, s, r).value)
  {
  }

  lemma LockCall(c: Config, s: State, r: nat, key: string)
    requires LockInv(c, s)
    requires Next(c, s, CallLookup(r, key)).Some?
    ensures LockInv(c, Next(c, s, CallLookup(r, key)).value)
  {
  }

  lemma WriterWrite(c: Config, s: State, w: nat)
    requires LockInv(c, s) && WriterInv(c, s) && EntriesInv(c, s)
    requires WriterNext(c, s, w).Some?
    ensures WriterInv(c, WriterNext(c, s, w).value)
  {
  }

  lemma WriterRead(c: Config, s: State, r: nat)
    requires LockInv(c, s) && WriterInv(c, s) && EntriesInv(c, s)
    requires ReaderNext(c, s, r).Some?
    ensures WriterInv(c, ReaderNext(c, s, r).value)
  {
  }

  lemma WriterCall(c: Config, s: State, r: nat, key: string)
    requires LockInv(c, s) && WriterInv(c, s) && EntriesInv(c, s)
    requires Next(c, s, CallLookup(r, key)).Some?
    ensures WriterInv(c, Next(c, s, CallLookup(r, key)).value)
  {
  }

  lemma EntriesWrite(c: Config, s: State, w: nat)
    requires LockInv(c, s) && WriterInv(c, s) && EntriesInv(c, s)
    requires WriterNext(c, s, w).Some?
    ensures EntriesInv(c, WriterNext(c, s, w).value)
  {
  }

  lemma EntriesRead(c: Config, s: State, r: nat)
    requires LockInv(c, s) && WriterInv(c, s) && EntriesInv(c, s)
    requires ReaderNext(c, s, r).Some?
    ensures EntriesInv(c, ReaderNext(c, s, r).value)
  {
  }

  lemma EntriesCall(c: Config, s: State, r: nat, key: string)
    requires LockInv(c, s) && WriterInv(c, s) && EntriesInv(c, s)
    requires Next(c, s, CallLookup(r, key)).Some?
    ensures EntriesInv(c, Next(c, s, CallLookup(r, key)).value)
  {
  }

  lemma OrderPublish(c: Config, s: State, w: nat)
    requires WriterInv(c, s) && OrderInv(c, s) && s.failed == 0
    requires WriterNext(c, s, w).Some? && s.wpc[w] == WCount
    ensures OrderInv(c, WriterNext(c, s, w).value)
  {
    var e, t := c.programs[w][s.pos[w]], WriterNext(c, s, w).value;
    forall v: nat | v < |s.wpc|
      ensures Project(t.published, t.author, v) == c.programs[v][..t.stored[v]]
    {
      ProjectAppend(s.published, s.author, e, w, v);
      if v == w {
        assert c.programs[w][..s.pos[w] + 1] == c.programs[w][..s.pos[w]] + [e];
      }
    }
  }

  lemma OrderWrite(c: Config, s: State, w: nat)
    requires LockInv(c, s) && WriterInv(c, s) && OrderInv(c, s) && CountInv(c, s)
    requires WriterNext(c, s, w).Some?
    ensures OrderInv(c, WriterNext(c, s, w).value)
  {
    if s.wpc[w] == WCount { OrderPublish(c, s, w); }
  }

  lemma OrderRead(c: Config, s: State, r: nat)
    requires LockInv(c, s) && WriterInv(c, s) && OrderInv(c, s) && CountInv(c, s)
    requires ReaderNext(c, s, r).Some?
    ensures OrderInv(c, ReaderNext(c, s, r).value)
  {
  }

  lemma OrderCall(c: Config, s: State, r: nat, key: string)
    requires LockInv(c, s) && WriterInv(c, s) && OrderInv(c, s) && CountInv(c, s)
    requires Next(c, s, CallLookup(r, key)).Some?
    ensures OrderInv(c, Next(c, s, CallLookup(r, key)).value)
  {
  }

  lemma CountWrite(c: Config, s: State, w: nat)
    requires LockInv(c, s) && WriterInv(c, s) && CountInv(c, s)
    requires WriterNext(c, s, w).Some?
    ensures CountInv(c, WriterNext(c, s, w).value)
  {
    TotalUpdate(s.pos, w, s.pos[w] + 1);
  }

  lemma CountRead(c: Config, s: State, r: nat)
    requires LockInv(c, s) && WriterInv(c, s) && CountInv(c, s)
    requires ReaderNext(c, s, r).Some?
    ensures CountInv(c, ReaderNext(c, s, r).value)
  {
  }

  lemma CountCall(c: Config, s: State, r: nat, key: string)
    requires LockInv(c, s) && WriterInv(c, s) && CountInv(c, s)
    requires Next(c, s, CallLookup(r, key)).Some?
    ensures CountInv(c, Next(c, s, CallLookup(r, key)).value)
  {
  }

  lemma ReaderWrite(c: Config, s: State, w: nat)
    requires LockInv(c, s) && WriterInv(c, s) && EntriesInv(c, s) && ReaderInv(c, s)
    requires WriterNext(c, s, w).Some?
    ensures ReaderInv(c, WriterNext(c, s, w).value)
  {
  }

  lemma ReaderTest(c: Config, s: State, r: nat)
    requires EntriesInv(c, s) && ReaderInv(c, s) && r < |s.rpc| && s.rpc[r].RTest?
    ensures ReaderInv(c, ReaderNext(c, s, r).value)
  {
  }

  lemma ReaderCompare(c: Config, s: State, r: nat)
    requires EntriesInv(c, s) && ReaderInv(c, s) && r < |s.rpc| && s.rpc[r].RCompare?
    requires ReaderNext(c, s, r).Some?
    ensures ReaderInv(c, ReaderNext(c, s, r).value)
  {
  }

  lemma ReaderMoves(c: Config, s: State, r: nat)
    requires ReaderInv(c, s) && r < |s.rpc| && !s.rpc[r].RTest? && !s.rpc[r].RCompare?
    requires ReaderNext(c, s, r).Some?
    ensures ReaderInv(c, ReaderNext(c, s, r).value)
  {
  }

  lemma ReaderRead(c: Config, s: State, r: nat)
    requires LockInv(c, s) && WriterInv(c, s) && EntriesInv(c, s) && ReaderInv(c, s)
    requires ReaderNext(c, s, r).Some?
    ensures ReaderInv(c, ReaderNext(c, s, r).value)
  {
    if s.rpc[r].RTest? {
      ReaderTest(c, s, r);
    } else if s.rpc[r].RCompare? {
      ReaderCompare(c, s, r);
    } else {
      ReaderMoves(c, s, r);
    }
  }

  lemma ReaderCall(c: Config, s: State, r: nat, key: string)
    requires LockInv(c, s) && WriterInv(c, s) && EntriesInv(c, s) && ReaderInv(c, s)
    requires Next(c, s, CallLookup(r, key)).Some?
    ensures ReaderInv(c, Next(c, s, CallLookup(r, key)).value)
  {
  }

  lemma InvWrite(c: Config, s: State, w: nat)
    requires Inv(c, s)
    requires WriterNext(c, s, w).Some?
    ensures Inv(c, WriterNext(c, s, w).value)
  {
    LockWrite(c, s, w);
    WriterWrite(c, s, w);
    EntriesWrite(c, s, w);
    OrderWrite(c, s, w);
    CountWrite(c, s, w);
    ReaderWrite(c, s, w);
  }

  lemma InvRead(c: Config, s: State, r: nat)
    requires Inv(c, s)
    requires ReaderNext(c, s, r).Some?
    ensures Inv(c, ReaderNext(c, s, r).value)
  {
    LockRead(c, s, r);
    WriterRead(c, s, r);
    EntriesRead(c, s, r);
    OrderRead(c, s, r);
    CountRead(c, s, r);
    ReaderRead(c, s, r);
  }

  lemma InvCall(c: Config, s: State, r: nat, key: string)
    requires Inv(c, s)
    requires Next(c, s, CallLookup(r, key)).Some?
    ensures Inv(c, Next(c, s, CallLookup(r, key)).value)
  {
    LockCall(c, s, r, key);
    WriterCall(c, s, r, key);
    EntriesCall(c, s, r, key);
    OrderCall(c, s, r, key);
    CountCall(c, s, r, key);
    ReaderCall(c, s, r, key);
  }

  lemma InvStep(c: Config, s: State, step: Step)
    requires Inv(c, s) && Next(c, s, step).Some?
    ensures Inv(c, Next(c, s, step).value)
  {
    match step
    case Write(w) => InvWrite(c, s, w);
    case Read(r) => InvRead(c, s, r);
    case CallLookup(r, key) => InvCall(c, s, r, key);
  }

  lemma {:induction false} InvAlongRun(c: Config, s: State, run: seq<Step>)
    requires Inv(c, s) && Legal(c, s, run)
    ensures Inv(c, Exec(c, s, run))
    decreases |run|
  {
    if run != [] {
      InvStep(c, s, run[0]);
      InvAlongRun(c, Next(c, s, run[0]).value, run[1..]);
    }
  }

  lemma ReachableInv(c: Config, s: State)
    requires Reachable(c, s)
    ensures Inv(c, s)
  {
    var s0, run :| IsInit(c, s0) && Legal(c, s0, run) && Exec(c, s0, run) == s;
    InitInv(c, s0);
    InvAlongRun(c, s0, run);
  }

  // ---------------------------------------------------------------------------------------------
  // Readers
  // ---------------------------------------------------------------------------------------------

  /**
   A reader inside its lookup never overlaps with a writer inside its add, nor do two writers; every live
   entry is a complete published one.
   */
  lemma LiveEntriesAreComplete(c: Config, s: State)
    requires Reachable(c, s)
    ensures forall r, w :: 0 <= r < |s.rpc| && 0 <= w < |s.wpc| ==> !(RHolds(s.rpc[r]) && WHolds(s.wpc[w]))
    ensures forall v, w :: 0 <= v < w < |s.wpc| ==> !(WHolds(s.wpc[v]) && WHolds(s.wpc[w]))
    ensures s.count == |s.published| <= |s.cache|
    ensures s.cache[..s.count] == s.published
  {
    ReachableInv(c, s);
  }

  /** What the lookup of the variant, run by itself on this cache, answers. */
  ghost predicate IsAnswer(c: Config, s: State, key: string, answer: Answer) {
    && s.count <= |s.cache|
    && (c.variant == Documented ==> answer == ScanAnswer(s.cache, s.count, key))
    && (c.variant == AsCoded ==> |s.cache| > 0 && answer == CodedLoop(s.cache, s.count, key, -1))
  }

  /**
   The answer of a lookup, at the moment it is about to release the lock: the documented scan finds the
   earliest published entry with the key, the coded loop answers for entry 0. No lookup ever reaches
   the end of the function without a value.
   */
  lemma LookupAnswers(c: Config, s: State, r: nat)
    requires Reachable(c, s) && r < |s.rpc|
    ensures s.rpc[r].RHit? ==> IsAnswer(c, s, s.rpc[r].key, Found(s.rpc[r].i))
    ensures s.rpc[r].RMiss? ==> IsAnswer(c, s, s.rpc[r].key, Null)
    ensures s.count <= |s.cache| && s.cache[..s.count] == s.published
    ensures !s.rpc[r].RFall?
  {
    ReachableInv(c, s);
  }

  /** Published entries never change, and the count never decreases. */
  lemma LiveStep(c: Config, s: State, step: Step)
    requires Next(c, s, step).Some?
    ensures var t := Next(c, s, step).value;
      s.count <= t.count && |t.cache| == |s.cache|
      && forall k :: 0 <= k < s.count && k < |s.cache| ==> t.cache[k] == s.cache[k]
  {
  }

  lemma {:induction false} LiveRun(c: Config, s: State, run: seq<Step>)
    requires Legal(c, s, run)
    ensures var t := Exec(c, s, run);
      s.count <= t.count && |t.cache| == |s.cache|
      && forall k :: 0 <= k < s.count && k < |s.cache| ==> t.cache[k] == s.cache[k]
    decreases |run|
  {
    if run != [] {
      LiveStep(c, s, run[0]);
      LiveRun(c, Next(c, s, run[0]).value, run[1..]);
    }
  }

  /**
   Stable pointers: a reader that got a pointer from a lookup that found a live entry sees, in every
   continuation, the key it looked up and the value it found, although it no longer holds the lock.
   */
  lemma PointerIsStable(c: Config, s: State, run: seq<Step>, r: nat)
    requires Reachable(c, s) && r < |s.rpc| && s.rpc[r].RGot? && s.rpc[r].live
    requires Legal(c, s, run)
    ensures var p, t := s.rpc[r].i, Exec(c, s, run);
      p < |s.published| && p < |t.cache| && t.cache[p] == s.published[p] && t.cache[p].key == s.rpc[r].key
  {
    ReachableInv(c, s);
    LiveRun(c, s, run);
  }

  lemma {:induction false} TotalIsZero(xs: seq<nat>)
    requires Total(xs) == 0
    ensures forall i :: 0 <= i < |xs| ==> xs[i] == 0
  {
    if xs != [] { TotalIsZero(xs[..|xs| - 1]); }
  }

  /** While the cache is empty no add has been finished. */
  lemma NothingAdded(c: Config, s: State)
    requires Inv(c, s) && s.count == 0 && c.size > 0
    ensures forall w :: 0 <= w < |s.pos| ==> s.pos[w] == 0
  {
    TotalIsZero(s.pos);
  }

  /** Every writer begins with entry e, or with none. */
  ghost predicate AllBeginWith(c: Config, e: Entry) {
    forall w :: 0 <= w < |c.programs| ==> c.programs[w] == [] || c.programs[w][0] == e
  }

  ghost predicate EntryZeroIs(s: State, e: Entry) {
    |s.cache| > 0 && s.cache[0] == e
  }

  lemma EntryZeroWrite(c: Config, s: State, w: nat, e: Entry)
    requires WriterNext(c, s, w).Some? && EntryZeroIs(s, e)
    requires s.count >= 1 || (AllBeginWith(c, e) && forall v :: 0 <= v < |s.pos| ==> s.pos[v] == 0)
    ensures EntryZeroIs(WriterNext(c, s, w).value, e) && WriterNext(c, s, w).value.count >= s.count
  {
  }

  lemma EntryZeroStep(c: Config, s: State, step: Step, e: Entry)
    requires Inv(c, s) && Next(c, s, step).Some? && EntryZeroIs(s, e)
    requires s.count >= 1 || AllBeginWith(c, e)
    ensures EntryZeroIs(Next(c, s, step).value, e) && Next(c, s, step).value.count >= s.count
  {
    if s.count == 0 { NothingAdded(c, s); }
    if step.Write? { EntryZeroWrite(c, s, step.w, e); }
  }

  lemma {:induction false} EntryZeroRun(c: Config, s: State, run: seq<Step>, e: Entry)
    requires Inv(c, s) && Legal(c, s, run) && EntryZeroIs(s, e)
    requires s.count >= 1 || AllBeginWith(c, e)
    ensures EntryZeroIs(Exec(c, s, run), e)
    decreases |run|
  {
    if run != [] {
      EntryZeroStep(c, s, run[0], e);
      InvStep(c, s, run[0]);
      EntryZeroRun(c, Next(c, s, run[0]).value, run[1..], e);
    }
  }

  function ReaderSteps(pc: ReaderPc): nat {
    if pc.RTest? then 3 else if pc.RCompare? then 2 else if pc.RHit? || pc.RMiss? then 1 else 0
  }

  /** The points of the coded lookup that a reader inside the lock can be at. */
  predicate CodedPoint(pc: ReaderPc) {
    (pc.RTest? && pc.at == -1) || (pc.RCompare? && pc.at == 0) || pc.RHit? || pc.RMiss?
  }

  /** A reader inside the coded lookup can leave by itself, and changes nothing but the lock. */
  lemma {:induction false} ReaderLeaves(c: Config, s: State, r: nat) returns (run: seq<Step>)
    requires c.variant == AsCoded && |s.cache| > 0 && r < |s.rpc| && CodedPoint(s.rpc[r])
    ensures Legal(c, s, run)
    ensures var t := Exec(c, s, run);
      t == s.(lock := RwLock(s.lock.readers - {r}, s.lock.writer), rpc := t.rpc)
    decreases ReaderSteps(s.rpc[r])
  {
    if s.rpc[r].RHit? || s.rpc[r].RMiss? {
      run := [];
      Then(c, s, run, Read(r));
      run := run + [Read(r)];
    } else {
      var rest := ReaderLeaves(c, Next(c, s, Read(r)).value, r);
      run := [Read(r)] + rest;
      assert run[1..] == rest;
    }
  }

  lemma {:induction false} AllReadersLeave(c: Config, s: State) returns (run: seq<Step>)
    requires Inv(c, s) && c.variant == AsCoded && c.size > 0
    ensures Legal(c, s, run)
    ensures var t := Exec(c, s, run);
      t == s.(lock := RwLock({}, s.lock.writer), rpc := t.rpc)
    decreases |s.lock.readers|
  {
    run := [];
    if s.lock.readers == {} {
      assert s.lock == RwLock({}, s.lock.writer);
    } else {
      var r :| r in s.lock.readers;
      assert RHolds(s.rpc[r]) && CodedPoint(s.rpc[r]);
      run := ReaderLeaves(c, s, r);
      InvAlongRun(c, s, run);
      var more := AllReadersLeave(c, Exec(c, s, run));
      ThenRun(c, s, run, more);
      run := run + more;
    }
  }

  /** A writer at the top of its loop, with the lock free, can write its next entry up to the count. */
  lemma WritesEntry(c: Config, s: State, w: nat) returns (run: seq<Step>)
    requires Inv(c, s) && s.lock == RwLock({}, None) && s.count < c.size
    requires w < |s.wpc| && (s.wpc[w] == WLoop || s.wpc[w] == WLock) && s.pos[w] < |c.programs[w]|
    ensures Legal(c, s, run)
    ensures Exec(c, s, run) == s.(lock := RwLock({}, Some(w)), wpc := s.wpc[w := WCount],
                                  cache := s.cache[s.count := c.programs[w][s.pos[w]]])
  {
    var go := Write(w);
    run := [];
    if s.wpc[w] == WLoop {
      Then(c, s, run, go);
      run := run + [go];
    }
    assert Exec(c, s, run) == s.(wpc := s.wpc[w := WLock]);
    Then(c, s, run, go);
    run := run + [go];
    Then(c, s, run, go);
    run := run + [go];
    assert Exec(c, s, run) == s.(lock := RwLock({}, Some(w)), wpc := s.wpc[w := WKey]);
    Then(c, s, run, go);
    run := run + [go];
    Then(c, s, run, go);
    run := run + [go];
    assert Exec(c, s, run).wpc == s.wpc[w := WCount];
  }

  /**
   Over the empty cache the coded loop compares whatever entry 0 contains, and a lookup that hits hands
   out a pointer to it, live exactly when the cache is not empty. The entry keeps its content in every
   continuation if and only if the cache is not empty, or no writer begins with anything else.
   */
  lemma CodedPointerIsStableIff(c: Config, s: State, r: nat)
    requires Reachable(c, s) && c.variant == AsCoded && r < |s.rpc| && s.rpc[r].RHit?
    ensures s.rpc[r].i == 0 && |s.cache| > 0 && s.cache[0].key == s.rpc[r].key
    ensures s.rpc[r].live <==> s.count >= 1
    ensures (forall run :: Legal(c, s, run) ==> EntryZeroIs(Exec(c, s, run), s.cache[0]))
       <==> s.count >= 1 || AllBeginWith(c, s.cache[0])
  {
    ReachableInv(c, s);
    if s.count >= 1 || AllBeginWith(c, s.cache[0]) {
      forall run | Legal(c, s, run)
        ensures EntryZeroIs(Exec(c, s, run), s.cache[0])
      {
        EntryZeroRun(c, s, run, s.cache[0]);
      }
    } else {
      var run := OverwritesEntryZero(c, s, r);
      assert Legal(c, s, run) && !EntryZeroIs(Exec(c, s, run), s.cache[0]);
    }
  }

  /** The readers leave, and a writer that begins with something else writes it. */
  lemma OverwritesEntryZero(c: Config, s: State, r: nat) returns (run: seq<Step>)
    requires Inv(c, s) && c.variant == AsCoded && r < |s.rpc| && s.rpc[r].RHit?
    requires |s.cache| > 0 && s.count == 0 && !AllBeginWith(c, s.cache[0])
    ensures Legal(c, s, run) && !EntryZeroIs(Exec(c, s, run), s.cache[0])
  {
    assert RHolds(s.rpc[r]);
    NothingAdded(c, s);
    var w :| 0 <= w < |c.programs| && c.programs[w] != [] && c.programs[w][0] != s.cache[0];
    assert !WHolds(s.wpc[w]);
    run := AllReadersLeave(c, s);
    InvAlongRun(c, s, run);
    var more := WritesEntry(c, Exec(c, s, run), w);
    ThenRun(c, s, run, more);
    run := run + more;
  }

  /** The case occurs: from every initial state a reader can get a pointer that is not to a live entry. */
  lemma EmptyCacheAnswers(c: Config, s: State) returns (run: seq<Step>)
    requires IsInit(c, s) && c.variant == AsCoded && c.size > 0 && c.readers > 0
    ensures Legal(c, s, run)
    ensures |Exec(c, s, run).rpc| > 0 && Exec(c, s, run).rpc[0] == RGot(s.cache[0].key, 0, false)
  {
    var key := s.cache[0].key;
    run := [];
    Then(c, s, run, CallLookup(0, key));
    run := run + [CallLookup(0, key)];
    Then(c, s, run, Read(0));
    run := run + [Read(0)];
    assert Exec(c, s, run) == s.(lock := RwLock({0}, None), rpc := s.rpc[0 := RTest(key, -1)]);
    Then(c, s, run, Read(0));
    run := run + [Read(0)];
    Then(c, s, run, Read(0));
    run := run + [Read(0)];
    assert Exec(c, s, run) == s.(lock := RwLock({0}, None), rpc := s.rpc[0 := RHit(key, 0, false)]);
    Then(c, s, run, Read(0));
    run := run + [Read(0)];
  }

  /** One whole add of writer w. */
  lemma AddsEntry(c: Config, s: State, w: nat) returns (run: seq<Step>)
    requires Inv(c, s) && s.lock == RwLock({}, None) && s.count < c.size
    requires w < |s.wpc| && s.wpc[w] == WLoop && s.pos[w] < |c.programs[w]|
    ensures Legal(c, s, run)
    ensures var t, e := Exec(c, s, run), c.programs[w][s.pos[w]];
      && Inv(c, t) && t.lock == s.lock && t.rpc == s.rpc && t.wpc == s.wpc && t.count == s.count + 1
      && t.pos == s.pos[w := s.pos[w] + 1] && t.published == s.published + [e] && t.author == s.author + [w]
  {
    run := WritesEntry(c, s, w);
    Then(c, s, run, Write(w));
    run := run + [Write(w)];
    Then(c, s, run, Write(w));
    run := run + [Write(w)];
    InvAlongRun(c, s, run);
  }

  lemma AddsTwo(c: Config, s: State, w: nat) returns (run: seq<Step>)
    requires IsInit(c, s) && c.size >= 2 && w < |c.programs| && |c.programs[w]| >= 2
    ensures Legal(c, s, run)
    ensures var t := Exec(c, s, run);
      && Inv(c, t) && t.lock == s.lock && t.rpc == s.rpc
      && t.count == 2 && t.published == [c.programs[w][0], c.programs[w][1]]
  {
    InitInv(c, s);
    run := AddsEntry(c, s, w);
    var more := AddsEntry(c, Exec(c, s, run), w);
    ThenRun(c, s, run, more);
    run := run + more;
  }

  /**
   From every initial state of a cache with room for two entries, a writer that begins with two entries of
   different keys can publish them, and the coded lookup of the second key then answers NULL.
   */
  lemma CodedMissesPublishedKey(c: Config, s: State, w: nat) returns (run: seq<Step>)
    requires IsInit(c, s) && c.variant == AsCoded && c.size >= 2 && c.readers > 0
    requires w < |c.programs| && |c.programs[w]| >= 2 && c.programs[w][0].key != c.programs[w][1].key
    ensures Legal(c, s, run)
    ensures var t, key := Exec(c, s, run), c.programs[w][1].key;
      && |t.rpc| > 0 && t.rpc[0] == RMiss(key)
      && FirstMatch(t.published, key, 0) == Some(1)
  {
    var key := c.programs[w][1].key;
    run := AddsTwo(c, s, w);
    var t := Exec(c, s, run);
    assert t.cache[0] == t.published[0];
    assert t.published[1].key == key;
    var ask := LookupOfAnotherKey(c, t, key);
    ThenRun(c, s, run, ask);
    run := run + ask;
  }

  lemma LookupOfAnotherKey(c: Config, s: State, key: string) returns (run: seq<Step>)
    requires c.variant == AsCoded && s.lock == RwLock({}, None) && |s.cache| > 0 && s.cache[0].key != key
    requires |s.rpc| > 0 && s.rpc[0] == RIdle
    ensures Legal(c, s, run)
    ensures Exec(c, s, run) == s.(lock := RwLock({0}, None), rpc := s.rpc[0 := RMiss(key)])
  {
    run := [];
    Then(c, s, run, CallLookup(0, key));
    run := run + [CallLookup(0, key)];
    Then(c, s, run, Read(0));
    run := run + [Read(0)];
    assert Exec(c, s, run) == s.(lock := RwLock({0}, None), rpc := s.rpc[0 := RTest(key, -1)]);
    Then(c, s, run, Read(0));
    run := run + [Read(0)];
    assert Exec(c, s, run) == s.(lock := RwLock({0}, None), rpc := s.rpc[0 := RCompare(key, 0)]);
    Then(c, s, run, Read(0));
    run := run + [Read(0)];
  }

  // ---------------------------------------------------------------------------------------------
  // Writers
  // ---------------------------------------------------------------------------------------------

  /** What each writer has published is a prefix of its program, in program order. */
  lemma ProgramOrder(c: Config, s: State, w: nat)
    requires Reachable(c, s) && w < |c.programs|
    ensures |s.published| == |s.author| && |s.stored| == |s.pos| == |c.programs|
    ensures Project(s.published, s.author, w) <= c.programs[w]
    ensures s.pos[w] <= |c.programs[w]|
    ensures s.failed == 0 && s.lock.writer == None ==> Project(s.published, s.author, w) == c.programs[w][..s.pos[w]]
  {
    ReachableInv(c, s);
  }

  function Lengths(programs: seq<seq<Entry>>): seq<nat> {
    seq(|programs|, i requires 0 <= i < |programs| => |programs[i]|)
  }

  lemma AttemptsAreBounded(c: Config, s: State)
    requires LockInv(c, s) && WriterInv(c, s) && CountInv(c, s)
    ensures s.count + s.failed <= Total(Lengths(c.programs))
  {
    var tried := s.pos;
    if Returning(s) == 1 {
      var w := s.lock.writer.value;
      tried := s.pos[w := s.pos[w] + 1];
      TotalUpdate(s.pos, w, s.pos[w] + 1);
    }
    TotalAtMost(tried, Lengths(c.programs));
  }

  /** If all programs together fit into the cache, no add ever fails. */
  lemma NoAddFails(c: Config, s: State)
    requires Reachable(c, s) && Total(Lengths(c.programs)) <= c.size
    ensures s.failed == 0
  {
    ReachableInv(c, s);
    AttemptsAreBounded(c, s);
  }

  /**
   When every writer is done, the cache holds as many entries as there were adds, up to its size;
   exactly the adds beyond the size have failed; and if none failed every program is there in order.
   */
  lemma FinalCount(c: Config, s: State)
    requires Reachable(c, s) && forall w :: 0 <= w < |s.wpc| ==> s.wpc[w] == WDone
    ensures var total := Total(Lengths(c.programs));
      && s.count == (if total <= c.size then total else c.size)
      && s.failed == (if total <= c.size then 0 else total - c.size)
      && |s.published| == |s.author|
      && (total <= c.size ==> forall w: nat :: w < |c.programs| ==> Project(s.published, s.author, w) == c.programs[w])
  {
    ReachableInv(c, s);
    assert s.pos == Lengths(c.programs);
    forall w: nat | w < |c.programs|
      ensures c.programs[w][..s.pos[w]] == c.programs[w]
    {
    }
  }

  lemma {:induction false} TotalConstant(xs: seq<nat>, x: nat)
    requires forall i :: 0 <= i < |xs| ==> xs[i] == x
    ensures Total(xs) == x * |xs|
  {
    if xs != [] {
      TotalConstant(xs[..|xs| - 1], x);
      assert x * |xs| == x * (|xs| - 1) + x;
    }
  }

  /** With `adds` entries for each writer and room for all of them, no add fails and the final count is the product. */
  lemma WritersTimesAdds(c: Config, s: State, adds: nat)
    requires Reachable(c, s)
    requires forall w :: 0 <= w < |c.programs| ==> |c.programs[w]| == adds
    requires adds * |c.programs| <= c.size
    ensures s.failed == 0
    ensures (forall w :: 0 <= w < |s.wpc| ==> s.wpc[w] == WDone) ==> s.count == adds * |c.programs|
  {
    TotalConstant(Lengths(c.programs), adds);
    NoAddFails(c, s);
    if forall w :: 0 <= w < |s.wpc| ==> s.wpc[w] == WDone {
      FinalCount(c, s);
    }
  }

  lemma {:induction false} FirstOfProjection(published: seq<Entry>, author: seq<nat>)
    requires |published| == |author| > 0
    ensures Project(published, author, author[0]) != []
    ensures Project(published, author, author[0])[0] == published[0]
  {
    var n := |published| - 1;
    if n > 0 {
      FirstOfProjection(published[..n], author[..n]);
    } else {
      assert published[..n] == [] && author[..n] == [];
    }
  }

  /** If every program starts with the same key, as the `key_0` of line 84, entry 0 always has that key. */
  lemma EntryZeroHasTheFirstKey(c: Config, s: State, key: string)
    requires Reachable(c, s) && s.count >= 1
    requires forall w :: 0 <= w < |c.programs| && c.programs[w] != [] ==> c.programs[w][0].key == key
    ensures |s.cache| > 0 && s.cache[0].key == key
  {
    ReachableInv(c, s);
    FirstOfProjection(s.published, s.author);
    var w := s.author[0];
    assert Project(s.published, s.author, w) == c.programs[w][..s.stored[w]];
  }
}
