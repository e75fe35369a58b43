/**
 Which orders of publication the writers of pthreads/pthreads1.c can bring about.
 */
module SharedCacheReach {
  import opened Threads
  import opened SharedCache
  import opened SharedCacheTheorems

  /** `order` names a writer for each entry, none more often than its program is long, and fits into the cache. */
  ghost predicate PossibleOrder(c: Config, order: seq<nat>) {
    && |order| <= c.size
    && (forall k :: 0 <= k < |order| ==> order[k] < |c.programs|)
    && (forall w: nat :: w < |c.programs| ==> multiset(order)[w] <= |c.programs[w]|)
  }

  lemma {:induction false} ProjectLength(published: seq<Entry>, author: seq<nat>, w: nat)
    requires |published| == |author|
    ensures |Project(published, author, w)| == multiset(author)[w]
  {
    if published != [] {
      var n := |published| - 1;
      assert author == author[..n] + [author[n]];
      ProjectLength(published[..n], author[..n], w);
    }
  }

  /** Every writer is at the top of its loop, and has published what the order says. */
  ghost predicate AtTop(c: Config, s: State, order: seq<nat>) {
    && Inv(c, s) && s.lock == RwLock({}, None) && s.author == order
    && (forall w :: 0 <= w < |s.wpc| ==> s.wpc[w] == WLoop && s.pos[w] == multiset(order)[w])
  }

  lemma AddsNext(c: Config, s: State, order: seq<nat>, w: nat) returns (run: seq<Step>)
    requires AtTop(c, s, order) && |order| < c.size && w < |c.programs| && multiset(order)[w] < |c.programs[w]|
    ensures Legal(c, s, run) && AtTop(c, Exec(c, s, run), order + [w])
  {
    run := AddsEntry(c, s, w);
    var t := Exec(c, s, run);
    forall v | 0 <= v < |t.wpc|
      ensures t.wpc[v] == WLoop && t.pos[v] == multiset(order + [w])[v]
    {
    }
  }

  lemma {:induction false} Publishes(c: Config, s: State, order: seq<nat>) returns (run: seq<Step>)
    requires IsInit(c, s) && PossibleOrder(c, order)
    ensures Legal(c, s, run) && AtTop(c, Exec(c, s, run), order)
    decreases |order|
  {
    InitInv(c, s);
    run := [];
    if order != [] {
      var n := |order| - 1;
      var before, w := order[..n], order[n];
      assert order == before + [w];
      assert multiset(order) == multiset(before) + multiset{w};
      run := Publishes(c, s, before);
      var more := AddsNext(c, Exec(c, s, run), before, w);
      ThenRun(c, s, run, more);
      run := run + more;
    }
  }

  /**
   The writers can publish in exactly the orders that their programs and the size allow: every
   interleaving occurs, and nothing else.
   */
  lemma OrdersIff(c: Config, s: State, order: seq<nat>)
    requires IsInit(c, s)
    ensures (exists run :: Legal(c, s, run) && Exec(c, s, run).author == order) <==> PossibleOrder(c, order)
  {
    InitInv(c, s);
    forall run | Legal(c, s, run) && Exec(c, s, run).author == order
      ensures PossibleOrder(c, order)
    {
      InvAlongRun(c, s, run);
      var t := Exec(c, s, run);
      forall w: nat | w < |c.programs|
        ensures multiset(order)[w] <= |c.programs[w]|
      {
        ProjectLength(t.published, t.author, w);
      }
    }
    if PossibleOrder(c, order) {
      var run := Publishes(c, s, order);
    }
  }
}
