/**
 Where runs of the cache of pthreads/pthreads1.c lead: every step of a thread lowers one potential, and
 when no thread can step all writers have finished their programs and no reader is inside a lookup.
 */
module SharedCacheLiveness {
  import opened Threads
  import opened Runs
  import opened SharedCache
  import opened SharedCacheTheorems

  function WriteRank(pc: WriterPc): nat {
    match pc
    case WDone => 0
    case WUnlock | WUnlockFull => 3
    case WCount => 4
    case WValue => 5
    case WKey => 6
    case WTest => 7
    case WLock => 8
    case WLoop => 9
  }

  /** A lookup examines at most `size` entries, in two steps each. */
  function ReadRank(c: Config, pc: ReaderPc): nat {
    match pc
    case RLock(_) => 2 * c.size + 5
    case RTest(_, at) => if at <= c.size then 2 * (c.size - at) + 2 else 0
    case RCompare(_, at) => if at <= c.size then 2 * (c.size - at) + 3 else 0
    case RHit(_, _, _) => 1
    case RMiss(_) => 1
    case _ => 0
  }

  function ReadRanks(c: Config): ReaderPc -> nat {
    pc => ReadRank(c, pc)
  }

  function Potential(c: Config, s: State): int {
    7 * (Total(Lengths(c.programs)) - Total(s.pos)) + Sum(s.wpc, WriteRank) + Sum(s.rpc, ReadRanks(c))
  }

  predicate ThreadStep(step: Step) {
    step.Write? || step.Read?
  }

  /** What the start of a lookup adds to the potential. */
  function Supply(c: Config, step: Step): nat {
    if step.CallLookup? then 2 * c.size + 5 else 0
  }

  lemma PotentialIsNatural(c: Config, s: State)
    requires WriterInv(c, s)
    ensures Potential(c, s) >= 0
  {
    TotalAtMost(s.pos, Lengths(c.programs));
  }

  lemma WriterMoves(c: Config, s: State, w: nat)
    requires WriterNext(c, s, w).Some? && s.wpc[w] != WUnlock && s.wpc[w] != WUnlockFull
    ensures Potential(c, WriterNext(c, s, w).value) < Potential(c, s)
  {
    SumUpdate(s.wpc, WriteRank, w, WriterNext(c, s, w).value.wpc[w]);
  }

  lemma WriterDescends(c: Config, s: State, w: nat)
    requires WriterNext(c, s, w).Some?
    ensures Potential(c, WriterNext(c, s, w).value) < Potential(c, s)
  {
    if s.wpc[w] == WUnlock || s.wpc[w] == WUnlockFull {
      SumUpdate(s.wpc, WriteRank, w, WLoop);
      TotalUpdate(s.pos, w, s.pos[w] + 1);
    } else {
      WriterMoves(c, s, w);
    }
  }

  lemma ReadRankFalls(c: Config, s: State, r: nat)
    requires s.count <= c.size && ReaderNext(c, s, r).Some?
    requires s.rpc[r].RTest? ==> s.rpc[r].at == -1 || s.rpc[r].at < s.count
    requires s.rpc[r].RCompare? ==> s.rpc[r].at <= c.size
    ensures var t := ReaderNext(c, s, r).value;
      && |t.rpc| == |s.rpc| && t.rpc == s.rpc[r := t.rpc[r]] && t.wpc == s.wpc && t.pos == s.pos
      && ReadRank(c, t.rpc[r]) < ReadRank(c, s.rpc[r])
  {
  }

  lemma ReaderDescends(c: Config, s: State, r: nat)
    requires s.count <= c.size && ReaderNext(c, s, r).Some?
    requires s.rpc[r].RTest? ==> s.rpc[r].at == -1 || s.rpc[r].at < s.count
    requires s.rpc[r].RCompare? ==> s.rpc[r].at <= c.size
    ensures Potential(c, ReaderNext(c, s, r).value) < Potential(c, s)
  {
    ReadRankFalls(c, s, r);
    SumUpdate(s.rpc, ReadRanks(c), r, ReaderNext(c, s, r).value.rpc[r]);
  }

  /** Every step of a reader or writer lowers the potential; only the start of a lookup raises it. */
  lemma EveryThreadStepDescends(c: Config, s: State, step: Step)
    requires Inv(c, s) && Next(c, s, step).Some?
    ensures ThreadStep(step) ==> Potential(c, Next(c, s, step).value) < Potential(c, s)
    ensures Potential(c, Next(c, s, step).value) <= Potential(c, s) + Supply(c, step)
  {
    match step
    case Write(w) => WriterDescends(c, s, w);
    case Read(r) => ReaderDescends(c, s, r);
    case CallLookup(r, key) => SumUpdate(s.rpc, ReadRanks(c), r, RLock(key));
  }

  /** The number of steps that readers and writers take in a run. */
  function ThreadSteps(run: seq<Step>): nat {
    StepsOf(ThreadStep, run)
  }

  predicate IsLookup(step: Step) {
    step.CallLookup?
  }

  /** The number of lookups that start in a run. */
  function Lookups(run: seq<Step>): nat {
    StepsOf(IsLookup, run)
  }

  function SupplyOf(c: Config): Step -> nat {
    step => Supply(c, step)
  }

  function PotentialOf(c: Config): State -> int {
    s => Potential(c, s)
  }

  ghost function InvOf(c: Config): State -> bool {
    s => Inv(c, s)
  }

  lemma PotentialPays(c: Config)
    ensures Pays(Machine(c), InvOf(c), PotentialOf(c), ThreadStep, SupplyOf(c))
  {
    forall s | Inv(c, s) ensures Potential(c, s) >= 0 { PotentialIsNatural(c, s); }
    forall s, step | Inv(c, s) && Next(c, s, step).Some?
      ensures var t := Next(c, s, step).value;
        Inv(c, t) && Potential(c, t) + (if ThreadStep(step) then 1 else 0) <= Potential(c, s) + Supply(c, step)
    {
      InvStep(c, s, step);
      EveryThreadStepDescends(c, s, step);
    }
  }

  lemma RunIsBounded(c: Config, s: State, run: seq<Step>)
    requires Inv(c, s) && Legal(c, s, run)
    ensures ThreadSteps(run) + Potential(c, Exec(c, s, run)) <= Potential(c, s) + (2 * c.size + 5) * Lookups(run)
    ensures Potential(c, Exec(c, s, run)) >= 0
  {
    PotentialPays(c);
    StepsAreBounded(Machine(c), InvOf(c), PotentialOf(c), ThreadStep, SupplyOf(c), s, run);
    SuppliedByKind(SupplyOf(c), IsLookup, 2 * c.size + 5, run);
  }

  /** A run has at most 9 steps a writer, 7 an add, and 2 MAX_CACHE_SIZE + 5 a lookup, in either variant. */
  lemma EveryRunEnds(c: Config, s: State, run: seq<Step>)
    requires IsInit(c, s) && Legal(c, s, run)
    ensures ThreadSteps(run) <= 9 * |c.programs| + 7 * Total(Lengths(c.programs)) + (2 * c.size + 5) * Lookups(run)
  {
    InitInv(c, s);
    RunIsBounded(c, s, run);
    InitialPotential(c, s);
  }

  lemma InitialPotential(c: Config, s: State)
    requires IsInit(c, s)
    ensures Potential(c, s) == 9 * |c.programs| + 7 * Total(Lengths(c.programs))
  {
    SumConstant(s.wpc, WriteRank, WLoop);
    SumConstant(s.rpc, ReadRanks(c), RIdle);
    TotalZero(s.pos);
  }

  ghost predicate Stuck(c: Config, s: State) {
    forall step :: ThreadStep(step) ==> Next(c, s, step).None?
  }

  lemma InsideCanStep(c: Config, s: State)
    requires Inv(c, s) && c.size > 0
    ensures s.lock.writer.Some? ==> Next(c, s, Write(s.lock.writer.value)).Some?
    ensures forall r :: r in s.lock.readers ==> Next(c, s, Read(r)).Some?
  {
  }

  lemma LockIsFree(c: Config, s: State)
    requires Inv(c, s) && Stuck(c, s) && c.size > 0
    ensures s.lock == RwLock({}, None)
  {
    InsideCanStep(c, s);
    assert forall w :: Next(c, s, Write(w)).None?;
    assert forall r :: Next(c, s, Read(r)).None?;
  }

  /**
   No deadlock: when no thread can step, every writer has finished its program and no reader is inside
   a lookup. The cache then holds what FinalCount says.
   */
  lemma WhenNothingCanStep(c: Config, s: State)
    requires Reachable(c, s) && Stuck(c, s) && c.size > 0
    ensures forall w :: 0 <= w < |s.wpc| ==> s.wpc[w] == WDone
    ensures forall r :: 0 <= r < |s.rpc| ==> Idle(s.rpc[r])
  {
    ReachableInv(c, s);
    LockIsFree(c, s);
    forall w: nat | w < |s.wpc| ensures s.wpc[w] == WDone {
      assert ThreadStep(Write(w)) && Next(c, s, Write(w)).None?;
    }
    forall r: nat | r < |s.rpc| ensures Idle(s.rpc[r]) {
      assert ThreadStep(Read(r)) && Next(c, s, Read(r)).None?;
    }
  }
}
