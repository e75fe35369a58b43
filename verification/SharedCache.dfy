/**
 The append-only cache of pthreads/pthreads1.c behind a read-write lock: any number of writers, each
 adding the entries of its program in order, and any number of readers, each of which keeps the
 pointer that its last lookup returned. Writing an entry takes three steps: key, value, count.
 */
module SharedCache {
  import opened Threads
  import opened Runs

  datatype Entry = Entry(key: string, value: string)

  /** AsCoded is the loop of lines 37-46, both of whose branches return; Documented is the scan of lines 31-36. */
  datatype Variant = AsCoded | Documented

  datatype Config = Config(size: nat, programs: seq<seq<Entry>>, readers: nat, variant: Variant)

  /** pthread_rwlock_t: the readers inside, and the writer inside. */
  datatype RwLock = RwLock(readers: set<nat>, writer: Option<nat>)

  /** writer_thread and cache_add. */
  datatype WriterPc =
    | WLoop       // 81
    | WLock       // 50
    | WTest       // 51
    | WKey        // 52
    | WValue      // 53
    | WCount      // 54
    | WUnlock     // 55-56
    | WUnlockFull // 58-59
    | WDone       // 93

  /**
   cache_lookup for `key`; `at` is its local variable i. `live` tells whether the entry found was below
   the count when it was compared.
   */
  datatype ReaderPc =
    | RIdle
    | RLock(key: string)                      // 38
    | RTest(key: string, at: int)             // 39: the loop condition, which also increments i
    | RCompare(key: string, at: int)          // 40
    | RHit(key: string, i: nat, live: bool)   // 41
    | RMiss(key: string)                      // 44
    | RFall(key: string)                      // 47: the end of a function that has to return a value
    | RGot(key: string, i: nat, live: bool)   // 42: has a pointer to the value of entry i
    | RNull(key: string)                      // 45

  /**
   `pos[w]` counts the adds that writer w has finished. History: the entries published, the writer of
   each, how many entries each writer has published, and how many adds returned -1.
   */
  datatype State = State(
    cache: seq<Entry>,
    count: nat,
    lock: RwLock,
    wpc: seq<WriterPc>,
    pos: seq<nat>,
    rpc: seq<ReaderPc>,
    published: seq<Entry>,
    author: seq<nat>,
    stored: seq<nat>,
    failed: nat)

  predicate IsInit(c: Config, s: State) {
    && |s.cache| == c.size && s.count == 0
    && s.lock == RwLock({}, None)
    && |s.wpc| == |s.pos| == |s.stored| == |c.programs|
    && (forall w :: 0 <= w < |s.wpc| ==> s.wpc[w] == WLoop && s.pos[w] == 0 && s.stored[w] == 0)
    && |s.rpc| == c.readers
    && (forall r :: 0 <= r < |s.rpc| ==> s.rpc[r] == RIdle)
    && s.published == [] && s.author == [] && s.failed == 0
  }

  function WriterNext(c: Config, s: State, w: nat): Option<State> {
    if w >= |s.wpc| || w >= |s.pos| || w >= |s.stored| || w >= |c.programs| then None else
    var program, pos := c.programs[w], s.pos[w];
    match s.wpc[w]
    case WLoop =>
      Some(s.(wpc := s.wpc[w := if pos < |program| then WLock else WDone]))
    case WLock =>
      if s.lock.readers != {} || s.lock.writer != None then None
      else Some(s.(lock := s.lock.(writer := Some(w)), wpc := s.wpc[w := WTest]))
    case WTest =>
      Some(s.(wpc := s.wpc[w := if s.count < c.size then WKey else WUnlockFull]))
    case WKey =>
      if s.count >= |s.cache| || pos >= |program| then None
      else Some(s.(cache := s.cache[s.count := s.cache[s.count].(key := program[pos].key)],
                   wpc := s.wpc[w := WValue]))
    case WValue =>
      if s.count >= |s.cache| || pos >= |program| then None
      else Some(s.(cache := s.cache[s.count := s.cache[s.count].(value := program[pos].value)],
                   wpc := s.wpc[w := WCount]))
    case WCount =>
      if pos >= |program| then None
      else Some(s.(count := s.count + 1, published := s.published + [program[pos]], author := s.author + [w],
                   stored := s.stored[w := s.stored[w] + 1], wpc := s.wpc[w := WUnlock]))
    case WUnlock =>
      Some(s.(lock := s.lock.(writer := None), pos := s.pos[w := pos + 1], wpc := s.wpc[w := WLoop]))
    case WUnlockFull =>
      Some(s.(lock := s.lock.(writer := None), pos := s.pos[w := pos + 1], failed := s.failed + 1,
              wpc := s.wpc[w := WLoop]))
    case WDone => None
  }

  function ReaderNext(c: Config, s: State, r: nat): Option<State> {
    if r >= |s.rpc| then None else
    match s.rpc[r]
    case RIdle => None
    case RLock(key) =>
      if s.lock.writer != None then None
      else Some(s.(lock := s.lock.(readers := s.lock.readers + {r}), rpc := s.rpc[r := RTest(key, -1)]))
    case RTest(key, i) =>
      if c.variant == AsCoded
      then Some(s.(rpc := s.rpc[r := if i < s.count then RCompare(key, i + 1) else RFall(key)]))
      else Some(s.(rpc := s.rpc[r := if i + 1 < s.count then RCompare(key, i + 1) else RMiss(key)]))
    case RCompare(key, i) =>
      if !(0 <= i < |s.cache|) then None
      else if s.cache[i].key == key then Some(s.(rpc := s.rpc[r := RHit(key, i, i < s.count)]))
      else Some(s.(rpc := s.rpc[r := if c.variant == AsCoded then RMiss(key) else RTest(key, i)]))
    case RFall(_) => None
    case RHit(key, i, live) =>
      Some(s.(lock := s.lock.(readers := s.lock.readers - {r}), rpc := s.rpc[r := RGot(key, i, live)]))
    case RMiss(key) =>
      Some(s.(lock := s.lock.(readers := s.lock.readers - {r}), rpc := s.rpc[r := RNull(key)]))
    case RGot(_, _, _) => None
    case RNull(_) => None
  }

  predicate Idle(pc: ReaderPc) {
    pc.RIdle? || pc.RGot? || pc.RNull?
  }

  datatype Step = Write(w: nat) | Read(r: nat) | CallLookup(r: nat, key: string)

  function Next(c: Config, s: State, step: Step): Option<State> {
    match step
    case Write(w) => WriterNext(c, s, w)
    case Read(r) => ReaderNext(c, s, r)
    case CallLookup(r, key) =>
      if r < |s.rpc| && Idle(s.rpc[r]) then Some(s.(rpc := s.rpc[r := RLock(key)])) else None
  }

  /** The machine of a configuration. */
  function Machine(c: Config): (State, Step) -> Option<State> {
    (s: State, step: Step) => Next(c, s, step)
  }

  ghost predicate Legal(c: Config, s: State, run: seq<Step>) {
    LegalRun(Machine(c), s, run)
  }

  ghost function Exec(c: Config, s: State, run: seq<Step>): State
    requires Legal(c, s, run)
  {
    After(Machine(c), s, run)
  }

  lemma Then(c: Config, s: State, run: seq<Step>, step: Step)
    requires Legal(c, s, run) && Next(c, Exec(c, s, run), step).Some?
    ensures Legal(c, s, run + [step])
    ensures Exec(c, s, run + [step]) == Next(c, Exec(c, s, run), step).value
  {
    Extend(Machine(c), s, run, step);
  }

  lemma ThenRun(c: Config, s: State, run: seq<Step>, more: seq<Step>)
    requires Legal(c, s, run) && Legal(c, Exec(c, s, run), more)
    ensures Legal(c, s, run + more)
    ensures Exec(c, s, run + more) == Exec(c, Exec(c, s, run), more)
  {
    Concat(Machine(c), s, run, more);
  }

  ghost predicate Reachable(c: Config, s: State) {
    exists s0, run :: IsInit(c, s0) && Legal(c, s0, run) && Exec(c, s0, run) == s
  }

  // ---------------------------------------------------------------------------------------------
  // The two lookups
  // ---------------------------------------------------------------------------------------------

  /** The first of the entries from i on with this key. */
  function FirstMatch(entries: seq<Entry>, key: string, i: nat): Option<nat>
    decreases |entries| - i
  {
    if i >= |entries| then None
    else if entries[i].key == key then Some(i)
    else FirstMatch(entries, key, i + 1)
  }

  /** What a lookup ends with: a pointer, NULL, or the end of the function without a value. */
  datatype Answer = Found(i: nat) | Null | FallsThrough

  /** The loop of lines 39-46 from the value i on: test, increment, compare, and return either way. */
  function CodedLoop(cache: seq<Entry>, count: nat, key: string, i: int): Answer
    requires 0 <= i + 1 < |cache|
  {
    if i < count then
      if cache[i + 1].key == key then Found(i + 1) else Null
    else FallsThrough
  }

  /** What the documented scan ends with. */
  function ScanAnswer(cache: seq<Entry>, count: nat, key: string): Answer
    requires count <= |cache|
  {
    var r := FirstMatch(cache[..count], key, 0);
    if r.Some? then Found(r.value) else Null
  }

  lemma {:induction false} FirstMatchIsEarliest(entries: seq<Entry>, key: string, i: nat)
    requires i <= |entries|
    ensures match FirstMatch(entries, key, i)
      case None => forall j :: i <= j < |entries| ==> entries[j].key != key
      case Some(p) => i <= p < |entries| && entries[p].key == key && forall j :: i <= j < p ==> entries[j].key != key
    decreases |entries| - i
  {
    if i < |entries| && entries[i].key != key {
      FirstMatchIsEarliest(entries, key, i + 1);
    }
  }

  /**
   The coded loop and the documented scan give the same answer exactly when, over the empty cache, the
   content of entry 0 happens not to be the key, and otherwise, the key is that of entry 0 or of no other live entry.
   */
  lemma CodedAgreesIff(cache: seq<Entry>, count: nat, key: string)
    requires count <= |cache| && |cache| > 0
    ensures CodedLoop(cache, count, key, -1) == ScanAnswer(cache, count, key) <==>
      if count == 0 then cache[0].key != key
      else cache[0].key == key || forall j :: 1 <= j < count ==> cache[j].key != key
  {
    var live := cache[..count];
    FirstMatchIsEarliest(live, key, 0);
    forall j | 0 <= j < count
      ensures live[j] == cache[j]
    {
    }
  }

  // ---------------------------------------------------------------------------------------------
  // The invariant
  // ---------------------------------------------------------------------------------------------

  predicate WHolds(pc: WriterPc) {
    pc.WTest? || pc.WKey? || pc.WValue? || pc.WCount? || pc.WUnlock? || pc.WUnlockFull?
  }

  predicate RHolds(pc: ReaderPc) {
    pc.RTest? || pc.RCompare? || pc.RHit? || pc.RMiss? || pc.RFall?
  }

  ghost predicate LockInv(c: Config, s: State) {
    && |s.wpc| == |s.pos| == |s.stored| == |c.programs|
    && |s.rpc| == c.readers
    && (forall w :: 0 <= w < |s.wpc| ==> (WHolds(s.wpc[w]) <==> s.lock.writer == Some(w)))
    && (forall r :: 0 <= r < |s.rpc| ==> (RHolds(s.rpc[r]) <==> r in s.lock.readers))
    && (s.lock.writer.Some? ==> s.lock.readers == {} && s.lock.writer.value < |s.wpc|)
    && (forall r :: r in s.lock.readers ==> r < |s.rpc|)
  }

  /** Where each writer is in its program, and what it has already written of its next entry. */
  ghost predicate WriterInv(c: Config, s: State) {
    && |s.wpc| == |s.pos| == |s.stored| == |c.programs|
    && |s.cache| == c.size
    && forall w :: 0 <= w < |s.wpc| ==>
         && s.pos[w] <= |c.programs[w]|
         && (s.wpc[w] == WDone ==> s.pos[w] == |c.programs[w]|)
         && (s.wpc[w] != WLoop && s.wpc[w] != WDone ==> s.pos[w] < |c.programs[w]|)
         && (s.wpc[w].WKey? || s.wpc[w].WValue? || s.wpc[w].WCount? ==> s.count < c.size)
         && (s.wpc[w] == WValue && s.count < c.size ==> s.cache[s.count].key == c.programs[w][s.pos[w]].key)
         && (s.wpc[w] == WCount && s.count < c.size ==> s.cache[s.count] == c.programs[w][s.pos[w]])
         && (s.wpc[w] == WUnlockFull ==> s.count == c.size)
  }

  /** The live entries are the published ones. */
  ghost predicate EntriesInv(c: Config, s: State) {
    && |s.cache| == c.size
    && s.count == |s.published| == |s.author| <= c.size
    && forall k :: 0 <= k < s.count ==> s.cache[k] == s.published[k]
  }

  /** The entries that writer w has published, in order. */
  function Project(published: seq<Entry>, author: seq<nat>, w: nat): seq<Entry>
    requires |published| == |author|
  {
    if published == [] then []
    else
      var n := |published| - 1;
      Project(published[..n], author[..n], w) + if author[n] == w then [published[n]] else []
  }

  /** How many adds writer w has got through its critical section. */
  function Attempted(s: State, w: nat): nat
    requires w < |s.wpc| == |s.pos|
  {
    s.pos[w] + if s.wpc[w] == WUnlock then 1 else 0
  }

  ghost predicate OrderInv(c: Config, s: State) {
    && |s.published| == |s.author|
    && |s.wpc| == |s.pos| == |s.stored| == |c.programs|
    && (forall k :: 0 <= k < |s.author| ==> s.author[k] < |c.programs|)
    && forall w: nat :: w < |s.wpc| ==>
         && s.stored[w] <= Attempted(s, w) && s.stored[w] <= |c.programs[w]|
         && (s.failed == 0 ==> s.stored[w] == Attempted(s, w))
         && Project(s.published, s.author, w) == c.programs[w][..s.stored[w]]
  }

  function Total(xs: seq<nat>): nat {
    if xs == [] then 0 else Total(xs[..|xs| - 1]) + xs[|xs| - 1]
  }

  /** 1 while a writer has published its entry and not returned from its add. */
  function Returning(s: State): nat {
    if s.lock.writer.Some? && s.lock.writer.value < |s.wpc| && s.wpc[s.lock.writer.value] == WUnlock then 1 else 0
  }

  /** Adds either publish or fail, and they fail only when the cache is full. */
  ghost predicate CountInv(c: Config, s: State) {
    && s.count + s.failed == Total(s.pos) + Returning(s)
    && (s.failed > 0 ==> s.count == c.size)
  }

  /** What a reader has found out while it holds the lock, and what remains true of its pointer. */
  ghost predicate ReaderInv(c: Config, s: State) {
    && |s.cache| == c.size && s.count <= c.size
    && forall r :: 0 <= r < |s.rpc| ==>
         match s.rpc[r]
         case RTest(key, i) =>
           if c.variant == AsCoded then i == -1
           else ( && -1 <= i && (i == -1 || i < s.count)
                  && FirstMatch(s.cache[..s.count], key, 0) == FirstMatch(s.cache[..s.count], key, i + 1))
         case RCompare(key, i) =>
           if c.variant == AsCoded then i == 0
           else 0 <= i < s.count && FirstMatch(s.cache[..s.count], key, 0) == FirstMatch(s.cache[..s.count], key, i)
         case RFall(_) => false
         case RHit(key, i, live) =>
           && i < c.size && s.cache[i].key == key && (live <==> i < s.count)
           && (if c.variant == AsCoded then i == 0 else FirstMatch(s.cache[..s.count], key, 0) == Some(i))
         case RMiss(key) =>
           if c.variant == AsCoded then c.size > 0 && s.cache[0].key != key
           else FirstMatch(s.cache[..s.count], key, 0) == None
         case RGot(key, i, live) =>
           live ==> i < s.count && s.cache[i].key == key
         case _ => true
  }

  ghost predicate Inv(c: Config, s: State) {
    && LockInv(c, s)
    && WriterInv(c, s)
    && EntriesInv(c, s)
    && OrderInv(c, s)
    && CountInv(c, s)
    && ReaderInv(c, s)
  }
}
