/**
 The struct `shared_cache_t` of pthreads/pthreads1.c, updated in place. Add, Lookup and LookupAll are
 the bodies of cache_add and of the two versions of cache_lookup between lock and unlock; WriteStep
 and ReadStep take the threads from one program point to the next, proved against SharedCache. The
 conventions are those of ShutdownPoolObject.
 */
module SharedCacheObject {
  import opened Threads
  import opened SharedCache
  import opened SharedCacheTheorems

  /** The writer is writing an entry. */
  predicate InEntry(pc: WriterPc) {
    pc.WKey? || pc.WValue? || pc.WCount?
  }

  /** At lines 52 and 53 `count` is an index of `cache`. */
  lemma WriteInBounds(c: Config, s: State, w: nat)
    requires Inv(c, s) && w < |s.wpc|
    ensures w < |s.pos| && w < |s.stored| && w < |c.programs|
    ensures InEntry(s.wpc[w]) ==> s.count < |s.cache| && s.pos[w] < |c.programs[w]|
  {
  }

  /** At line 40 `i` is an index of `cache`: of any cache in the documented scan, of one of size at least 1 as coded. */
  lemma ReadInBounds(c: Config, s: State, r: nat)
    requires Inv(c, s) && r < |s.rpc| && (c.variant == AsCoded ==> c.size > 0)
    ensures s.rpc[r].RCompare? ==> 0 <= s.rpc[r].at < |s.cache|
  {
  }

  class Cache {
    const config: Config

    // the struct, lines 14-18
    const cache: array<Entry>
    var count: nat
    var rwlock: RwLock

    // the threads
    var writers: seq<WriterPc>
    var pos: seq<nat>
    var readers: seq<ReaderPc>

    ghost var published: seq<Entry>
    ghost var author: seq<nat>
    ghost var stored: seq<nat>
    ghost var failed: nat

    ghost predicate Valid()
      reads this, cache
    {
      cache.Length == config.size && Inv(config, Abs())
    }

    ghost function Abs(): State
      reads this, cache
    {
      State(cache[..], count, rwlock, writers, pos, readers, published, author, stored, failed)
    }

    /** cache_init; `garbage` is what the uninitialised array contains. */
    constructor (c: Config, garbage: Entry)
      ensures config == c && Valid() && fresh(cache)
      ensures IsInit(c, Abs())
    {
      config := c;
      cache := new Entry[c.size](i => garbage);
      count, rwlock := 0, RwLock({}, None);
      writers, pos := seq(|c.programs|, i => WLoop), seq(|c.programs|, i => 0);
      readers := seq(c.readers, i => RIdle);
      published, author, failed := [], [], 0;
      stored := seq(|c.programs|, i => 0);
      new;
      InitInv(c, Abs());
    }

    /**
     Lines 37-47. A return statement gives `r` a value other than FallsThrough and ends the loop; a
     loop that ends without one has reached line 47, the end of a function that has to return a value.
     */
    method Lookup(key: string) returns (r: Answer)
      requires cache.Length > 0
      ensures !r.FallsThrough?
      ensures r == CodedLoop(cache[..], count, key, -1)
      ensures r == if cache[0].key == key then Found(0) else Null
    {
      var i: int := -1;
      r := FallsThrough;
      while r == FallsThrough && i < count
        invariant r == FallsThrough <==> i == -1
        invariant r == FallsThrough || r == if cache[0].key == key then Found(0) else Null
        decreases r == FallsThrough
      {
        i := i + 1;
        if cache[i].key == key {
          r := Found(i);
        } else {
          r := Null;
        }
      }
    }

    /** The scan that the comment of lines 31-36 describes: the earliest live entry with the key. */
    method LookupAll(key: string) returns (r: Option<nat>)
      requires count <= cache.Length
      ensures r.Some? ==> r.value < count && cache[r.value].key == key
      ensures r.Some? ==> forall j :: 0 <= j < r.value ==> cache[j].key != key
      ensures r.None? ==> forall j :: 0 <= j < count ==> cache[j].key != key
      ensures r == FirstMatch(cache[..count], key, 0)
    {
      var i := 0;
      while i < count
        invariant i <= count
        invariant forall j :: 0 <= j < i ==> cache[j].key != key
        invariant FirstMatch(cache[..count], key, 0) == FirstMatch(cache[..count], key, i)
      {
        if cache[i].key == key {
          return Some(i);
        }
        i := i + 1;
      }
      return None;
    }

    /** Lines 51-60. */
    method Add(e: Entry) returns (r: int)
      requires cache.Length == config.size
      modifies cache, this`count
      ensures r == if old(count) < config.size then 0 else -1
      ensures r == 0 ==> count == old(count) + 1 && cache[..] == old(cache[..])[old(count) := e]
      ensures r == -1 ==> count == old(count) && cache[..] == old(cache[..])
    {
      if count < config.size {
        cache[count] := cache[count].(key := e.key);
        cache[count] := cache[count].(value := e.value);
        count := count + 1;
        return 0;
      } else {
        return -1;
      }
    }

    /** The line of writer_thread or cache_add at which writer w is. */
    method WriteLine(w: nat) returns (ran: bool)
      requires w < |writers| && w < |pos| && w < |stored| && w < |config.programs|
      requires InEntry(writers[w]) ==> count < cache.Length && pos[w] < |config.programs[w]|
      modifies this, cache
      ensures ran == WriterNext(config, old(Abs()), w).Some?
      ensures Abs() == if ran then WriterNext(config, old(Abs()), w).value else old(Abs())
    {
      ran := true;
      var program := config.programs[w];
      match writers[w] {
        case WLoop =>
          writers := writers[w := if pos[w] < |program| then WLock else WDone];
        case WLock =>
          if rwlock.readers != {} || rwlock.writer != None {
            return false;
          }
          rwlock, writers := rwlock.(writer := Some(w)), writers[w := WTest];
        case WTest =>
          writers := writers[w := if count < config.size then WKey else WUnlockFull];
        case WKey =>
          cache[count] := cache[count].(key := program[pos[w]].key);
          writers := writers[w := WValue];
        case WValue =>
          cache[count] := cache[count].(value := program[pos[w]].value);
          writers := writers[w := WCount];
        case WCount =>
          count := count + 1;
          published, author := published + [program[pos[w]]], author + [w];
          stored := stored[w := stored[w] + 1];
          writers := writers[w := WUnlock];
        case WUnlock =>
          rwlock, pos := rwlock.(writer := None), pos[w := pos[w] + 1];
          writers := writers[w := WLoop];
        case WUnlockFull =>
          rwlock, pos := rwlock.(writer := None), pos[w := pos[w] + 1];
          failed := failed + 1;
          writers := writers[w := WLoop];
        case WDone =>
          ran := false;
      }
    }

    /** Writer w goes from one program point to the next. */
    method WriteStep(w: nat) returns (ran: bool)
      requires Valid() && w < |config.programs|
      modifies this, cache
      ensures Valid()
      ensures ran == WriterNext(config, old(Abs()), w).Some?
      ensures Abs() == if ran then WriterNext(config, old(Abs()), w).value else old(Abs())
    {
      ghost var s := Abs();
      WriteInBounds(config, s, w);
      ran := WriteLine(w);
      if ran {
        InvWrite(config, s, w);
      }
    }

    /** The line of cache_lookup at which reader r is. */
    method ReadLine(r: nat) returns (ran: bool)
      requires r < |readers|
      requires readers[r].RCompare? ==> 0 <= readers[r].at < cache.Length
      modifies this`rwlock, this`readers
      ensures ran == ReaderNext(config, old(Abs()), r).Some?
      ensures Abs() == if ran then ReaderNext(config, old(Abs()), r).value else old(Abs())
    {
      ran := true;
      match readers[r] {
        case RLock(key) =>
          if rwlock.writer != None {
            return false;
          }
          rwlock, readers := rwlock.(readers := rwlock.readers + {r}), readers[r := RTest(key, -1)];
        case RTest(key, i) =>
          if config.variant == AsCoded {
            readers := readers[r := if i < count then RCompare(key, i + 1) else RFall(key)];
          } else {
            readers := readers[r := if i + 1 < count then RCompare(key, i + 1) else RMiss(key)];
          }
        case RCompare(key, i) =>
          if cache[i].key == key {
            readers := readers[r := RHit(key, i, i < count)];
          } else {
            readers := readers[r := if config.variant == AsCoded then RMiss(key) else RTest(key, i)];
          }
        case RHit(key, i, live) =>
          rwlock, readers := rwlock.(readers := rwlock.readers - {r}), readers[r := RGot(key, i, live)];
        case RMiss(key) =>
          rwlock, readers := rwlock.(readers := rwlock.readers - {r}), readers[r := RNull(key)];
        case RIdle | RFall(_) | RGot(_, _, _) | RNull(_) =>
          ran := false;
      }
    }

    /** Reader r goes from one program point to the next; line 40 has no meaning for an array of size 0. */
    method ReadStep(r: nat) returns (ran: bool)
      requires Valid() && r < config.readers
      requires config.variant == AsCoded ==> config.size > 0
      modifies this`rwlock, this`readers
      ensures Valid()
      ensures ran == ReaderNext(config, old(Abs()), r).Some?
      ensures Abs() == if ran then ReaderNext(config, old(Abs()), r).value else old(Abs())
    {
      ghost var s := Abs();
      ReadInBounds(config, s, r);
      ran := ReadLine(r);
      if ran {
        InvRead(config, s, r);
      }
    }

    /** An idle reader starts a lookup. */
    method CallLookup(r: nat, key: string) returns (ran: bool)
      requires Valid() && r < config.readers
      modifies this`readers
      ensures Valid()
      ensures ran == Next(config, old(Abs()), Step.CallLookup(r, key)).Some?
      ensures Abs() == if ran then Next(config, old(Abs()), Step.CallLookup(r, key)).value else old(Abs())
    {
      ghost var s := Abs();
      ran := Idle(readers[r]);
      if ran {
        readers := readers[r := RLock(key)];
        InvCall(config, s, r, key);
      }
    }
  }
}
