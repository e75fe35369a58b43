/**
 The circular buffer that the two thread pools and the blocking queue keep inside their structs:
 an array with `head`, `tail` and a count, all advanced modulo the capacity.
 */
module Ring {
  /** Position `k` places after `i` on a circle of `n` slots (at most one turn). */
  function Slot(i: int, k: int, n: int): int {
    if i + k < n then i + k else i + k - n
  }

  datatype Ring<T> = Ring(buf: seq<T>, head: int, tail: int, count: int) {
    /** The indices a C program keeps; a queue of capacity 0 never moves. */
    predicate Valid() {
      && 0 <= count <= |buf|
      && 0 <= head && 0 <= tail
      && (if |buf| == 0 then head == 0 && tail == 0 else head < |buf| && tail < |buf|)
      && (|buf| != 0 ==> tail == Slot(head, count, |buf|))
    }

    /** The queued items, oldest first. */
    function Contents(): (r: seq<T>)
      requires Valid()
      ensures |r| == count
    {
      seq(count, k requires 0 <= k < count => buf[Slot(head, k, |buf|)])
    }

    /** Store at `tail`, advance `tail`, increment the count. */
    function Put(x: T): Ring<T>
      requires 0 <= tail < |buf|
    {
      Ring(buf[tail := x], head, (tail + 1) % |buf|, count + 1)
    }

    /** Advance `head`, decrement the count; the slot keeps its old value. */
    function Take(): Ring<T>
      requires 0 <= head < |buf|
    {
      Ring(buf, (head + 1) % |buf|, tail, count - 1)
    }
  }

  lemma AdvanceWraps(i: int, n: int)
    requires 0 <= i < n
    ensures (i + 1) % n == Slot(i, 1, n)
  {
    if i + 1 == n {
      assert (i + 1) % n == 0;
    } else {
      assert (i + 1) % n == i + 1;
    }
  }

  /** An insertion into a queue that is not full appends, across the wrap-around too. */
  lemma PutAppends<T>(r: Ring<T>, x: T)
    requires r.Valid() && r.count < |r.buf|
    ensures r.Put(x).Valid()
    ensures r.Put(x).Contents() == r.Contents() + [x]
  {
    AdvanceWraps(r.tail, |r.buf|);
    var q := r.Put(x);
    assert q.Valid();
    forall k | 0 <= k < q.count
      ensures q.Contents()[k] == (r.Contents() + [x])[k]
    {
    }
  }

  /** A removal from a queue that is not empty returns the oldest item. */
  lemma TakeRemovesOldest<T>(r: Ring<T>)
    requires r.Valid() && r.count > 0
    ensures r.Take().Valid()
    ensures r.Contents() == [r.buf[r.head]] + r.Take().Contents()
  {
    AdvanceWraps(r.head, |r.buf|);
    var q := r.Take();
    assert q.Valid();
    forall k | 0 <= k < r.count
      ensures r.Contents()[k] == ([r.buf[r.head]] + q.Contents())[k]
    {
    }
  }
}
