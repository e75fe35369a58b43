/**
 The struct `blocking_queue_t` of pthreads/pthreads3.c with its producer and consumer thread, updating
 the struct in place, one program point at a time, proved against the machine of ProducerConsumer. The
 conventions are those of ShutdownPoolObject.
 */
module BlockingQueueObject {
  import opened Ring
  import opened ProducerConsumer

  /** At line 43 `tail`, and at line 58 `head`, is an index of `queue`. */
  lemma IndicesInBounds(c: Config, s: State)
    requires Inv(c, s)
    ensures s.ppc == PPut ==> 0 <= s.ring.tail < |s.ring.buf|
    ensures s.cpc == CTake ==> 0 <= s.ring.head < |s.ring.buf|
  {
  }

  class BlockingQueue {
    const config: Config

    // the struct, lines 8-17
    const queue: array<int>
    var head: int
    var tail: int
    var size: int
    var mutex: Owner

    // the two threads
    var producer: ProducerPc
    var i: int
    var consumer: ConsumerPc
    var k: int
    var item: int
    var output: seq<int>

    ghost predicate Valid()
      reads this, queue
    {
      queue.Length == config.capacity && Inv(config, Abs())
    }

    ghost function Abs(): State
      reads this, queue
    {
      State(Ring(queue[..], head, tail, size), mutex, producer, i, consumer, k, item, output)
    }

    /** bqueue_create as its comment describes it, and both threads at the start. */
    constructor (c: Config)
      ensures config == c && Valid() && fresh(queue)
      ensures IsInit(c, Abs())
    {
      config := c;
      queue := new int[c.capacity];
      head, tail, size, mutex := 0, 0, 0, Free;
      producer, i := PLoop, 1;
      consumer, k, item, output := CLoop, 0, 0, [];
      new;
      InitInv(c, Abs());
    }

    /** The line of producer_thread or bqueue_enqueue at which the producer is. */
    method ProduceLine() returns (ran: bool)
      requires queue.Length == config.capacity
      requires producer == PPut ==> 0 <= tail < queue.Length
      modifies this, queue
      ensures ran == ProducerNext(config, old(Abs())).Some?
      ensures Abs() == if ran then ProducerNext(config, old(Abs())).value else old(Abs())
    {
      ran := true;
      match producer {
        case PLoop =>
          producer := if i <= config.n then PLock else PDone;
        case PLock | PWoken =>
          if mutex != Free {
            return false;
          }
          mutex, producer := Producer, PTest;
        case PTest =>
          if size == config.capacity {
            mutex, producer := Free, PWait;
          } else {
            producer := PPut;
          }
        case PPut =>
          queue[tail] := i;
          tail := (tail + 1) % config.capacity;
          size := size + 1;
          producer := PSignal;
        case PSignal =>
          if consumer == CWait {
            consumer := CWoken;
          }
          producer := PUnlock;
        case PUnlock =>
          mutex, producer := Free, PLoop;
          i := i + 1;
        case PWait | PDone =>
          ran := false;
      }
    }

    /** The producer goes from one program point to the next. */
    method ProduceStep() returns (ran: bool)
      requires Valid()
      modifies this, queue
      ensures Valid()
      ensures ran == ProducerNext(config, old(Abs())).Some?
      ensures Abs() == if ran then ProducerNext(config, old(Abs())).value else old(Abs())
    {
      ghost var s := Abs();
      IndicesInBounds(config, s);
      ran := ProduceLine();
      if ran {
        InvStep(config, s, Produce);
      }
    }

    /** The line of consumer_thread or bqueue_dequeue at which the consumer is. */
    method ConsumeLine() returns (ran: bool)
      requires queue.Length == config.capacity
      requires consumer == CTake ==> 0 <= head < queue.Length
      modifies this
      ensures ran == ConsumerNext(config, old(Abs())).Some?
      ensures Abs() == if ran then ConsumerNext(config, old(Abs())).value else old(Abs())
    {
      ran := true;
      match consumer {
        case CLoop =>
          consumer := if k < config.n then CLock else CDone;
        case CLock | CWoken =>
          if mutex != Free {
            return false;
          }
          mutex, consumer := Consumer, CTest;
        case CTest =>
          if size == 0 {
            mutex, consumer := Free, CWait;
          } else {
            consumer := CTake;
          }
        case CTake =>
          item := queue[head];
          size := size - 1;
          head := (head + 1) % config.capacity;
          consumer := CSignal;
        case CSignal =>
          if producer == PWait {
            producer := PWoken;
          }
          consumer := CUnlock;
        case CUnlock =>
          mutex, consumer := Free, CUse;
        case CUse =>
          output := output + [item];
          k := k + 1;
          consumer := CLoop;
        case CWait | CDone =>
          ran := false;
      }
    }

    /** The consumer goes from one program point to the next. */
    method ConsumeStep() returns (ran: bool)
      requires Valid()
      modifies this
      ensures Valid()
      ensures ran == ConsumerNext(config, old(Abs())).Some?
      ensures Abs() == if ran then ConsumerNext(config, old(Abs())).value else old(Abs())
    {
      ghost var s := Abs();
      IndicesInBounds(config, s);
      ran := ConsumeLine();
      if ran {
        InvStep(config, s, Consume);
      }
    }

    /** A wait returns without a signal. */
    method SpuriousWakeup(step: Step) returns (ran: bool)
      requires Valid() && (step == SpuriousProducer || step == SpuriousConsumer)
      modifies this
      ensures Valid()
      ensures ran == Next(config, old(Abs()), step).Some?
      ensures Abs() == if ran then Next(config, old(Abs()), step).value else old(Abs())
    {
      ghost var s := Abs();
      ran := if step == SpuriousProducer then producer == PWait else consumer == CWait;
      if ran {
        if step == SpuriousProducer {
          producer := PWoken;
        } else {
          consumer := CWoken;
        }
        InvStep(config, s, step);
      }
    }
  }
}
