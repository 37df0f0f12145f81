/**
 The two-queue ring of src/queue.rs with each call atomic: producers fill one side while a
 batch iterator drains the other.
 */
module QueueRing {
  import opened Options
  import CountedQueue

  datatype Ring<+T> = Ring(next: nat, lens: seq<nat>, queues: seq<seq<T>>)

  /** The ring, the current batch iterator's side, and history: what was enqueued, the
      batches handed out so far and the length each was announced with. */
  datatype Use<+T> = Use(ring: Ring<T>, side: nat, enqueued: seq<T>, batches: seq<seq<T>>, announced: seq<nat>)

  datatype Op<+T> = Enqueue(item: T) | Dequeue | Next

  function Start<T>(): Use<T> { Use(Ring(0, [0, 0], [[], []]), 1, [], [], []) }

  predicate Shaped<T>(r: Ring<T>) { |r.lens| == |r.queues| == 2 }

  function RingEnqueue<T>(r: Ring<T>, x: T): Ring<T>
    requires Shaped(r)
  {
    var k := r.next % 2;
    r.(lens := r.lens[k := r.lens[k] + 1], queues := r.queues[k := r.queues[k] + [x]])
  }

  /** Flips the active side and takes the length counter of the side it leaves. */
  function RingDequeue<T>(r: Ring<T>): (Ring<T>, nat, nat)
    requires Shaped(r)
  {
    var k := r.next % 2;
    (r.(next := r.next + 1, lens := r.lens[k := 0]), k, r.lens[k])
  }

  function RingNext<T>(r: Ring<T>, k: nat): (Ring<T>, Option<T>)
    requires Shaped(r) && k < 2
  {
    if r.queues[k] == [] then (r, None)
    else (r.(queues := r.queues[k := r.queues[k][1..]]), Some(r.queues[k][0]))
  }

  /** A batch must be exhausted before the next one is asked for. */
  predicate Allowed<T>(u: Use<T>, op: Op<T>) {
    && Shaped(u.ring) && u.side < 2
    && (op.Dequeue? ==> u.ring.queues[u.side] == [])
    && (op.Next? ==> u.batches != [])
  }

  function Step<T>(u: Use<T>, op: Op<T>): Use<T>
    requires Allowed(u, op)
  {
    match op
    case Enqueue(x) => u.(ring := RingEnqueue(u.ring, x), enqueued := u.enqueued + [x])
    case Dequeue =>
      var (r, k, n) := RingDequeue(u.ring);
      Use(r, k, u.enqueued, u.batches + [[]], u.announced + [n])
    case Next =>
      var (r, x) := RingNext(u.ring, u.side);
      var last := |u.batches| - 1;
      if x == None then u.(ring := r)
      else u.(ring := r, batches := u.batches[last := u.batches[last] + [x.value]])
  }

  ghost predicate Disciplined<T>(ops: seq<Op<T>>)
    decreases |ops|, 0
  {
    ops != [] ==> Disciplined(ops[..|ops| - 1]) && Allowed(Run(ops[..|ops| - 1]), ops[|ops| - 1])
  }

  ghost function Run<T>(ops: seq<Op<T>>): Use<T>
    requires Disciplined(ops)
    decreases |ops|, 1
  {
    if ops == [] then Start() else Step(Run(ops[..|ops| - 1]), ops[|ops| - 1])
  }

  ghost function Concat<T>(bs: seq<seq<T>>): seq<T> {
    if bs == [] then [] else Concat(bs[..|bs| - 1]) + bs[|bs| - 1]
  }

  lemma ConcatGrows<T>(bs: seq<seq<T>>, x: T)
    requires bs != []
    ensures Concat(bs[|bs| - 1 := bs[|bs| - 1] + [x]]) == Concat(bs) + [x]
  {
    var cs := bs[|bs| - 1 := bs[|bs| - 1] + [x]];
    assert cs[..|cs| - 1] == bs[..|bs| - 1];
  }

  /** Batches, then the side being drained, then the side being filled: that is everything
      enqueued, in order; and the announced lengths are the batch sizes. */
  ghost predicate Fifo<T>(u: Use<T>) {
    && Shaped(u.ring)
    && u.side == 1 - u.ring.next % 2
    && u.enqueued == Concat(u.batches) + u.ring.queues[u.side] + u.ring.queues[1 - u.side]
    && u.ring.lens[u.side] == 0
    && u.ring.lens[1 - u.side] == |u.ring.queues[1 - u.side]|
    && |u.announced| == |u.batches|
    && (u.batches == [] ==> u.ring.queues[u.side] == [])
    && forall i :: 0 <= i < |u.batches| ==>
         u.announced[i] == |u.batches[i]| + if i == |u.batches| - 1 then |u.ring.queues[u.side]| else 0
  }

  lemma StepFifo<T>(u: Use<T>, op: Op<T>)
    requires Fifo(u) && Allowed(u, op)
    ensures Fifo(Step(u, op))
  {
    match op
    case Enqueue(x) =>
    case Dequeue =>
      assert (u.batches + [[]])[..|u.batches|] == u.batches;
    case Next =>
      if u.ring.queues[u.side] != [] {
        var q := u.ring.queues[u.side];
        ConcatGrows(u.batches, q[0]);
        assert q == [q[0]] + q[1..];
      }
  }

  /** If each batch is exhausted before the next, the ring is one FIFO, however enqueues fall
      between the pulls. */
  lemma {:induction false} RefinesFifo<T>(ops: seq<Op<T>>)
    requires Disciplined(ops)
    ensures Fifo(Run(ops))
  {
    if ops != [] {
      RefinesFifo(ops[..|ops| - 1]);
      StepFifo(Run(ops[..|ops| - 1]), ops[|ops| - 1]);
    }
  }

  /** What was delivered is always a prefix of what was enqueued, and when the current batch
      is exhausted every announced length is the size of its batch. */
  lemma BatchesInOrder<T>(ops: seq<Op<T>>)
    requires Disciplined(ops)
    ensures Concat(Run(ops).batches) <= Run(ops).enqueued
    ensures Allowed(Run(ops), Dequeue) ==>
              |Run(ops).announced| == |Run(ops).batches|
              && forall i :: 0 <= i < |Run(ops).batches| ==> Run(ops).announced[i] == |Run(ops).batches[i]|
    ensures Allowed(Run(ops), Dequeue) ==>
              |Run(ops).enqueued| == |Concat(Run(ops).batches)| + Run(ops).ring.lens[Run(ops).ring.next % 2]
  {
    RefinesFifo(ops);
  }

  // ---- the objects ----------------------------------------------------------------------

  class QueueIterator<T> {
    const q: CountedQueue.LocklessQueue<T>
    const len: nat
    var safetyCount: nat

    constructor (queue: CountedQueue.LocklessQueue<T>, length: nat)
      ensures q == queue && len == length && safetyCount == 0
    {
      q, len, safetyCount := queue, length, 0;
    }

    /** Tries once, and up to three times more if the queue looked empty. */
    method Next() returns (r: Option<T>)
      requires q.count == None
      modifies this, q
      ensures q.count == None
      ensures r == if old(q.q) == [] then None else Some(old(q.q)[0])
      ensures q.q == if old(q.q) == [] then [] else old(q.q)[1..]
      ensures safetyCount == old(safetyCount) + if r.Some? then 1 else 0
    {
      r := q.Dequeue();
      if r.Some? {
        safetyCount := safetyCount + 1;
        return;
      }
      var tries := 0;
      while tries < 3
        invariant safetyCount == old(safetyCount)
        invariant q.q == old(q.q) == [] && q.count == None && r == None
        decreases 3 - tries
      {
        tries := tries + 1;
        r := q.Dequeue();
        if r.Some? {
          return;
        }
      }
    }
  }

  class QueueRing<T> {
    var nextI: nat
    const lLen: array<nat>
    const q0: CountedQueue.LocklessQueue<T>
    const q1: CountedQueue.LocklessQueue<T>

    ghost predicate Valid()
      reads this, lLen, q0, q1
    {
      lLen.Length == 2 && q0 != q1 && q0.count == None && q1.count == None
    }

    ghost function State(): Ring<T>
      requires Valid()
      reads this, lLen, q0, q1
    {
      Ring(nextI, lLen[..], [q0.q, q1.q])
    }

    constructor ()
      ensures Valid() && State() == Start<T>().ring
      ensures fresh(lLen) && fresh(q0) && fresh(q1)
    {
      q0 := new CountedQueue.LocklessQueue();
      q1 := new CountedQueue.LocklessQueue();
      lLen := new nat[2](_ => 0);
      nextI := 0;
    }

    method Enqueue(value: T)
      requires Valid()
      modifies this, lLen, q0, q1
      ensures Valid() && State() == RingEnqueue(old(State()), value)
    {
      var k := nextI % 2;
      lLen[k] := lLen[k] + 1;
      if k == 0 {
        q0.Enqueue(value);
      } else {
        q1.Enqueue(value);
      }
    }

    method Dequeue() returns (it: QueueIterator<T>)
      requires Valid()
      modifies this, lLen
      ensures Valid() && State() == RingDequeue(old(State())).0
      ensures it.q == (if RingDequeue(old(State())).1 == 0 then q0 else q1)
      ensures it.len == RingDequeue(old(State())).2 && fresh(it)
    {
      var oldK := nextI % 2;
      nextI := nextI + 1;
      var length := lLen[oldK];
      lLen[oldK] := 0;
      it := new QueueIterator(if oldK == 0 then q0 else q1, length);
    }
  }
}
