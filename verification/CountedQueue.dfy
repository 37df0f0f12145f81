/**
 The counted queue of src/queue.rs, used by one caller at a time: a FIFO with a counter that
 starts at a baseline so that a decrement on the empty queue cannot wrap it.
 */
module CountedQueue {
  import opened Options
  import opened Bytes

  const BASELINE: nat := 1_000_000

  /** `fetch_add` and `fetch_sub` wrap around at 64 bits. */
  function Up(c: nat): nat { (c + 1) % SIZE64 }

  function Down(c: nat): nat { if c == 0 then SIZE64 - 1 else c - 1 }

  datatype Counted<+T> = Counted(counter: nat, items: seq<T>)

  datatype Op<+T> = Enqueue(item: T) | Dequeue | Len

  function Start<T>(): Counted<T> { Counted(BASELINE, []) }

  function Step<T>(s: Counted<T>, op: Op<T>): Counted<T> {
    match op
    case Enqueue(x) => Counted(Up(s.counter), s.items + [x])
    case Dequeue =>
      Counted(if s.counter < BASELINE then BASELINE else Down(s.counter),
              if s.items == [] then [] else s.items[1..])
    case Len => s.(counter := if s.counter < BASELINE then BASELINE else s.counter)
  }

  function Run<T>(ops: seq<Op<T>>): Counted<T> {
    if ops == [] then Start() else Step(Run(ops[..|ops| - 1]), ops[|ops| - 1])
  }

  /** What `len` reports when it finds the counter at this value. */
  function Reported(counter: nat): nat {
    if counter < BASELINE then 0 else counter - BASELINE
  }

  /** Dequeues that found the queue empty since `len` last did. */
  ghost function Misses<T>(ops: seq<Op<T>>): nat {
    if ops == [] then 0
    else
      var init, empty := ops[..|ops| - 1], Run(ops[..|ops| - 1]).items == [];
      match ops[|ops| - 1]
      case Enqueue(_) => Misses(init)
      case Dequeue => if empty then Misses(init) + 1 else Misses(init)
      case Len => if empty then 0 else Misses(init)
  }

  /** The counter is exact, or one too low: it flips with every dequeue of an empty queue. */
  lemma {:induction false} CounterExactly<T>(ops: seq<Op<T>>)
    requires |ops| + BASELINE < SIZE64
    ensures |Run(ops).items| <= |ops|
    ensures Run(ops).counter == 1_000_000 + |Run(ops).items| - Misses(ops) % 2
  {
    if ops != [] {
      CounterExactly(ops[..|ops| - 1]);
      StepExactly(Run(ops[..|ops| - 1]), ops[|ops| - 1], Misses(ops[..|ops| - 1]));
    }
  }

  lemma StepExactly<T>(s: Counted<T>, op: Op<T>, misses: nat)
    requires s.counter == BASELINE + |s.items| - misses % 2 && |s.items| + BASELINE + 1 < SIZE64
    ensures var m := match op
                     case Enqueue(_) => misses
                     case Dequeue => if s.items == [] then misses + 1 else misses
                     case Len => if s.items == [] then 0 else misses;
            Step(s, op).counter == BASELINE + |Step(s, op).items| - m % 2
  {
    assert (misses + 1) % 2 == 1 - misses % 2;
  }

  /** `len` never overcounts, undercounts by at most one, and does so exactly when the number
      of misses is odd and something is queued. */
  lemma LenExactly<T>(ops: seq<Op<T>>)
    requires |ops| + BASELINE < SIZE64
    ensures var n := |Run(ops).items|;
            Reported(Run(ops).counter) == if n > 0 && Misses(ops) % 2 == 1 then n - 1 else n
  {
    CounterExactly(ops);
  }

  /** What `is_empty` can be trusted for. */
  lemma EmptyMeans<T>(ops: seq<Op<T>>)
    requires |ops| + BASELINE < SIZE64
    ensures Reported(Run(ops).counter) == 0 <==> |Run(ops).items| == 0 || (|Run(ops).items| == 1 && Misses(ops) % 2 == 1)
  {
    LenExactly(ops);
  }

  /** It can say empty when it is not: one failed dequeue, then one enqueue. */
  lemma EmptyCanLie<T>(x: T) returns (ops: seq<Op<T>>)
    ensures Reported(Run(ops).counter) == 0 && Run(ops).items == [x]
  {
    ops := [Dequeue, Enqueue(x)];
    assert ops[..1][..0] == [];
    assert Run(ops[..1]) == Step(Start(), Dequeue);
  }

  class LocklessQueue<T> {
    var count: Option<nat>
    var q: seq<T>

    /** The counted queue as a value, when counting is enabled. */
    ghost function State(): Counted<T>
      requires count.Some?
      reads this
    {
      Counted(count.value, q)
    }

    constructor ()
      ensures count == None && q == []
    {
      count, q := None, [];
    }

    constructor WithCounter()
      ensures count.Some? && State() == Start()
    {
      count, q := Some(BASELINE), [];
    }

    method Enqueue(value: T)
      modifies this
      ensures q == old(q) + [value] && count.Some? == old(count.Some?)
      ensures count.Some? ==> State() == Step(old(State()), Op.Enqueue(value))
    {
      q := q + [value];
      if count.Some? {
        count := Some(Up(count.value));
      }
    }

    method Dequeue() returns (r: Option<T>)
      modifies this
      ensures r == if old(q) == [] then None else Some(old(q)[0])
      ensures q == (if old(q) == [] then [] else old(q)[1..]) && count.Some? == old(count.Some?)
      ensures count.Some? ==> State() == Step(old(State()), Op.Dequeue)
    {
      if count.Some? {
        var oldValue := count.value;
        count := Some(Down(oldValue));
        if oldValue < BASELINE {
          count := Some(BASELINE);
        }
      }
      if q == [] {
        r := None;
      } else {
        r := Some(q[0]);
        q := q[1..];
      }
    }

    method Len() returns (n: Option<nat>)
      modifies this
      ensures q == old(q) && count.Some? == old(count.Some?)
      ensures count.None? ==> n == None
      ensures count.Some? ==> n == Some(Reported(old(State()).counter)) && State() == Step(old(State()), Op.Len)
    {
      if count.None? {
        return None;
      }
      var c := count.value;
      if c < BASELINE {
        count := Some(BASELINE);
        c := 0;
      } else {
        c := c - BASELINE;
      }
      n := Some(c);
    }

    method IsEmpty() returns (empty: bool)
      modifies this
      ensures q == old(q) && count.Some? == old(count.Some?)
      ensures count.None? ==> !empty
      ensures count.Some? ==> empty == (Reported(old(State()).counter) == 0) && State() == Step(old(State()), Op.Len)
    {
      var n := Len();
      empty := n.Some? && n.value == 0;
    }
  }
}
