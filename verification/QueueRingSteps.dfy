/**
 The two-queue ring one atomic access at a time.  An enqueuer reads the active side, counts
 itself in, and only then pushes; a dequeuer flips the side, takes the counter, and pops.
 Any number of both interleave.
 */
module QueueRingSteps {
  import opened Sums
  import opened Options
  import Calls = QueueRing

  datatype Producer<+T> = Resting | Chosen(item: T, k: nat) | Counted(item: T, k: nat)

  /** A consumer has flipped the ring, or holds an iterator over side `k`. */
  datatype Consumer = Free | Flipped(k: nat) | Draining(k: nat)

  /** `pushed`, `taken`, `announced` and `counted` are history per side: the items pushed and
      delivered, the sum of the lengths given to iterators, and how many enqueues passed
      their counter increment. */
  datatype State<+T> = State(
    next: nat,
    lens: seq<nat>,
    queues: seq<seq<T>>,
    producers: seq<Producer<T>>,
    consumers: seq<Consumer>,
    pushed: seq<seq<T>>,
    taken: seq<seq<T>>,
    announced: seq<nat>,
    counted: seq<nat>)

  datatype Action<+T> =
    | Choose(p: nat, item: T)
    | Count(p: nat)
    | Push(p: nat)
    | Flip(c: nat)
    | Swap(c: nat)
    | Pop(c: nat)
    | Finish(c: nat)
  {
    predicate Enqueues() { Choose? || Count? || Push? }
  }

  function Init<T>(nProducers: nat, nConsumers: nat): State<T> {
    State(0, [0, 0], [[], []], seq(nProducers, _ => Resting), seq(nConsumers, _ => Free), [[], []], [[], []], [0, 0], [0, 0])
  }

  predicate Shaped<T>(s: State<T>) {
    && |s.lens| == |s.queues| == |s.pushed| == |s.taken| == |s.announced| == |s.counted| == 2
    && (forall p :: 0 <= p < |s.producers| && !s.producers[p].Resting? ==> s.producers[p].k < 2)
    && (forall c :: 0 <= c < |s.consumers| && !s.consumers[c].Free? ==> s.consumers[c].k < 2)
  }

  predicate Enabled<T>(s: State<T>, a: Action<T>) {
    && Shaped(s)
    && match a
       case Choose(p, _) => p < |s.producers| && s.producers[p].Resting?
       case Count(p) => p < |s.producers| && s.producers[p].Chosen?
       case Push(p) => p < |s.producers| && s.producers[p].Counted?
       case Flip(c) => c < |s.consumers| && s.consumers[c].Free?
       case Swap(c) => c < |s.consumers| && s.consumers[c].Flipped?
       case Pop(c) => c < |s.consumers| && s.consumers[c].Draining?
       case Finish(c) => c < |s.consumers| && s.consumers[c].Draining?
  }

  function Apply<T>(s: State<T>, a: Action<T>): State<T>
    requires Enabled(s, a)
  {
    match a
    case Choose(p, item) => s.(producers := s.producers[p := Chosen(item, s.next % 2)])
    case Count(p) =>
      var k := s.producers[p].k;
      s.(lens := s.lens[k := s.lens[k] + 1], counted := s.counted[k := s.counted[k] + 1],
         producers := s.producers[p := Counted(s.producers[p].item, k)])
    case Push(p) =>
      var k, x := s.producers[p].k, s.producers[p].item;
      s.(queues := s.queues[k := s.queues[k] + [x]], pushed := s.pushed[k := s.pushed[k] + [x]],
         producers := s.producers[p := Resting])
    case Flip(c) => s.(next := s.next + 1, consumers := s.consumers[c := Flipped(s.next % 2)])
    case Swap(c) =>
      var k := s.consumers[c].k;
      s.(lens := s.lens[k := 0], announced := s.announced[k := s.announced[k] + s.lens[k]],
         consumers := s.consumers[c := Draining(k)])
    case Pop(c) =>
      // An attempt on the empty queue delivers nothing; the iterator retries or gives up.
      var k := s.consumers[c].k;
      if s.queues[k] == [] then s
      else s.(queues := s.queues[k := s.queues[k][1..]], taken := s.taken[k := s.taken[k] + [s.queues[k][0]]])
    case Finish(c) => s.(consumers := s.consumers[c := Free])
  }

  ghost predicate IsRun<T>(ss: seq<State<T>>, acts: seq<Action<T>>) {
    && |ss| == |acts| + 1
    && forall i :: 0 <= i < |acts| ==> Enabled(ss[i], acts[i]) && ss[i + 1] == Apply(ss[i], acts[i])
  }

  ghost predicate FromStart<T>(ss: seq<State<T>>, acts: seq<Action<T>>) {
    IsRun(ss, acts) && ss[0] == Init(|ss[0].producers|, |ss[0].consumers|)
  }

  /** Counted in on side `k` but not pushed yet. */
  ghost function InFlight<T>(k: nat): Producer<T> -> nat {
    (p: Producer<T>) => if p.Counted? && p.k == k then 1 else 0
  }

  /** The books of side `k`. */
  ghost predicate SideOk<T>(s: State<T>, k: nat)
    requires Shaped(s) && k < 2
  {
    && s.pushed[k] == s.taken[k] + s.queues[k]
    && s.announced[k] + s.lens[k] == s.counted[k] == |s.pushed[k]| + Total(s.producers, InFlight(k))
  }

  ghost predicate Inv<T>(s: State<T>) {
    Shaped(s) && SideOk(s, 0) && SideOk(s, 1)
  }

  lemma StepShaped<T>(s: State<T>, a: Action<T>)
    requires Enabled(s, a)
    ensures Shaped(Apply(s, a))
  {
  }

  lemma EnqueueKeepsSide<T>(s: State<T>, a: Action<T>, k: nat)
    requires Enabled(s, a) && a.Enqueues() && k < 2 && SideOk(s, k) && Shaped(Apply(s, a))
    ensures SideOk(Apply(s, a), k)
  {
    var t := Apply(s, a);
    TotalUpdate(s.producers, InFlight(k), a.p, t.producers[a.p]);
    assert t.producers == s.producers[a.p := t.producers[a.p]];
  }

  lemma DequeueKeepsSide<T>(s: State<T>, a: Action<T>, k: nat)
    requires Enabled(s, a) && !a.Enqueues() && k < 2 && SideOk(s, k) && Shaped(Apply(s, a))
    ensures SideOk(Apply(s, a), k)
  {
  }

  lemma StepKeeps<T>(s: State<T>, a: Action<T>)
    requires Inv(s) && Enabled(s, a)
    ensures Inv(Apply(s, a))
  {
    StepShaped(s, a);
    if a.Enqueues() {
      EnqueueKeepsSide(s, a, 0);
      EnqueueKeepsSide(s, a, 1);
    } else {
      DequeueKeepsSide(s, a, 0);
      DequeueKeepsSide(s, a, 1);
    }
  }

  lemma NoneInFlight<T>(ps: seq<Producer<T>>)
    requires forall i :: 0 <= i < |ps| ==> !ps[i].Counted?
    ensures forall k :: Total(ps, InFlight(k)) == 0
  {
    forall k
      ensures Total(ps, InFlight(k)) == 0
    {
      TotalNone(ps, InFlight(k));
    }
  }

  lemma {:induction false} RunKeeps<T>(ss: seq<State<T>>, acts: seq<Action<T>>, i: nat)
    requires FromStart(ss, acts) && i <= |acts|
    ensures Inv(ss[i])
  {
    if i == 0 {
      NoneInFlight(ss[0].producers);
    } else {
      RunKeeps(ss, acts, i - 1);
      StepKeeps(ss[i - 1], acts[i - 1]);
    }
  }

  /** In every interleaving each side hands out exactly what was pushed to it, in order and
      without loss or repetition, and its announced lengths plus its live counter are the
      enqueues that counted themselves in there. */
  lemma NothingLost<T>(ss: seq<State<T>>, acts: seq<Action<T>>, i: nat)
    requires FromStart(ss, acts) && i <= |acts|
    ensures Shaped(ss[i])
    ensures forall k :: 0 <= k < 2 ==> ss[i].pushed[k] == ss[i].taken[k] + ss[i].queues[k]
    ensures forall k :: 0 <= k < 2 ==> ss[i].announced[k] + ss[i].lens[k] == ss[i].counted[k]
  {
    RunKeeps(ss, acts, i);
  }

  // ---- two full drains deliver everything -----------------------------------------------

  /** From `i` to `j` no enqueuer is in flight or starts. */
  ghost predicate Quiet<T>(ss: seq<State<T>>, acts: seq<Action<T>>, i: nat, j: nat)
    requires IsRun(ss, acts) && i <= j <= |acts|
  {
    && (forall p :: 0 <= p < |ss[i].producers| ==> ss[i].producers[p].Resting?)
    && forall m :: i <= m < j ==> !acts[m].Enqueues()
  }

  /** While quiet nothing is pushed. */
  lemma {:induction false} QuietKeeps<T>(ss: seq<State<T>>, acts: seq<Action<T>>, i: nat, j: nat)
    requires IsRun(ss, acts) && i <= j <= |acts| && Quiet(ss, acts, i, j)
    ensures ss[j].producers == ss[i].producers && ss[j].pushed == ss[i].pushed
  {
    if i < j {
      QuietKeeps(ss, acts, i, j - 1);
    }
  }

  /** So an empty side stays empty. */
  lemma {:induction false} StaysEmpty<T>(ss: seq<State<T>>, acts: seq<Action<T>>, i: nat, j: nat, k: nat)
    requires IsRun(ss, acts) && i <= j <= |acts| && Quiet(ss, acts, i, j) && k < 2
    requires Shaped(ss[i]) && ss[i].queues[k] == []
    ensures Shaped(ss[j]) && ss[j].queues[k] == []
  {
    if i < j {
      StaysEmpty(ss, acts, i, j - 1, k);
    }
  }

  /** And a counter that has been taken stays at zero. */
  lemma {:induction false} StaysZero<T>(ss: seq<State<T>>, acts: seq<Action<T>>, i: nat, j: nat, k: nat)
    requires IsRun(ss, acts) && i <= j <= |acts| && Quiet(ss, acts, i, j) && k < 2
    requires Shaped(ss[i]) && ss[i].lens[k] == 0
    ensures Shaped(ss[j]) && ss[j].lens[k] == 0
  {
    if i < j {
      StaysZero(ss, acts, i, j - 1, k);
    }
  }

  lemma QuietFrom<T>(ss: seq<State<T>>, acts: seq<Action<T>>, i: nat, m: nat, j: nat)
    requires IsRun(ss, acts) && i <= m <= j <= |acts| && Quiet(ss, acts, i, j)
    ensures Quiet(ss, acts, m, j)
  {
    QuietKeeps(ss, acts, i, m);
  }

  /** Taking side `k`'s counter at step `x` and seeing its queue empty at `d`, in a quiet
      stretch that ends at `e`. */
  lemma DrainedSide<T>(ss: seq<State<T>>, acts: seq<Action<T>>, f: nat, x: nat, d: nat, e: nat, k: nat)
    requires FromStart(ss, acts) && f <= x < d <= e <= |acts| && Quiet(ss, acts, f, e) && k < 2
    requires acts[x].Swap? && ss[x].consumers[acts[x].c].k == k
    requires Shaped(ss[d]) && ss[d].queues[k] == []
    ensures Shaped(ss[e]) && ss[e].queues[k] == [] && ss[e].lens[k] == 0
  {
    RunKeeps(ss, acts, x + 1);
    QuietFrom(ss, acts, f, d, e);
    QuietFrom(ss, acts, f, x + 1, e);
    StaysEmpty(ss, acts, d, e, k);
    StaysZero(ss, acts, x + 1, e, k);
  }

  /** Between two consecutive flips the active side does not change. */
  lemma {:induction false} NoFlip<T>(ss: seq<State<T>>, acts: seq<Action<T>>, i: nat, j: nat)
    requires IsRun(ss, acts) && i <= j <= |acts| && forall m :: i <= m < j ==> !acts[m].Flip?
    ensures ss[j].next == ss[i].next
  {
    if i < j {
      NoFlip(ss, acts, i, j - 1);
    }
  }

  /** Once no enqueuer is in flight: a flip, its counter swap and a full drain of its side,
      then the next flip, its swap and a full drain, leave both sides empty.  Every item
      ever pushed has been delivered, and the lengths announced for each side add up to the
      number delivered from it. */
  lemma TwoDrainsDeliverAll<T>(ss: seq<State<T>>, acts: seq<Action<T>>, f: nat, x: nat, d: nat, f': nat, x': nat, d': nat)
    requires FromStart(ss, acts) && f < x < d <= f' < x' < d' <= |acts|
    requires Quiet(ss, acts, f, d')
    requires acts[f].Flip? && acts[f'].Flip? && forall m :: f < m < f' ==> !acts[m].Flip?
    requires acts[x].Swap? && ss[x].consumers[acts[x].c].k == ss[f].next % 2
    requires acts[x'].Swap? && ss[x'].consumers[acts[x'].c].k == ss[f'].next % 2
    requires Shaped(ss[d]) && ss[d].queues[ss[f].next % 2] == []
    requires Shaped(ss[d']) && ss[d'].queues[ss[f'].next % 2] == []
    ensures Shaped(ss[d']) && ss[d'].pushed == ss[d'].taken
    ensures forall k :: 0 <= k < 2 ==> ss[d'].announced[k] == |ss[d'].taken[k]|
  {
    var k, k' := ss[f].next % 2, ss[f'].next % 2;
    assert ss[f + 1].next == ss[f].next + 1;
    NoFlip(ss, acts, f + 1, f');
    assert k' == 1 - k;
    DrainedSide(ss, acts, f, x, d, d', k);
    DrainedSide(ss, acts, f, x', d', d', k');
    RunKeeps(ss, acts, d');
    QuietKeeps(ss, acts, f, d');
    NoneInFlight(ss[d'].producers);
    AllTaken(ss[d']);
  }

  lemma AllTaken<T>(s: State<T>)
    requires Inv(s) && s.queues[0] == [] && s.queues[1] == [] && s.lens[0] == 0 && s.lens[1] == 0
    requires forall k :: Total(s.producers, InFlight(k)) == 0
    ensures s.pushed == s.taken && forall k :: 0 <= k < 2 ==> s.announced[k] == |s.taken[k]|
  {
    assert s.pushed[0] == s.taken[0] && s.pushed[1] == s.taken[1];
  }

  // ---- where an item goes ---------------------------------------------------------------

  /** From choosing a side to pushing there, the enqueue keeps its item and its side. */
  lemma {:induction false} ChosenSideKept<T>(ss: seq<State<T>>, acts: seq<Action<T>>, a: nat, j: nat, p: nat)
    requires IsRun(ss, acts) && a < j <= |acts| && acts[a].Choose? && acts[a].p == p
    requires forall m :: a < m < j ==> !(acts[m] == Push(p))
    ensures p < |ss[j].producers| && !ss[j].producers[p].Resting?
    ensures ss[j].producers[p].item == acts[a].item && ss[j].producers[p].k == ss[a].next % 2
  {
    if a + 1 < j {
      ChosenSideKept(ss, acts, a, j - 1, p);
    }
  }

  lemma {:induction false} PushedGrows<T>(ss: seq<State<T>>, acts: seq<Action<T>>, i: nat, j: nat, k: nat)
    requires IsRun(ss, acts) && i <= j <= |acts| && Shaped(ss[i]) && k < 2
    ensures Shaped(ss[j]) && ss[i].pushed[k] <= ss[j].pushed[k]
  {
    if i < j {
      PushedGrows(ss, acts, i, j - 1, k);
    }
  }

  /** An item lands on the side that the next flip after its producer looked at the ring
      takes, however late it is pushed; once it is pushed, whoever has drained that side has
      been given it, at its place in the order of the side. */
  lemma NextFlipDelivers<T>(ss: seq<State<T>>, acts: seq<Action<T>>, a: nat, b: nat, f: nat, d: nat, p: nat, x: T)
    requires FromStart(ss, acts) && a < b < d <= |acts| && a < f < |acts|
    requires acts[a] == Choose(p, x) && acts[b] == Push(p) && forall m :: a < m < b ==> acts[m] != Push(p)
    requires acts[f].Flip? && forall m :: a < m < f ==> !acts[m].Flip?
    ensures Shaped(ss[b]) && Shaped(ss[d]) && acts[f].c < |ss[f + 1].consumers| && ss[f + 1].consumers[acts[f].c].Flipped?
    ensures var k := ss[f + 1].consumers[acts[f].c].k;
            && k < 2
            && ss[b + 1].pushed[k] == ss[b].pushed[k] + [x]
            && (ss[d].queues[k] == [] ==> var n := |ss[b].pushed[k]|; n < |ss[d].taken[k]| && ss[d].taken[k][n] == x)
  {
    NoFlip(ss, acts, a, f);
    ChosenSideKept(ss, acts, a, b, p);
    RunKeeps(ss, acts, b + 1);
    RunKeeps(ss, acts, d);
    var k := ss[a].next % 2;
    var n := |ss[b].pushed[k]|;
    PushedGrows(ss, acts, b + 1, d, k);
    assert ss[b + 1].pushed[k][n] == x && ss[d].pushed[k][n] == x;
    assert ss[d].queues[k] == [] ==> ss[d].pushed[k] == ss[d].taken[k];
  }

  // ---- calls that nobody interrupts -----------------------------------------------------

  /** The part of a state that the ring with atomic calls has. */
  ghost function RingOf<T>(s: State<T>): Calls.Ring<T> { Calls.Ring(s.next, s.lens, s.queues) }

  lemma EnqueueAlone<T>(s: State<T>, p: nat, x: T)
    requires Enabled(s, Choose(p, x))
    ensures var s1 := Apply(s, Choose(p, x));
            Enabled(s1, Count(p)) &&
            var s2 := Apply(s1, Count(p));
            Enabled(s2, Push(p)) &&
            Calls.Shaped(RingOf(s)) && RingOf(Apply(s2, Push(p))) == Calls.RingEnqueue(RingOf(s), x)
  {
  }

  /** A dequeue that nobody interrupts announces what the call announces, and its iterator
      is on the same side. */
  lemma DequeueAlone<T>(s: State<T>, c: nat)
    requires Enabled(s, Flip(c))
    ensures var s1 := Apply(s, Flip(c));
            Enabled(s1, Swap(c)) && Calls.Shaped(RingOf(s)) &&
            var t, (r, k, n) := Apply(s1, Swap(c)), Calls.RingDequeue(RingOf(s));
            && RingOf(t) == r && t.consumers[c] == Draining(k)
            && k < 2 && t.announced[k] == s.announced[k] + n
  {
  }

  lemma PopAlone<T>(s: State<T>, c: nat)
    requires Enabled(s, Pop(c))
    ensures Calls.Shaped(RingOf(s)) && s.consumers[c].k < 2
    ensures var t, k, (r, x) := Apply(s, Pop(c)), s.consumers[c].k, Calls.RingNext(RingOf(s), s.consumers[c].k);
            RingOf(t) == r && t.taken[k] == s.taken[k] + (if x.Some? then [x.value] else [])
  {
  }
}
