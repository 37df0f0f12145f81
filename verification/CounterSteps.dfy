/**
 The counter of the counted queue under concurrent use: the increment, the decrement, the
 test and the reset are separate accesses, so a reset can be decided long before it lands.
 */
module CounterSteps {
  import opened Bytes
  import opened CountedQueue
  import opened Sums

  /** Where a thread is between its accesses. */
  datatype Phase =
    | Idle
    | Pushed       // about to increment
    | ResetThenPop // saw the counter below the baseline, about to store it
    | Popping
    | LenReset     // `len` saw the counter below the baseline

  /** The queue's content only matters here by its length. */
  datatype State = State(counter: nat, length: nat, threads: seq<Phase>)

  datatype Action = Push(t: nat) | Add(t: nat) | Sub(t: nat) | Store(t: nat) | Pop(t: nat) | LoadLen(t: nat)

  predicate Enabled(s: State, a: Action) {
    && a.t < |s.threads|
    && match a
       case Push(t) => s.threads[t].Idle?
       case Add(t) => s.threads[t].Pushed?
       case Sub(t) => s.threads[t].Idle?
       case Store(t) => s.threads[t].ResetThenPop? || s.threads[t].LenReset?
       case Pop(t) => s.threads[t].Popping?
       case LoadLen(t) => s.threads[t].Idle?
  }

  function Apply(s: State, a: Action): State
    requires Enabled(s, a)
  {
    match a
    case Push(t) => s.(length := s.length + 1, threads := s.threads[t := Pushed])
    case Add(t) => s.(counter := Up(s.counter), threads := s.threads[t := Idle])
    case Sub(t) =>
      s.(counter := Down(s.counter),
         threads := s.threads[t := if s.counter < BASELINE then ResetThenPop else Popping])
    case Store(t) =>
      s.(counter := BASELINE, threads := s.threads[t := if s.threads[t].LenReset? then Idle else Popping])
    case Pop(t) => s.(length := if s.length == 0 then 0 else s.length - 1, threads := s.threads[t := Idle])
    case LoadLen(t) => s.(threads := s.threads[t := if s.counter < BASELINE then LenReset else Idle])
  }

  function Init(n: nat): State { State(BASELINE, 0, seq(n, _ => Idle)) }

  ghost predicate IsRun(ss: seq<State>, acts: seq<Action>) {
    && |ss| == |acts| + 1
    && forall i :: 0 <= i < |acts| ==> Enabled(ss[i], acts[i]) && ss[i + 1] == Apply(ss[i], acts[i])
  }

  // ---- calls that nobody interrupts -----------------------------------------------------

  /** The counter and length of a state are those of the counted queue `q`. */
  ghost predicate Matches<T>(s: State, q: Counted<T>) { s.counter == q.counter && s.length == |q.items| }

  /** Taken without interruption, the accesses of a call are the call of the counted queue. */
  lemma CallsAlone<T>(s: State, t: nat, q: Counted<T>, x: T)
    requires t < |s.threads| && s.threads[t].Idle? && Matches(s, q)
    ensures Enabled(s, Push(t)) && Enabled(Apply(s, Push(t)), Add(t))
    ensures Matches(Apply(Apply(s, Push(t)), Add(t)), Step(q, Enqueue(x)))
    ensures var s1 := Apply(s, Sub(t));
            var s2 := if s.counter < BASELINE then Apply(s1, Store(t)) else s1;
            Enabled(s2, Pop(t)) && Matches(Apply(s2, Pop(t)), Step(q, Dequeue))
    ensures var s1 := Apply(s, LoadLen(t));
            var s2 := if s.counter < BASELINE then Apply(s1, Store(t)) else s1;
            s2.threads[t].Idle? && Matches(s2, Step(q, Len))
  {
  }

  function Resetting(p: Phase): nat { if p.ResetThenPop? || p.LenReset? then 1 else 0 }

  /** Resets decided but not yet stored. */
  ghost function Pending(threads: seq<Phase>): nat { Total(threads, Resetting) }

  /** After `steps` steps: one below the baseline, one more for each reset that has been
      decided but not stored, and never lower. */
  ghost predicate Bounded(s: State, steps: nat) {
    BASELINE - 1 - Pending(s.threads) <= s.counter <= BASELINE + steps
  }

  lemma StepBounded(s: State, a: Action, steps: nat)
    requires Bounded(s, steps) && Enabled(s, a)
    requires Pending(s.threads) < BASELINE - 1 && BASELINE + steps + 1 < SIZE64
    ensures Bounded(Apply(s, a), steps + 1)
    ensures a.Sub? ==> s.counter > 0
  {
    TotalUpdate(s.threads, Resetting, a.t, Apply(s, a).threads[a.t]);
    assert Apply(s, a).threads == s.threads[a.t := Apply(s, a).threads[a.t]];
  }

  /** In every interleaving with fewer than 999,999 resets outstanding at any time, the
      counter is at least the baseline less one less the outstanding resets, and so no
      decrement ever finds it at zero. */
  lemma {:induction false} NeverWraps(ss: seq<State>, acts: seq<Action>, i: nat)
    requires IsRun(ss, acts) && ss[0] == Init(|ss[0].threads|) && i <= |acts|
    requires BASELINE + |acts| < SIZE64
    requires forall j :: 0 <= j < i ==> Pending(ss[j].threads) < 999_999
    ensures Bounded(ss[i], i) && ss[i].counter + Pending(ss[i].threads) >= 999_999
    ensures forall j :: 0 <= j < i && acts[j].Sub? ==> ss[j].counter > 0
  {
    if i == 0 {
      TotalNone(ss[0].threads, Resetting);
    } else {
      NeverWraps(ss, acts, i - 1);
      StepBounded(ss[i - 1], acts[i - 1], i - 1);
    }
  }

  /** Runs in which the counter cannot wrap: never 999,999 resets outstanding. */
  ghost predicate Tame(ss: seq<State>, acts: seq<Action>) {
    && IsRun(ss, acts) && ss[0] == Init(|ss[0].threads|)
    && BASELINE + |acts| < SIZE64
    && forall j :: 0 <= j < |acts| ==> Pending(ss[j].threads) < BASELINE - 1
  }

  lemma FewThreadsTame(ss: seq<State>, acts: seq<Action>)
    requires IsRun(ss, acts) && ss[0] == Init(|ss[0].threads|)
    requires BASELINE + |acts| < SIZE64 && |ss[0].threads| < BASELINE - 1
    ensures Tame(ss, acts)
  {
    forall j | 0 <= j < |acts|
      ensures Pending(ss[j].threads) < BASELINE - 1
    {
      ThreadsStay(ss, acts, j);
      TotalOfOnes(ss[j].threads, Resetting);
    }
  }

  /** In particular fewer than 999,999 threads can never wrap it. */
  lemma FewThreadsNeverWrap(ss: seq<State>, acts: seq<Action>, i: nat)
    requires IsRun(ss, acts) && ss[0] == Init(|ss[0].threads|) && i <= |acts|
    requires BASELINE + |acts| < SIZE64 && |ss[0].threads| < 999_999
    ensures Bounded(ss[i], i)
    ensures forall j :: 0 <= j < i && acts[j].Sub? ==> ss[j].counter > 0
  {
    FewThreadsTame(ss, acts);
    NeverWraps(ss, acts, i);
  }

  lemma {:induction false} ThreadsStay(ss: seq<State>, acts: seq<Action>, i: nat)
    requires IsRun(ss, acts) && i <= |acts|
    ensures |ss[i].threads| == |ss[0].threads|
  {
    if i > 0 {
      ThreadsStay(ss, acts, i - 1);
    }
  }

  // ---- the bound is sharp ---------------------------------------------------------------

  lemma Extend(ss: seq<State>, acts: seq<Action>, a: Action) returns (ss': seq<State>, acts': seq<Action>)
    requires IsRun(ss, acts) && Enabled(ss[|acts|], a)
    ensures IsRun(ss', acts') && |acts'| == |acts| + 1 && ss'[0] == ss[0]
    ensures ss'[|acts'|] == Apply(ss[|acts|], a)
  {
    ss', acts' := ss + [Apply(ss[|acts|], a)], acts + [a];
  }

  /** `n + 1` threads all inside `dequeue`: the first decremented from the baseline, the
      others have decided on a reset. */
  ghost function Stalled(n: nat): seq<Phase> {
    [Popping] + seq(n, _ => ResetThenPop)
  }

  lemma StalledPending(n: nat)
    ensures Pending(Stalled(n)) == n
  {
    var rest := seq(n, _ => ResetThenPop);
    assert Stalled(n)[1..] == rest;
    TotalOfOnes(rest, Resetting);
  }

  /** `spare` threads have not started yet. */
  lemma {:induction false} StallRun(n: nat, spare: nat) returns (ss: seq<State>, acts: seq<Action>)
    requires n < BASELINE
    ensures IsRun(ss, acts) && ss[0] == Init(n + 1 + spare)
    ensures ss[|acts|] == State(BASELINE - 1 - n, 0, Stalled(n) + seq(spare, _ => Idle))
    decreases n
  {
    if n == 0 {
      ss, acts := [Init(1 + spare)], [];
      ss, acts := Extend(ss, acts, Sub(0));
      assert ss[|acts|].threads == Stalled(0) + seq(spare, _ => Idle);
    } else {
      ss, acts := StallRun(n - 1, spare + 1);
      ss, acts := Extend(ss, acts, Sub(n));
      assert ss[|acts|].threads == Stalled(n) + seq(spare, _ => Idle);
    }
  }

  /** For every number of outstanding resets below the baseline the bound is attained. */
  lemma BoundAttained(n: nat) returns (ss: seq<State>, acts: seq<Action>)
    requires n < BASELINE
    ensures IsRun(ss, acts) && ss[0] == Init(n + 1)
    ensures Pending(ss[|acts|].threads) == n && ss[|acts|].counter == BASELINE - 1 - n
  {
    ss, acts := StallRun(n, 0);
    assert Stalled(n) + seq(0, _ => Idle) == Stalled(n);
    StalledPending(n);
  }

  /** And one thread more than that does wrap the counter. */
  lemma MillionthResetWraps() returns (ss: seq<State>, acts: seq<Action>)
    ensures IsRun(ss, acts) && ss[0] == Init(BASELINE + 1)
    ensures ss[|acts|].counter == SIZE64 - 1
  {
    ss, acts := StallRun(BASELINE - 1, 1);
    ss, acts := Extend(ss, acts, Sub(BASELINE));
  }

  // ---- what the count is worth ----------------------------------------------------------

  /** A thread between its queue operation and its counter operation. */
  function Midway(p: Phase): nat { if p.Pushed? || p.ResetThenPop? || p.Popping? then 1 else 0 }

  /** Operations that have reached only one of the queue and the counter. */
  ghost function Halfway(s: State): nat { Total(s.threads, Midway) }

  ghost predicate Quiet(s: State) { forall t :: 0 <= t < |s.threads| ==> s.threads[t].Idle? }

  /** Pops of the empty queue in the first `i` steps: each has decremented for nothing. */
  ghost function Missed(ss: seq<State>, acts: seq<Action>, i: nat): nat
    requires IsRun(ss, acts) && i <= |acts|
  {
    if i == 0 then 0
    else Missed(ss, acts, i - 1) + if acts[i - 1].Pop? && ss[i - 1].length == 0 then 1 else 0
  }

  /** What the resets stored in the first `i` steps took off the counter; less than nothing
      for those that raised it. */
  ghost function Overwritten(ss: seq<State>, acts: seq<Action>, i: nat): int
    requires IsRun(ss, acts) && i <= |acts|
  {
    if i == 0 then 0
    else Overwritten(ss, acts, i - 1) + if acts[i - 1].Store? then ss[i - 1].counter - BASELINE else 0
  }

  /** How far the counter is above the queue, operations halfway through allowed for. */
  ghost function Excess(s: State): int { s.counter + Halfway(s) - BASELINE - s.length }

  lemma ExcessStep(s: State, a: Action)
    requires Enabled(s, a) && s.counter + 1 < SIZE64 && (a.Sub? ==> s.counter > 0)
    ensures Excess(Apply(s, a)) == Excess(s) - (if a.Pop? && s.length == 0 then 1 else 0)
                                             - (if a.Store? then s.counter - BASELINE else 0)
    ensures Excess(Apply(s, a)) <= Excess(s) || Excess(Apply(s, a)) <= |s.threads|
  {
    TotalUpdate(s.threads, Midway, a.t, Apply(s, a).threads[a.t]);
    assert Apply(s, a).threads == s.threads[a.t := Apply(s, a).threads[a.t]];
    TotalOfOnes(Apply(s, a).threads, Midway);
  }

  /** In every interleaving the counter and the queue differ by exactly the operations
      halfway through, the pops that missed and what resets overwrote. */
  lemma {:induction false} CountAccounting(ss: seq<State>, acts: seq<Action>, i: nat)
    requires Tame(ss, acts) && i <= |acts|
    ensures ss[i].counter + Halfway(ss[i]) + Missed(ss, acts, i) + Overwritten(ss, acts, i)
            == BASELINE + ss[i].length
    ensures Excess(ss[i]) <= |ss[i].threads|
  {
    if i == 0 {
      TotalNone(ss[0].threads, Midway);
    } else {
      CountAccounting(ss, acts, i - 1);
      NeverWraps(ss, acts, i);
      NeverWraps(ss, acts, i - 1);
      ExcessStep(ss[i - 1], acts[i - 1]);
    }
  }

  /** With no operation in flight the counter is off by exactly the missed pops and the
      overwritten counts; it is exact if and only if they cancel.  What `len` reports can
      also be exact when they leave the counter one below the baseline, where it reports
      zero. */
  lemma QuietCountIff(ss: seq<State>, acts: seq<Action>, i: nat)
    requires Tame(ss, acts) && i <= |acts| && Quiet(ss[i])
    ensures var s, off := ss[i], Missed(ss, acts, i) + Overwritten(ss, acts, i);
            && s.counter - BASELINE == s.length - off
            && (Reported(s.counter) == s.length <==> off == if s.counter < BASELINE then 1 else 0)
  {
    CountAccounting(ss, acts, i);
    TotalNone(ss[i].threads, Midway);
    NeverWraps(ss, acts, i);
    TotalNone(ss[i].threads, Resetting);
  }

  /** With no operation in flight `len` never reports more than the size plus the number of
      threads. */
  lemma QuietOvercount(ss: seq<State>, acts: seq<Action>, i: nat)
    requires Tame(ss, acts) && i <= |acts| && Quiet(ss[i])
    ensures Reported(ss[i].counter) <= ss[i].length + |ss[i].threads|
  {
    CountAccounting(ss, acts, i);
    TotalNone(ss[i].threads, Midway);
  }

  // ---- it can overcount by the number of threads ----------------------------------------

  /** Thread 0 dequeues; the next `k` threads have pushed and not counted; the others have
      not started. */
  ghost function Uncounted(me: Phase, k: nat, spare: nat): seq<Phase> {
    [me] + seq(k, _ => Pushed) + seq(spare, _ => Idle)
  }

  /** Thread 0 dequeues with the counter at the baseline, then one below it. */
  lemma DequeueRun(ss: seq<State>, acts: seq<Action>) returns (ss': seq<State>, acts': seq<Action>)
    requires IsRun(ss, acts)
    requires var s := ss[|acts|];
             |s.threads| > 0 && s.threads[0].Idle? && BASELINE - 1 <= s.counter <= BASELINE
    ensures IsRun(ss', acts') && ss'[0] == ss[0] && |acts'| <= |acts| + 3
    ensures var s := ss[|acts|];
            ss'[|acts'|] == State(if s.counter == BASELINE then BASELINE - 1 else BASELINE,
                                  if s.length == 0 then 0 else s.length - 1, s.threads)
  {
    var s := ss[|acts|];
    ss', acts' := Extend(ss, acts, Sub(0));
    if s.counter < BASELINE {
      ss', acts' := Extend(ss', acts', Store(0));
    }
    ss', acts' := Extend(ss', acts', Pop(0));
    assert ss'[|acts'|].threads == s.threads;
  }

  /** Each push is taken off again before it is counted. */
  lemma {:induction false} TakenRun(k: nat, spare: nat) returns (ss: seq<State>, acts: seq<Action>)
    ensures IsRun(ss, acts) && ss[0] == Init(1 + k + spare) && |acts| <= 4 * k
    ensures ss[|acts|] == State(BASELINE - k % 2, 0, Uncounted(Idle, k, spare))
    decreases k
  {
    if k == 0 {
      ss, acts := [Init(1 + spare)], [];
      assert ss[0].threads == Uncounted(Idle, 0, spare);
    } else {
      ss, acts := TakenRun(k - 1, spare + 1);
      ss, acts := Extend(ss, acts, Push(k));
      assert ss[|acts|].threads == Uncounted(Idle, k, spare);
      ss, acts := DequeueRun(ss, acts);
      assert (k - 1) % 2 == 1 - k % 2;
    }
  }

  /** The pushes are counted, one after the other. */
  lemma {:induction false} CountedRun(ss: seq<State>, acts: seq<Action>, k: nat, spare: nat)
    returns (ss': seq<State>, acts': seq<Action>)
    requires IsRun(ss, acts) && ss[|acts|].threads == Uncounted(Popping, k, spare)
    requires ss[|acts|].counter + k < SIZE64
    ensures IsRun(ss', acts') && ss'[0] == ss[0] && |acts'| == |acts| + k
    ensures ss'[|acts'|] == State(ss[|acts|].counter + k, ss[|acts|].length, Uncounted(Popping, 0, k + spare))
    decreases k
  {
    ss', acts' := ss, acts;
    if k > 0 {
      ss', acts' := Extend(ss', acts', Add(k));
      assert ss'[|acts'|].threads == Uncounted(Popping, k - 1, spare + 1);
      ss', acts' := CountedRun(ss', acts', k - 1, spare + 1);
    }
  }

  /** All pushes taken off uncounted, and a reset stored just before a last pop. */
  lemma ResetRun(k: nat) returns (ss: seq<State>, acts: seq<Action>)
    ensures IsRun(ss, acts) && ss[0] == Init(1 + k) && |acts| <= 4 * k + 5
    ensures ss[|acts|] == State(BASELINE, 0, Uncounted(Popping, k, 0))
  {
    ss, acts := TakenRun(k, 0);
    if k % 2 == 0 {
      ss, acts := DequeueRun(ss, acts);
    }
    ss, acts := Extend(ss, acts, Sub(0));
    ss, acts := Extend(ss, acts, Store(0));
    assert ss[|acts|].threads == Uncounted(Popping, k, 0);
  }

  lemma OvercountRun(n: nat) returns (ss: seq<State>, acts: seq<Action>)
    requires 2 <= n && BASELINE + n < SIZE64
    ensures IsRun(ss, acts) && ss[0] == Init(n) && |acts| <= 5 * n + 4
    ensures ss[|acts|] == State(BASELINE + n, 0, Uncounted(Idle, 0, n - 1))
  {
    ss, acts := ResetRun(n - 1);
    ss, acts := CountedRun(ss, acts, n - 1, 0);
    ss, acts := Extend(ss, acts, Push(1));
    ss, acts := Extend(ss, acts, Add(1));
    assert ss[|acts|].threads == Uncounted(Popping, 0, n - 1);
    ss, acts := Extend(ss, acts, Pop(0));
    assert ss[|acts|].threads == Uncounted(Idle, 0, n - 1);
  }

  /** For every number of threads from two on, the counter can end that much above an empty
      queue, with nothing in flight. */
  lemma OvercountAttained(n: nat) returns (ss: seq<State>, acts: seq<Action>)
    requires 2 <= n && BASELINE + n < SIZE64
    ensures IsRun(ss, acts) && ss[0] == Init(n)
    ensures n < BASELINE - 1 ==> Tame(ss, acts)
    ensures Quiet(ss[|acts|]) && ss[|acts|].length == 0 && Reported(ss[|acts|].counter) == n
  {
    ss, acts := OvercountRun(n);
    if n < BASELINE - 1 {
      FewThreadsTame(ss, acts);
    }
  }

  // ---- a late reset loses counts --------------------------------------------------------

  /** Thread 1 is inside `len`, about to reset; thread 0 enqueues `m` times. */
  lemma {:induction false} EnqueueRun(m: nat) returns (ss: seq<State>, acts: seq<Action>)
    requires BASELINE + m < SIZE64
    ensures IsRun(ss, acts) && ss[0] == Init(2) && |acts| == 3 + 2 * m
    ensures ss[|acts|] == State(BASELINE - 1 + m, m, [Idle, LenReset])
    decreases m
  {
    if m == 0 {
      ss, acts := [Init(2)], [];
      ss, acts := Extend(ss, acts, Sub(0));
      ss, acts := Extend(ss, acts, Pop(0));
      ss, acts := Extend(ss, acts, LoadLen(1));
      assert ss[|acts|].threads == [Idle, LenReset];
    } else {
      ss, acts := EnqueueRun(m - 1);
      ss, acts := Extend(ss, acts, Push(0));
      ss, acts := Extend(ss, acts, Add(0));
      assert ss[|acts|].threads == [Idle, LenReset];
    }
  }

  /** Concurrently the count is not merely a little inaccurate: with two threads any number
      of queued items can go uncounted, with no operation left in flight. */
  lemma CountCanMissAll(m: nat) returns (ss: seq<State>, acts: seq<Action>)
    requires BASELINE + m < SIZE64
    ensures IsRun(ss, acts) && ss[0] == Init(2)
    ensures ss[|acts|] == State(BASELINE, m, [Idle, Idle])
    ensures BASELINE + 4 + 2 * m < SIZE64 ==> Tame(ss, acts)
  {
    ss, acts := EnqueueRun(m);
    ss, acts := Extend(ss, acts, Store(1));
    assert ss[|acts|].threads == [Idle, Idle];
    if BASELINE + 4 + 2 * m < SIZE64 {
      FewThreadsTame(ss, acts);
    }
  }
}
