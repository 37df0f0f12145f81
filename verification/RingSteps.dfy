/**
 The broadcast ring of src/buffer.rs one atomic access at a time.

 A producer loads the write cursor, tries to advance it by compare-exchange, and only then
 writes its slot; a consumer loads the write cursor and later reads a slot.  Any number of
 threads interleave.  Atomics are sequentially consistent and the cursor does not wrap.
 */
module RingSteps {
  import opened Options

  /** `owner` is instrumentation: the sequence number the slot was written for. */
  datatype Slot<+T> = Uninit | Written(item: T, owner: nat)

  /** A sequence number belongs to one call of one producer. */
  datatype Claim<+T> = Claim(producer: nat, call: nat, item: T)

  /** `try` tells `try_push` from `push`. */
  datatype Phase<+T> =
    | Idle
    | Loading(item: T, try: bool)
    | Loaded(item: T, try: bool, current: nat)
    | Claimed(item: T, seqno: nat)

  /** `call` counts the calls this producer has made. */
  datatype Producer<+T> = Producer(phase: Phase<T>, call: nat)

  datatype Consumer = Unborn | Resting(cursor: nat) | Polled(cursor: nat, writePos: nat)

  /** `claims`, `writes` and `outcomes` are history: who owns each sequence number, the
      sequence numbers in the order their slots were written, and what calls returned. */
  datatype State<+T> = State(
    cursor: nat,
    slots: seq<Slot<T>>,
    producers: seq<Producer<T>>,
    consumers: seq<Consumer>,
    claims: seq<Claim<T>>,
    writes: seq<nat>,
    outcomes: seq<Outcome>)

  datatype Outcome = Outcome(producer: nat, call: nat, result: Option<nat>)

  datatype Action<+T> =
    | Call(p: nat, item: T, try: bool)
    | Load(p: nat)
    | Exchange(p: nat, spurious: bool)
    | WriteSlot(p: nat)
    | Subscribe(k: nat)
    | Poll(k: nat)
    | Take(k: nat)

  ghost function Init<T>(size: nat, nProducers: nat, nConsumers: nat): State<T> {
    State(0, seq(size, _ => Uninit), seq(nProducers, _ => Producer(Idle, 0)),
          seq(nConsumers, _ => Unborn), [], [], [])
  }

  ghost predicate Enabled<T>(s: State<T>, a: Action<T>) {
    && |s.slots| >= 1
    && match a
       case Call(p, _, _) => p < |s.producers| && s.producers[p].phase.Idle?
       case Load(p) => p < |s.producers| && s.producers[p].phase.Loading?
       case Exchange(p, spurious) =>
         // Only the weak compare-exchange of `push` may fail without cause.
         p < |s.producers| && s.producers[p].phase.Loaded? && (spurious ==> !s.producers[p].phase.try)
       case WriteSlot(p) => p < |s.producers| && s.producers[p].phase.Claimed?
       case Subscribe(k) => k < |s.consumers| && s.consumers[k].Unborn?
       case Poll(k) => k < |s.consumers| && s.consumers[k].Resting?
       case Take(k) => k < |s.consumers| && s.consumers[k].Polled?
  }

  ghost function SetPhase<T>(s: State<T>, p: nat, phase: Phase<T>): State<T>
    requires p < |s.producers|
  {
    s.(producers := s.producers[p := s.producers[p].(phase := phase)])
  }

  ghost function ExchangeStep<T>(s: State<T>, p: nat, spurious: bool): State<T>
    requires p < |s.producers| && s.producers[p].phase.Loaded?
  {
    var me := s.producers[p];
    var Loaded(item, try, current) := me.phase;
    if s.cursor == current && !spurious then
      SetPhase(s, p, Claimed(item, current)).(cursor := current + 1,
                                              claims := s.claims + [Claim(p, me.call, item)])
    else if try then
      SetPhase(s, p, Idle).(outcomes := s.outcomes + [Outcome(p, me.call, None)])
    else
      SetPhase(s, p, Loading(item, try))
  }

  ghost function WriteStep<T>(s: State<T>, p: nat): State<T>
    requires |s.slots| >= 1 && p < |s.producers| && s.producers[p].phase.Claimed?
  {
    var me := s.producers[p];
    var Claimed(item, seqno) := me.phase;
    SetPhase(s, p, Idle).(slots := s.slots[seqno % |s.slots| := Written(item, seqno)],
                          writes := s.writes + [seqno],
                          outcomes := s.outcomes + [Outcome(p, me.call, Some(seqno))])
  }

  /** The position a consumer reads after loading the write cursor, if there is news. */
  ghost function Target(cursor: nat, writePos: nat, size: nat): Option<nat> {
    if cursor >= writePos then None
    else if writePos - cursor > size then Some(writePos - size)
    else Some(cursor)
  }

  /** What `Take` hands to the caller. */
  ghost function Taken<T>(s: State<T>, k: nat): Option<Slot<T>>
    requires Enabled(s, Take(k))
  {
    match Target(s.consumers[k].cursor, s.consumers[k].writePos, |s.slots|)
    case None => None
    case Some(t) => Some(s.slots[t % |s.slots|])
  }

  ghost function Apply<T>(s: State<T>, a: Action<T>): State<T>
    requires Enabled(s, a)
  {
    match a
    case Call(p, item, try) =>
      s.(producers := s.producers[p := Producer(Loading(item, try), s.producers[p].call + 1)])
    case Load(p) =>
      var phase := s.producers[p].phase;
      SetPhase(s, p, Loaded(phase.item, phase.try, s.cursor))
    case Exchange(p, spurious) => ExchangeStep(s, p, spurious)
    case WriteSlot(p) => WriteStep(s, p)
    case Subscribe(k) => s.(consumers := s.consumers[k := Resting(s.cursor)])
    case Poll(k) => s.(consumers := s.consumers[k := Polled(s.consumers[k].cursor, s.cursor)])
    case Take(k) =>
      var c := s.consumers[k];
      s.(consumers := s.consumers[k := Resting(match Target(c.cursor, c.writePos, |s.slots|)
                                               case None => c.cursor
                                               case Some(t) => t + 1)])
  }

  ghost predicate IsRun<T>(ss: seq<State<T>>, acts: seq<Action<T>>) {
    && |ss| == |acts| + 1
    && forall i :: 0 <= i < |acts| ==> Enabled(ss[i], acts[i]) && ss[i + 1] == Apply(ss[i], acts[i])
  }

  /** A run from the start, over a ring of `size` slots. */
  ghost predicate FromStart<T>(ss: seq<State<T>>, acts: seq<Action<T>>, size: nat) {
    && size >= 1
    && IsRun(ss, acts)
    && ss[0] == Init(size, |ss[0].producers|, |ss[0].consumers|)
  }

  // ---- who owns which sequence number ---------------------------------------------------

  ghost predicate ProducerOk<T>(s: State<T>, p: nat)
    requires p < |s.producers|
  {
    var me := s.producers[p];
    && (me.phase.Loading? || me.phase.Loaded? ==> me.call >= 1 && !Owns(s, p, me.call))
    && (me.phase.Loaded? ==> me.phase.current <= s.cursor)
    && (me.phase.Claimed? ==>
          && me.phase.seqno < |s.claims|
          && s.claims[me.phase.seqno] == Claim(p, me.call, me.phase.item)
          && me.phase.seqno !in s.writes)
  }

  ghost predicate Owns<T>(s: State<T>, p: nat, call: nat) {
    exists i :: 0 <= i < |s.claims| && s.claims[i].producer == p && s.claims[i].call == call
  }

  ghost predicate ClaimsOk<T>(s: State<T>) {
    && s.cursor == |s.claims|
    && (forall i :: 0 <= i < |s.claims| ==>
          s.claims[i].producer < |s.producers| && s.claims[i].call <= s.producers[s.claims[i].producer].call)
    && (forall i, j :: 0 <= i < j < |s.claims| ==>
          s.claims[i].producer != s.claims[j].producer || s.claims[i].call != s.claims[j].call)
  }

  /** A sequence number is in flight from its claim until its slot has been written. */
  ghost predicate InFlight<T>(s: State<T>, seqno: nat) {
    seqno < |s.claims| && seqno !in s.writes
  }

  ghost predicate WritesOk<T>(s: State<T>) {
    && (forall i :: 0 <= i < |s.writes| ==> s.writes[i] < |s.claims|)
    && (forall i, j :: 0 <= i < j < |s.writes| ==> s.writes[i] != s.writes[j])
    && (forall n: nat :: InFlight(s, n) ==> HeldByOwner(s, n))
  }

  /** The producer that claimed `n` is about to write it. */
  ghost predicate HeldByOwner<T>(s: State<T>, n: nat)
    requires n < |s.claims|
  {
    var p := s.claims[n].producer;
    p < |s.producers| && s.producers[p].phase.Claimed? && s.producers[p].phase.seqno == n
  }

  ghost predicate OutcomesOk<T>(s: State<T>) {
    forall i :: 0 <= i < |s.outcomes| ==>
      var r := s.outcomes[i];
      && r.producer < |s.producers|
      && r.call <= s.producers[r.producer].call
      && match r.result
         case Some(n) =>
           n in s.writes && n < |s.claims| && s.claims[n].producer == r.producer && s.claims[n].call == r.call
         case None => !Owns(s, r.producer, r.call)
                      && (s.producers[r.producer].call == r.call ==> s.producers[r.producer].phase.Idle?)
  }

  // ---- what the slots hold --------------------------------------------------------------

  /** The last of `writes` to land in slot `i`. */
  ghost function LastInto(writes: seq<nat>, i: nat, size: nat): Option<nat>
    requires size >= 1
  {
    if writes == [] then None
    else if writes[|writes| - 1] % size == i then Some(writes[|writes| - 1])
    else LastInto(writes[..|writes| - 1], i, size)
  }

  ghost predicate SlotsOk<T>(s: State<T>) {
    && |s.slots| >= 1
    && forall i :: 0 <= i < |s.slots| ==>
         match LastInto(s.writes, i, |s.slots|)
         case None => s.slots[i] == Uninit
         case Some(n) => n < |s.claims| && s.slots[i] == Written(s.claims[n].item, n)
  }

  ghost predicate Inv<T>(s: State<T>) {
    && ClaimsOk(s)
    && (forall p :: 0 <= p < |s.producers| ==> ProducerOk(s, p))
    && WritesOk(s)
    && OutcomesOk(s)
    && SlotsOk(s)
  }
}
