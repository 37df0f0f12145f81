/** What survives of the ring's promises under any interleaving of single accesses. */
module RingStepSafety {
  import opened Options
  import opened RingIndex
  import opened RingSteps
  import opened Remainders

  // ---- every step keeps the invariant ---------------------------------------------------

  /** A producer that has nothing in flight may change phase, or make a claim. */
  lemma FlightKept<T>(s: State<T>, t: State<T>, p: nat)
    requires WritesOk(s) && t.writes == s.writes && s.claims <= t.claims
    requires p < |s.producers| == |t.producers| && !s.producers[p].phase.Claimed?
    requires forall q :: 0 <= q < |s.producers| && q != p ==> t.producers[q] == s.producers[q]
    requires forall n :: |s.claims| <= n < |t.claims| ==> HeldByOwner(t, n)
    ensures WritesOk(t)
  {
    forall n: nat | InFlight(t, n)
      ensures HeldByOwner(t, n)
    {
      if n < |s.claims| {
        assert InFlight(s, n) && HeldByOwner(s, n);
      }
    }
  }

  lemma ClaimKeeps<T>(s: State<T>, p: nat)
    requires Inv(s) && Enabled(s, Exchange(p, false)) && s.producers[p].phase.current == s.cursor
    ensures Inv(ExchangeStep(s, p, false))
  {
    var t := ExchangeStep(s, p, false);
    assert ProducerOk(s, p);
    FlightKept(s, t, p);
    forall q: nat | q < |t.producers|
      ensures ProducerOk(t, q)
    {
      assert ProducerOk(s, q);
    }
  }

  lemma MissKeeps<T>(s: State<T>, p: nat, spurious: bool)
    requires Inv(s) && Enabled(s, Exchange(p, spurious))
    requires spurious || s.producers[p].phase.current != s.cursor
    ensures Inv(ExchangeStep(s, p, spurious))
  {
    var t := ExchangeStep(s, p, spurious);
    assert ProducerOk(s, p);
    FlightKept(s, t, p);
    forall q: nat | q < |t.producers|
      ensures ProducerOk(t, q)
    {
      assert ProducerOk(s, q);
    }
  }

  lemma WriteKeepsSlots<T>(s: State<T>, p: nat)
    requires Inv(s) && Enabled(s, WriteSlot(p))
    ensures SlotsOk(WriteStep(s, p))
  {
    var t := WriteStep(s, p);
    assert ProducerOk(s, p);
    assert t.writes[..|s.writes|] == s.writes;
  }

  lemma WriteKeeps<T>(s: State<T>, p: nat)
    requires Inv(s) && Enabled(s, WriteSlot(p))
    ensures Inv(WriteStep(s, p))
  {
    var t := WriteStep(s, p);
    var seqno := s.producers[p].phase.seqno;
    assert ProducerOk(s, p);
    forall n: nat | InFlight(t, n)
      ensures HeldByOwner(t, n)
    {
      assert InFlight(s, n) && n != seqno;
      assert HeldByOwner(s, n);
    }
    WriteKeepsSlots(s, p);
    forall q: nat | q < |t.producers|
      ensures ProducerOk(t, q)
    {
      assert ProducerOk(s, q);
    }
  }

  lemma CallKeeps<T>(s: State<T>, p: nat, item: T, try: bool)
    requires Inv(s) && Enabled(s, Call(p, item, try))
    ensures Inv(Apply(s, Call(p, item, try)))
  {
    var t := Apply(s, Call(p, item, try));
    FlightKept(s, t, p);
    forall q: nat | q < |t.producers|
      ensures ProducerOk(t, q)
    {
      assert ProducerOk(s, q);
    }
  }

  lemma LoadKeeps<T>(s: State<T>, p: nat)
    requires Inv(s) && Enabled(s, Load(p))
    ensures Inv(Apply(s, Load(p)))
  {
    var t := Apply(s, Load(p));
    FlightKept(s, t, p);
    forall q: nat | q < |t.producers|
      ensures ProducerOk(t, q)
    {
      assert ProducerOk(s, q);
    }
  }

  /** Consumers change nothing but themselves. */
  lemma ConsumersKeep<T>(s: State<T>, t: State<T>)
    requires Inv(s) && t == s.(consumers := t.consumers)
    ensures Inv(t)
  {
    forall n: nat | InFlight(t, n)
      ensures HeldByOwner(t, n)
    {
      assert InFlight(s, n) && HeldByOwner(s, n);
    }
    forall q: nat | q < |t.producers|
      ensures ProducerOk(t, q)
    {
      assert ProducerOk(s, q);
    }
  }

  lemma StepKeeps<T>(s: State<T>, a: Action<T>)
    requires Inv(s) && Enabled(s, a)
    ensures Inv(Apply(s, a))
  {
    match a
    case Call(p, item, try) => CallKeeps(s, p, item, try);
    case Exchange(p, spurious) =>
      if spurious || s.producers[p].phase.current != s.cursor {
        MissKeeps(s, p, spurious);
      } else {
        ClaimKeeps(s, p);
      }
    case WriteSlot(p) => WriteKeeps(s, p);
    case Load(p) => LoadKeeps(s, p);
    case _ => ConsumersKeep(s, Apply(s, a));
  }

  lemma {:induction false} RunKeeps<T>(ss: seq<State<T>>, acts: seq<Action<T>>, size: nat, i: nat)
    requires FromStart(ss, acts, size) && i <= |acts|
    ensures Inv(ss[i]) && |ss[i].slots| == size
  {
    if i > 0 {
      RunKeeps(ss, acts, size, i - 1);
      StepKeeps(ss[i - 1], acts[i - 1]);
    }
  }

  // ---- claims ---------------------------------------------------------------------------

  /** The claimed sequence numbers are exactly those below the cursor; each belongs to one
      call, and a call that returned a number owns it and has written its slot. */
  lemma ClaimsAreOwned<T>(ss: seq<State<T>>, acts: seq<Action<T>>, size: nat, i: nat)
    requires FromStart(ss, acts, size) && i <= |acts|
    ensures |ss[i].claims| == ss[i].cursor
    ensures forall a, b :: 0 <= a < b < ss[i].cursor ==>
              ss[i].claims[a].producer != ss[i].claims[b].producer || ss[i].claims[a].call != ss[i].claims[b].call
    ensures forall k :: 0 <= k < |ss[i].outcomes| ==>
              var o := ss[i].outcomes[k];
              match o.result
              case Some(n) => n in ss[i].writes && n < ss[i].cursor
                              && ss[i].claims[n].producer == o.producer && ss[i].claims[n].call == o.call
              case None => !Owns(ss[i], o.producer, o.call)
  {
    RunKeeps(ss, acts, size, i);
  }

  /** `try_push` gives up exactly when another call claimed the number it had loaded. */
  lemma TryFailsIffBeaten<T>(ss: seq<State<T>>, acts: seq<Action<T>>, size: nat, i: nat, p: nat)
    requires FromStart(ss, acts, size) && i <= |acts|
    requires p < |ss[i].producers| && ss[i].producers[p].phase.Loaded? && ss[i].producers[p].phase.try
    ensures Enabled(ss[i], Exchange(p, false)) && ss[i].cursor == |ss[i].claims|
    ensures var s, me := ss[i], ss[i].producers[p];
            var o := Apply(s, Exchange(p, false)).outcomes;
            && (o == s.outcomes + [Outcome(p, me.call, None)] <==> me.phase.current < s.cursor)
            && (me.phase.current < s.cursor ==>
                  s.claims[me.phase.current].producer != p || s.claims[me.phase.current].call != me.call)
  {
    RunKeeps(ss, acts, size, i);
    assert ProducerOk(ss[i], p);
  }

  // ---- reads ----------------------------------------------------------------------------

  /** Every claim not yet written is less than one ring length behind the newest claim. */
  ghost predicate Timely<T>(s: State<T>) {
    forall n: nat :: InFlight(s, n) ==> s.cursor - 1 - n < |s.slots|
  }

  /** Sequence number `n` is where its writer put it. */
  ghost predicate InPlace<T>(s: State<T>, n: nat) {
    && 0 < |s.slots|
    && n < |s.claims|
    && s.slots[n % |s.slots|] == Written(s.claims[n].item, n)
  }

  /** Number `n` is in place from its own write until the write one lap later. */
  ghost predicate PlacedOneLap<T>(s: State<T>, n: nat) {
    InPlace(s, n) <==> n in s.writes && n + |s.slots| !in s.writes
  }

  ghost predicate AllPlaced<T>(s: State<T>) {
    forall n: nat :: n < |s.claims| ==> PlacedOneLap(s, n)
  }

  /** Different numbers that share a slot are at least one lap apart. */
  lemma LapsApart(n: nat, w: nat, size: nat)
    requires size >= 1 && n < w && n % size == w % size
    ensures n + size <= w
    ensures n + size < w ==> n + 2 * size <= w
  {
    if w < n + size {
      DistinctSlots(n, w, size);
    }
    NextLap(n, size);
    if n + size < w < n + 2 * size {
      DistinctSlots(n + size, w, size);
    }
  }

  lemma NextLap(n: nat, size: nat)
    requires size >= 1
    ensures (n + size) % size == n % size
  {
    var q, r := n / size, n % size;
    assert n == size * q + r;
    assert size * (q + 1) == size * q + size;
    Residue(n + size, size, q + 1, r);
  }

  /** The write of `w` evicts exactly the number one lap earlier. */
  lemma WritePlaces<T>(s: State<T>, p: nat, n: nat)
    requires Inv(s) && Enabled(s, WriteSlot(p)) && Timely(s) && AllPlaced(s) && n < |s.claims|
    ensures PlacedOneLap(WriteStep(s, p), n)
  {
    var t, w, size := WriteStep(s, p), s.producers[p].phase.seqno, |s.slots|;
    assert ProducerOk(s, p) && InFlight(s, w);
    assert PlacedOneLap(s, n);
    NextLap(n, size);
    if n % size != w % size {
      assert InPlace(t, n) <==> InPlace(s, n);
    } else if n == w {
      assert w + size !in s.writes;
    } else if n < w {
      LapsApart(n, w, size);
      if n + size < w {
        assert !InFlight(s, n + size);
      }
    } else {
      LapsApart(w, n, size);
    }
  }

  lemma StepPlaces<T>(s: State<T>, a: Action<T>)
    requires Inv(s) && Enabled(s, a) && Timely(s) && AllPlaced(s)
    ensures AllPlaced(Apply(s, a))
  {
    var t := Apply(s, a);
    forall n: nat | n < |t.claims|
      ensures PlacedOneLap(t, n)
    {
      if a.WriteSlot? {
        WritePlaces(s, a.p, n);
      } else if n < |s.claims| {
        assert PlacedOneLap(s, n);
      } else {
        assert n !in s.writes;
        assert LastInto(s.writes, n % |s.slots|, |s.slots|) != Some(n);
      }
    }
  }

  lemma {:induction false} RunPlaces<T>(ss: seq<State<T>>, acts: seq<Action<T>>, size: nat, i: nat)
    requires FromStart(ss, acts, size) && i <= |acts|
    requires forall j :: 0 <= j < i ==> Timely(ss[j])
    ensures Inv(ss[i]) && |ss[i].slots| == size && AllPlaced(ss[i])
  {
    RunKeeps(ss, acts, size, i);
    if i > 0 {
      RunPlaces(ss, acts, size, i - 1);
      StepPlaces(ss[i - 1], acts[i - 1]);
    }
  }

  /** If claims were always written within one ring length, a consumer sent to position `t`
      is handed the item of `t` exactly when the writer of `t` has finished and the writer
      one lap later has not. */
  lemma TimelyReadIsOwnIff<T>(ss: seq<State<T>>, acts: seq<Action<T>>, size: nat, i: nat, k: nat)
    requires FromStart(ss, acts, size) && i <= |acts| && Enabled(ss[i], Take(k))
    requires forall j :: 0 <= j < i ==> Timely(ss[j])
    ensures match Target(ss[i].consumers[k].cursor, ss[i].consumers[k].writePos, size)
            case None => Taken(ss[i], k) == None
            case Some(t) =>
              t < |ss[i].claims| && Taken(ss[i], k) == Some(Written(ss[i].claims[t].item, t))
              <==> t in ss[i].writes && t + size !in ss[i].writes
  {
    RunPlaces(ss, acts, size, i);
    match Target(ss[i].consumers[k].cursor, ss[i].consumers[k].writePos, size)
    case None =>
    case Some(t) =>
      if t < |ss[i].claims| {
        assert PlacedOneLap(ss[i], t);
      }
  }

  /** In particular every finished number of the last ring length of claims reads as its own. */
  lemma TimelyReadIsOwn<T>(ss: seq<State<T>>, acts: seq<Action<T>>, size: nat, i: nat, k: nat)
    requires FromStart(ss, acts, size) && i <= |acts| && Enabled(ss[i], Take(k))
    requires forall j :: 0 <= j < i ==> Timely(ss[j])
    ensures match Target(ss[i].consumers[k].cursor, ss[i].consumers[k].writePos, size)
            case None => Taken(ss[i], k) == None
            case Some(t) =>
              t in ss[i].writes && ss[i].cursor <= t + size ==>
                t < |ss[i].claims| && Taken(ss[i], k) == Some(Written(ss[i].claims[t].item, t))
  {
    RunKeeps(ss, acts, size, i);
    TimelyReadIsOwnIff(ss, acts, size, i, k);
  }

  /** Write `a` put number `t` into slot `i`, and no later write landed there. */
  ghost predicate LastWriteAt(writes: seq<nat>, a: nat, t: nat, i: nat, size: nat)
    requires size >= 1
  {
    && a < |writes| && writes[a] == t && t % size == i
    && forall b :: a < b < |writes| ==> writes[b] % size != i
  }

  /** Number `t` has been written, and no number of another lap was written over it. */
  ghost predicate LastOnItsSlot(writes: seq<nat>, t: nat, size: nat)
    requires size >= 1
  {
    exists a: nat :: LastWriteAt(writes, a, t, t % size, size)
  }

  lemma {:induction false} LastIntoFound(writes: seq<nat>, i: nat, size: nat) returns (a: nat)
    requires size >= 1 && LastInto(writes, i, size).Some?
    ensures LastWriteAt(writes, a, LastInto(writes, i, size).value, i, size)
  {
    var init := writes[..|writes| - 1];
    if writes[|writes| - 1] % size == i {
      a := |writes| - 1;
    } else {
      a := LastIntoFound(init, i, size);
    }
  }

  lemma {:induction false} LastIntoUnique(writes: seq<nat>, a: nat, t: nat, i: nat, size: nat)
    requires size >= 1 && LastWriteAt(writes, a, t, i, size)
    ensures LastInto(writes, i, size) == Some(t)
  {
    if a < |writes| - 1 {
      LastIntoUnique(writes[..|writes| - 1], a, t, i, size);
    }
  }

  lemma InPlaceIff<T>(s: State<T>, t: nat)
    requires Inv(s)
    ensures InPlace(s, t) <==> LastOnItsSlot(s.writes, t, |s.slots|)
  {
    var writes, size, slot := s.writes, |s.slots|, t % |s.slots|;
    if InPlace(s, t) {
      var a := LastIntoFound(writes, slot, size);
    }
    if LastOnItsSlot(writes, t, size) {
      var a: nat :| LastWriteAt(writes, a, t, slot, size);
      LastIntoUnique(writes, a, t, slot, size);
    }
  }

  /** With no hypothesis on timing: a consumer sent to position `t` is handed the item of
      `t` exactly when `t` was the last number written into its slot. */
  lemma ReadIsOwnIff<T>(ss: seq<State<T>>, acts: seq<Action<T>>, size: nat, i: nat, k: nat)
    requires FromStart(ss, acts, size) && i <= |acts| && Enabled(ss[i], Take(k))
    ensures match Target(ss[i].consumers[k].cursor, ss[i].consumers[k].writePos, size)
            case None => Taken(ss[i], k) == None
            case Some(t) =>
              t < |ss[i].claims| && Taken(ss[i], k) == Some(Written(ss[i].claims[t].item, t))
              <==> LastOnItsSlot(ss[i].writes, t, size)
  {
    RunKeeps(ss, acts, size, i);
    match Target(ss[i].consumers[k].cursor, ss[i].consumers[k].writePos, size)
    case None =>
    case Some(t) => InPlaceIff(ss[i], t);
  }

  /** A pop does not always return a written item: the cursor moves before the slot is
      filled, so a consumer can be sent to a slot nobody has written. */
  lemma PopCanReadUnwritten<T>(item: T) returns (ss: seq<State<T>>, acts: seq<Action<T>>)
    ensures FromStart(ss, acts, 8192) && Enabled(ss[|acts|], Take(0))
    ensures Taken(ss[|acts|], 0) == Some(Uninit)
  {
    acts := [Subscribe(0), Call(0, item, false), Load(0), Exchange(0, false), Poll(0)];
    var s0: State<T> := Init(RING_SIZE, 1, 1);
    var s1 := Apply(s0, acts[0]);
    var s2 := Apply(s1, acts[1]);
    var s3 := Apply(s2, acts[2]);
    var s4 := Apply(s3, acts[3]);
    var s5 := Apply(s4, acts[4]);
    ss := [s0, s1, s2, s3, s4, s5];
  }

  // ---- one thread's accesses in sequence -------------------------------------------------

  /** The thread an action belongs to. */
  ghost predicate OfConsumer<T>(a: Action<T>, k: nat) { (a.Subscribe? || a.Poll? || a.Take?) && a.k == k }

  ghost predicate OfProducer<T>(a: Action<T>, p: nat) { !a.Subscribe? && !a.Poll? && !a.Take? && a.p == p }

  lemma {:induction false} ConsumerWaits<T>(ss: seq<State<T>>, acts: seq<Action<T>>, i: nat, j: nat, k: nat)
    requires IsRun(ss, acts) && i <= j <= |acts| && k < |ss[i].consumers|
    requires forall m :: i <= m < j ==> !OfConsumer(acts[m], k)
    ensures k < |ss[j].consumers| && ss[j].consumers[k] == ss[i].consumers[k]
  {
    if i < j {
      ConsumerWaits(ss, acts, i, j - 1, k);
      assert !OfConsumer(acts[j - 1], k);
    }
  }

  lemma {:induction false} ProducerWaits<T>(ss: seq<State<T>>, acts: seq<Action<T>>, i: nat, j: nat, p: nat)
    requires IsRun(ss, acts) && i <= j <= |acts| && p < |ss[i].producers|
    requires forall m :: i <= m < j ==> !OfProducer(acts[m], p)
    ensures p < |ss[j].producers| && ss[j].producers[p] == ss[i].producers[p]
  {
    if i < j {
      ProducerWaits(ss, acts, i, j - 1, p);
      assert !OfProducer(acts[j - 1], p);
    }
  }

  /** A consumer starts at the newest claim, and does not move until it polls. */
  lemma SubscribesAtNewest<T>(ss: seq<State<T>>, acts: seq<Action<T>>, size: nat, i: nat, j: nat, k: nat)
    requires FromStart(ss, acts, size) && i < j <= |acts| && acts[i] == Subscribe(k)
    requires forall m :: i < m < j ==> !OfConsumer(acts[m], k)
    ensures k < |ss[j].consumers| && ss[j].consumers[k] == Resting(|ss[i].claims|)
  {
    RunKeeps(ss, acts, size, i);
    ConsumerWaits(ss, acts, i + 1, j, k);
  }

  /** A pop that loads the write cursor at step `i` and reads its slot at step `j`, whatever
      the others do in between: with no number claimed from its cursor on it returns nothing
      and stays; otherwise it reads the slot of the oldest number, from its cursor on, that is
      at most a ring length behind the claims it saw, and moves just past it. */
  lemma PopReadsOldest<T>(ss: seq<State<T>>, acts: seq<Action<T>>, size: nat, i: nat, j: nat, k: nat, c: nat)
    requires FromStart(ss, acts, size) && i < j < |acts| && acts[i] == Poll(k) && acts[j] == Take(k)
    requires forall m :: i < m < j ==> !OfConsumer(acts[m], k)
    requires ss[i].consumers[k] == Resting(c)
    ensures |ss[j].slots| == size && k < |ss[j + 1].consumers| && ss[j + 1].consumers[k].Resting?
    ensures c >= |ss[i].claims| ==> Taken(ss[j], k) == None && ss[j + 1].consumers[k].cursor == c
    ensures c < |ss[i].claims| ==>
              var t := ss[j + 1].consumers[k].cursor - 1;
              && c <= t < |ss[i].claims| <= t + size
              && (c < t ==> t - 1 + size < |ss[i].claims|)
              && Taken(ss[j], k) == Some(ss[j].slots[t % size])
  {
    RunKeeps(ss, acts, size, i);
    RunKeeps(ss, acts, size, j);
    ConsumerWaits(ss, acts, i + 1, j, k);
  }

  /** A claim attempt that loads at step `i` and exchanges at step `j`: unless it fails
      without cause, it takes the number loaded exactly when nobody has claimed since;
      otherwise `try_push` gives up and `push` loads again. */
  lemma ClaimsUnlessBeaten<T>(ss: seq<State<T>>, acts: seq<Action<T>>, size: nat, i: nat, j: nat, p: nat)
    requires FromStart(ss, acts, size) && i < j < |acts| && acts[i] == Load(p) && acts[j] == Exchange(p, false)
    requires forall m :: i < m < j ==> !OfProducer(acts[m], p)
    ensures p < |ss[i].producers| && p < |ss[j + 1].producers|
    ensures var me, after := ss[i].producers[p], ss[j + 1].producers[p];
            && me.phase.Loading? && after.call == me.call
            && if |ss[j].claims| == |ss[i].claims| then
                 && ss[j + 1].claims == ss[j].claims + [Claim(p, me.call, me.phase.item)]
                 && after.phase == Claimed(me.phase.item, |ss[i].claims|)
               else
                 && ss[j + 1].claims == ss[j].claims
                 && after.phase == (if me.phase.try then Idle else Loading(me.phase.item, false))
  {
    RunKeeps(ss, acts, size, i);
    RunKeeps(ss, acts, size, j);
    ProducerWaits(ss, acts, i + 1, j, p);
  }

  /** A push that nobody interrupts, from any state a run can reach: it claims the next
      number for its own item, and puts that item in that number's slot. */
  lemma PushAlone<T>(s: State<T>, p: nat, item: T, try: bool)
    requires Inv(s) && Enabled(s, Call(p, item, try))
    ensures var n, call := |s.claims|, s.producers[p].call + 1;
            var s1 := Apply(s, Call(p, item, try));
            Enabled(s1, Load(p)) &&
            var s2 := Apply(s1, Load(p));
            Enabled(s2, Exchange(p, false)) &&
            var s3 := Apply(s2, Exchange(p, false));
            Enabled(s3, WriteSlot(p)) &&
            var t := Apply(s3, WriteSlot(p));
            && t.claims == s.claims + [Claim(p, call, item)] && t.cursor == n + 1
            && t.slots == s.slots[n % |s.slots| := Written(item, n)]
            && t.writes == s.writes + [n]
            && t.outcomes == s.outcomes + [Outcome(p, call, Some(n))]
            && t.producers == s.producers[p := Producer(Idle, call)] && t.consumers == s.consumers
  {
    var s3 := Apply(Apply(Apply(s, Call(p, item, try)), Load(p)), Exchange(p, false));
    assert s3.producers[p] == Producer(Claimed(item, |s.claims|), s.producers[p].call + 1);
    assert Apply(s3, WriteSlot(p)).producers == s.producers[p := Producer(Idle, s.producers[p].call + 1)];
  }

  // ---- a writer a whole lap late --------------------------------------------------------

  lemma Extend<T>(ss: seq<State<T>>, acts: seq<Action<T>>, size: nat, a: Action<T>)
    returns (ss': seq<State<T>>, acts': seq<Action<T>>)
    requires FromStart(ss, acts, size) && Enabled(ss[|acts|], a)
    ensures FromStart(ss', acts', size) && |acts'| == |acts| + 1
    ensures ss'[|acts'|] == Apply(ss[|acts|], a)
  {
    ss', acts' := ss + [Apply(ss[|acts|], a)], acts + [a];
  }

  /** Producer 0 holds number 0 unwritten; producer 1 has pushed the numbers up to `j`. */
  ghost predicate OneLate<T>(s: State<T>, item: T, size: nat, j: nat) {
    && |s.slots| == size && |s.producers| == 2 && |s.consumers| == 1
    && s.producers[0].phase == Claimed(item, 0) && s.producers[1].phase.Idle?
    && s.cursor == j + 1
    && s.writes == seq(j, i => i + 1)
  }

  lemma PushOne<T>(ss: seq<State<T>>, acts: seq<Action<T>>, size: nat, late: T, item: T, j: nat)
    returns (ss': seq<State<T>>, acts': seq<Action<T>>)
    requires FromStart(ss, acts, size) && OneLate(ss[|acts|], late, size, j)
    ensures FromStart(ss', acts', size) && OneLate(ss'[|acts'|], late, size, j + 1)
    ensures ss'[|acts'|].consumers == ss[|acts|].consumers
  {
    ss', acts' := Extend(ss, acts, size, Call(1, item, false));
    ss', acts' := Extend(ss', acts', size, Load(1));
    ss', acts' := Extend(ss', acts', size, Exchange(1, false));
    ss', acts' := Extend(ss', acts', size, WriteSlot(1));
    assert ss'[|acts'|].writes == seq(j, i => i + 1) + [j + 1];
  }

  lemma {:induction false} LateRun<T>(size: nat, late: T, item: T, j: nat)
    returns (ss: seq<State<T>>, acts: seq<Action<T>>)
    requires size >= 1
    ensures FromStart(ss, acts, size) && OneLate(ss[|acts|], late, size, j)
    ensures ss[|acts|].consumers == [Unborn]
    decreases j
  {
    if j == 0 {
      ss, acts := [Init(size, 2, 1)], [];
      ss, acts := Extend(ss, acts, size, Call(0, late, false));
      ss, acts := Extend(ss, acts, size, Load(0));
      ss, acts := Extend(ss, acts, size, Exchange(0, false));
    } else {
      ss, acts := LateRun(size, late, item, j - 1);
      ss, acts := PushOne(ss, acts, size, late, item, j - 1);
    }
  }

  /** Timeliness is needed: on a ring of any size, a writer a whole lap behind can put its
      old item over a newer one, and a pop sent to the newer number is handed the old. */
  lemma LateWriterOverwrites<T>(size: nat, late: T, item: T) returns (ss: seq<State<T>>, acts: seq<Action<T>>)
    requires size >= 1
    ensures FromStart(ss, acts, size) && Enabled(ss[|acts|], Take(0))
    ensures var s := ss[|acts|];
            && Target(s.consumers[0].cursor, s.consumers[0].writePos, size) == Some(size)
            && size in s.writes && size + size !in s.writes
            && Taken(s, 0) == Some(Written(late, 0))
  {
    ss, acts := LateRun(size, late, item, size - 1);
    ss, acts := Extend(ss, acts, size, Subscribe(0));
    ss, acts := PushOne(ss, acts, size, late, item, size - 1);
    assert ss[|acts|].writes[size - 1] == size;
    ss, acts := Extend(ss, acts, size, WriteSlot(0));
    ss, acts := Extend(ss, acts, size, Poll(0));
    assert ss[|acts|].writes[size - 1] == size;
    Residue(size, size, 1, 0);
  }
}
