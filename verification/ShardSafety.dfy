/** Nothing is lost, duplicated or misrouted: exactly-once delivery in every interleaving. */
module ShardSafety {
  import opened Shard
  import opened Sums
  import opened Remainders

  // ---- keys in first-occurrence order ---------------------------------------------------

  /** The keys of `ks` with every later repetition removed. */
  ghost function Dedup(ks: seq<Pubkey>): seq<Pubkey> {
    if ks == [] then []
    else
      var init, last := ks[..|ks| - 1], ks[|ks| - 1];
      if last in init then Dedup(init) else Dedup(init) + [last]
  }

  /** The keys for which shard `w` called back, in call order. */
  ghost function CallsOf(calls: seq<Call>, w: nat): seq<Pubkey> {
    if calls == [] then []
    else
      var init, last := CallsOf(calls[..|calls| - 1], w), calls[|calls| - 1];
      if last.shard == w then init + [last.key] else init
  }

  /** How often the callback was made for `key`, on any shard. */
  ghost function TimesCalled(calls: seq<Call>, key: Pubkey): nat {
    if calls == [] then 0
    else TimesCalled(calls[..|calls| - 1], key) + if calls[|calls| - 1].key == key then 1 else 0
  }

  lemma {:induction false} DedupCounts(ks: seq<Pubkey>, key: Pubkey)
    ensures multiset(Dedup(ks))[key] == if key in ks then 1 else 0
  {
    if ks != [] {
      var init := ks[..|ks| - 1];
      assert ks == init + [ks[|ks| - 1]];
      DedupCounts(init, key);
    }
  }

  // ---- where a key can be ---------------------------------------------------------------

  ghost function HeldByReader(r: Reader): multiset<Pubkey> {
    multiset(r.batch) + match r.phase
                        case SendingBatch(key) => multiset{key}
                        case SendingLast(key) => multiset{key}
                        case _ => multiset{}
  }

  ghost function Keys(items: seq<Item>): (ks: seq<Pubkey>)
    ensures |ks| == |items|
  {
    seq(|items|, i requires 0 <= i < |items| => items[i].key)
  }

  ghost function InChannel(items: seq<Item>): multiset<Pubkey> { multiset(Keys(items)) }

  ghost function HeldByWorker(w: Worker): multiset<Pubkey> {
    multiset(w.handled) + if w.phase.Handling? then multiset{w.phase.item.key} else multiset{}
  }

  /** Every key anywhere in the pipeline, with multiplicity. */
  ghost function Everywhere(s: State): multiset<Pubkey> {
    multiset(s.queue) + Bag(s.readers, HeldByReader) + Bag(s.channels, InChannel)
    + Bag(s.workers, HeldByWorker) + multiset(s.dropped)
  }

  // ---- the invariant --------------------------------------------------------------------

  ghost predicate Routed(c: Config, w: nat, item: Item)
    requires c.Valid()
  {
    (item.hash, w) == c.Route(item.key)
  }

  ghost predicate ReaderOk(s: State, r: Reader) {
    && |r.batch| <= BATCH
    && (r.phase.Checking? || r.phase.Draining? || r.phase.SendingLast? || r.phase.Stopped? ==> r.batch == [])
    && (r.phase.Draining? || r.phase.SendingLast? || r.phase.Stopped? ==> s.done)
    && (r.phase.Stopped? ==> s.queue == [])
  }

  ghost predicate WorkerOk(c: Config, s: State, w: nat)
    requires Shaped(c, s) && w < c.nShards
  {
    var me := s.workers[w];
    && |s.channels[w]| <= CHANNEL_CAP
    && (forall i :: 0 <= i < |s.channels[w]| ==> Routed(c, w, s.channels[w][i]))
    && (me.phase.Handling? ==> Routed(c, w, me.phase.item))
    && (forall k :: k in me.handled ==> c.Route(k).1 == w)
    && (forall k :: k in me.seen <==> k in me.handled)
    && (me.phase.Finished? ==> s.Closed() && s.channels[w] == [])
    && CallsOf(s.calls, w) == Dedup(me.handled)
  }

  ghost predicate CoordinatorOk(c: Config, s: State)
    requires Shaped(c, s)
  {
    match s.coordinator
    case JoiningReaders(n) => n <= c.nReaders && forall r :: 0 <= r < n ==> s.readers[r].phase.Stopped?
    case JoiningWorkers(n) => n <= c.nShards && AllStopped(s) && forall w :: 0 <= w < n ==> s.workers[w].phase.Finished?
    case Signalled => AllStopped(s) && forall w :: 0 <= w < c.nShards ==> s.workers[w].phase.Finished?
  }

  ghost predicate AllStopped(s: State) {
    forall r :: 0 <= r < |s.readers| ==> s.readers[r].phase.Stopped?
  }

  ghost predicate CallsOk(c: Config, s: State)
    requires c.Valid()
  {
    forall i :: 0 <= i < |s.calls| ==> (s.calls[i].hash, s.calls[i].shard) == c.Route(s.calls[i].key)
  }

  ghost predicate Structure(c: Config, s: State) {
    && Shaped(c, s)
    && (forall r :: 0 <= r < c.nReaders ==> ReaderOk(s, s.readers[r]))
    && (forall w :: 0 <= w < c.nShards ==> WorkerOk(c, s, w))
    && CoordinatorOk(c, s)
    && CallsOk(c, s)
    && s.dropped == []
  }

  ghost predicate Inv(c: Config, s: State) {
    && Structure(c, s)
    && Everywhere(s) == multiset(s.enqueued)
  }

  // ---- it holds initially ---------------------------------------------------------------

  lemma InitInv(c: Config)
    requires c.Valid()
    ensures Inv(c, Init(c))
  {
    var s := Init(c);
    BagEmpty(s.readers, HeldByReader);
    BagEmpty(s.channels, InChannel);
    BagEmpty(s.workers, HeldByWorker);
  }

  // ---- every step keeps it --------------------------------------------------------------

  lemma HeadOut(ks: seq<Pubkey>)
    requires ks != []
    ensures multiset(ks) == multiset(ks[1..]) + multiset{ks[0]}
  {
    assert ks == [ks[0]] + ks[1..];
  }

  lemma ChannelTail(items: seq<Item>)
    requires items != []
    ensures InChannel(items) == InChannel(items[1..]) + multiset{items[0].key}
  {
    HeadOut(Keys(items));
    assert Keys(items)[1..] == Keys(items[1..]);
  }

  lemma ChannelAppend(items: seq<Item>, item: Item)
    ensures InChannel(items + [item]) == InChannel(items) + multiset{item.key}
  {
    assert Keys(items + [item]) == Keys(items) + [item.key];
  }

  /** While some reader is still at work no worker has finished, so a send never fails. */
  lemma WorkerAlive(c: Config, s: State, r: nat, w: nat)
    requires Structure(c, s) && r < c.nReaders && w < c.nShards && !s.readers[r].phase.Stopped?
    ensures !s.workers[w].phase.Finished?
  {
    assert WorkerOk(c, s, w);
  }

  lemma PopConserves(s: State, r: nat, me: Reader)
    requires r < |s.readers| && s.queue != []
    requires HeldByReader(me) == HeldByReader(s.readers[r]) + multiset{s.queue[0]}
    ensures Everywhere(s.(queue := s.queue[1..], readers := s.readers[r := me])) == Everywhere(s)
  {
    HeadOut(s.queue);
    BagGains(s.readers, HeldByReader, r, me, multiset{s.queue[0]});
  }

  lemma MoveConserves(s: State, r: nat, me: Reader)
    requires r < |s.readers| && HeldByReader(me) == HeldByReader(s.readers[r])
    ensures Everywhere(s.(readers := s.readers[r := me])) == Everywhere(s)
  {
    BagGains(s.readers, HeldByReader, r, me, multiset{});
  }

  lemma SendConserves(c: Config, s: State, r: nat, key: Pubkey, me: Reader)
    requires Structure(c, s) && r < c.nReaders && !s.readers[r].phase.Stopped?
    requires HeldByReader(s.readers[r]) == HeldByReader(me) + multiset{key}
    ensures Everywhere(Send(c, s, key).(readers := s.readers[r := me])) == Everywhere(s)
  {
    var (hash, w) := c.Route(key);
    WorkerAlive(c, s, r, w);
    ChannelAppend(s.channels[w], Item(hash, key));
    BagLoses(s.readers, HeldByReader, r, me, multiset{key});
    BagGains(s.channels, InChannel, w, s.channels[w] + [Item(hash, key)], multiset{key});
  }

  lemma FillConserves(c: Config, s: State, r: nat)
    requires Enabled(c, s, StepReader(r)) && s.readers[r].phase.Filling?
    ensures Everywhere(ReaderStep(c, s, r)) == Everywhere(s)
  {
    var me := s.readers[r];
    if |me.batch| < BATCH && s.queue != [] {
      PopConserves(s, r, Reader(Filling, me.batch + [s.queue[0]]));
    } else {
      MoveConserves(s, r, Reader(Routing, me.batch));
    }
  }

  lemma DrainConserves(c: Config, s: State, r: nat)
    requires Enabled(c, s, StepReader(r)) && s.readers[r].phase.Draining?
    ensures Everywhere(ReaderStep(c, s, r)) == Everywhere(s)
  {
    var me := s.readers[r];
    if s.queue != [] {
      PopConserves(s, r, Reader(SendingLast(s.queue[0]), me.batch));
    } else {
      MoveConserves(s, r, Reader(Stopped, me.batch));
    }
  }

  lemma ReaderSends(c: Config, s: State, r: nat)
    requires Structure(c, s) && Enabled(c, s, StepReader(r))
    requires s.readers[r].phase.SendingBatch? || s.readers[r].phase.SendingLast?
    ensures Everywhere(ReaderStep(c, s, r)) == Everywhere(s)
  {
    var me, now := s.readers[r], ReaderStep(c, s, r).readers[r];
    SendConserves(c, s, r, me.phase.key, now);
  }

  lemma RouteConserves(c: Config, s: State, r: nat)
    requires Enabled(c, s, StepReader(r)) && s.readers[r].phase.Routing?
    ensures Everywhere(ReaderStep(c, s, r)) == Everywhere(s)
  {
    var me := s.readers[r];
    if me.batch != [] {
      HeadOut(me.batch);
      MoveConserves(s, r, Reader(SendingBatch(me.batch[0]), me.batch[1..]));
    } else {
      MoveConserves(s, r, Reader(Checking, []));
    }
  }

  lemma ReaderConserves(c: Config, s: State, r: nat)
    requires Structure(c, s) && Enabled(c, s, StepReader(r))
    ensures Everywhere(ReaderStep(c, s, r)) == Everywhere(s)
  {
    match s.readers[r].phase
    case Filling => FillConserves(c, s, r);
    case Routing => RouteConserves(c, s, r);
    case Checking => MoveConserves(s, r, ReaderStep(c, s, r).readers[r]);
    case Draining => DrainConserves(c, s, r);
    case Stopped =>
    case _ => ReaderSends(c, s, r);
  }

  lemma ReceiveConserves(s: State, w: nat, me: Worker)
    requires w < |s.workers| == |s.channels| && s.channels[w] != []
    requires HeldByWorker(me) == HeldByWorker(s.workers[w]) + multiset{s.channels[w][0].key}
    ensures Everywhere(s.(channels := s.channels[w := s.channels[w][1..]], workers := s.workers[w := me])) == Everywhere(s)
  {
    var key := s.channels[w][0].key;
    ChannelTail(s.channels[w]);
    BagLoses(s.channels, InChannel, w, s.channels[w][1..], multiset{key});
    BagGains(s.workers, HeldByWorker, w, me, multiset{key});
  }

  lemma WorkerConserves(c: Config, s: State, w: nat)
    requires Enabled(c, s, StepWorker(w))
    ensures Everywhere(WorkerStep(c, s, w)) == Everywhere(s)
  {
    var now := WorkerStep(c, s, w).workers[w];
    if s.workers[w].phase.Receiving? && s.channels[w] != [] {
      ReceiveConserves(s, w, now);
    } else {
      BagGains(s.workers, HeldByWorker, w, now, multiset{});
    }
  }

  lemma SendKeepsWorker(c: Config, s: State, r: nat, key: Pubkey, w: nat)
    requires Structure(c, s) && Enabled(c, s, StepReader(r)) && w < c.nShards && CanSend(c, s, key)
    ensures WorkerOk(c, Send(c, s, key), w)
  {
    WorkerAlive(c, s, r, c.Route(key).1);
    assert WorkerOk(c, s, w);
  }

  lemma ReaderKeepsWorkers(c: Config, s: State, r: nat, w: nat)
    requires Structure(c, s) && Enabled(c, s, StepReader(r)) && w < c.nShards
    ensures WorkerOk(c, ReaderStep(c, s, r), w)
  {
    assert WorkerOk(c, s, w);
    var me := s.readers[r];
    if me.phase.SendingBatch? || me.phase.SendingLast? {
      SendKeepsWorker(c, s, r, me.phase.key, w);
    }
  }

  lemma ReaderKeepsReaders(c: Config, s: State, r: nat, q: nat)
    requires Structure(c, s) && Enabled(c, s, StepReader(r)) && q < c.nReaders
    ensures ReaderOk(ReaderStep(c, s, r), ReaderStep(c, s, r).readers[q])
  {
    assert ReaderOk(s, s.readers[q]) && ReaderOk(s, s.readers[r]);
  }

  lemma ReaderKeeps(c: Config, s: State, r: nat)
    requires Structure(c, s) && Enabled(c, s, StepReader(r))
    ensures Structure(c, ReaderStep(c, s, r))
  {
    var me, t := s.readers[r], ReaderStep(c, s, r);
    forall w: nat | w < c.nShards
      ensures WorkerOk(c, t, w)
    {
      ReaderKeepsWorkers(c, s, r, w);
    }
    forall q: nat | q < c.nReaders
      ensures ReaderOk(t, t.readers[q])
    {
      ReaderKeepsReaders(c, s, r, q);
    }
    if me.phase.SendingBatch? || me.phase.SendingLast? {
      WorkerAlive(c, s, r, c.Route(me.phase.key).1);
    }
  }

  lemma HandleKeepsOthers(c: Config, s: State, w: nat, v: nat)
    requires Structure(c, s) && w < c.nShards && v < c.nShards && v != w && s.workers[w].phase.Handling?
    ensures WorkerOk(c, Handle(s, w, s.workers[w].phase.item), v)
  {
    var item := s.workers[w].phase.item;
    var t := Handle(s, w, item);
    assert WorkerOk(c, s, v);
    if item.key !in s.workers[w].seen {
      assert t.calls[..|s.calls|] == s.calls;
    }
  }

  lemma HandleKeepsOwn(c: Config, s: State, w: nat)
    requires Structure(c, s) && w < c.nShards && s.workers[w].phase.Handling?
    ensures WorkerOk(c, Handle(s, w, s.workers[w].phase.item), w)
  {
    var me, item := s.workers[w], s.workers[w].phase.item;
    var t := Handle(s, w, item);
    assert WorkerOk(c, s, w);
    assert (me.handled + [item.key])[..|me.handled|] == me.handled;
    if item.key !in me.seen {
      assert t.calls[..|s.calls|] == s.calls;
    }
  }

  lemma WorkerKeeps(c: Config, s: State, w: nat)
    requires Structure(c, s) && Enabled(c, s, StepWorker(w))
    ensures Structure(c, WorkerStep(c, s, w))
  {
    var me, t := s.workers[w], WorkerStep(c, s, w);
    assert WorkerOk(c, s, w);
    forall v: nat | v < c.nShards
      ensures WorkerOk(c, t, v)
    {
      assert WorkerOk(c, s, v);
      if me.phase.Handling? {
        if v == w {
          HandleKeepsOwn(c, s, w);
        } else {
          HandleKeepsOthers(c, s, w, v);
        }
      }
    }
    forall r: nat | r < c.nReaders
      ensures ReaderOk(t, t.readers[r])
    {
      assert ReaderOk(s, s.readers[r]);
    }
  }

  lemma CoordinatorKeeps(c: Config, s: State)
    requires Structure(c, s) && Enabled(c, s, StepCoordinator)
    ensures Structure(c, CoordinatorStep(c, s))
  {
    var t := CoordinatorStep(c, s);
    forall w: nat | w < c.nShards
      ensures WorkerOk(c, t, w)
    {
      assert WorkerOk(c, s, w);
    }
    forall r: nat | r < c.nReaders
      ensures ReaderOk(t, t.readers[r])
    {
      assert ReaderOk(s, s.readers[r]);
    }
  }

  lemma ProducerKeeps(c: Config, s: State, a: Action)
    requires Structure(c, s) && Enabled(c, s, a) && !a.System()
    ensures Structure(c, Apply(c, s, a))
  {
    var t := Apply(c, s, a);
    forall w: nat | w < c.nShards
      ensures WorkerOk(c, t, w)
    {
      assert WorkerOk(c, s, w);
    }
    forall r: nat | r < c.nReaders
      ensures ReaderOk(t, t.readers[r])
    {
      assert ReaderOk(s, s.readers[r]);
    }
  }

  lemma ProducerConserves(c: Config, s: State, a: Action)
    requires Enabled(c, s, a) && !a.System() && Everywhere(s) == multiset(s.enqueued)
    ensures Everywhere(Apply(c, s, a)) == multiset(Apply(c, s, a).enqueued)
  {
    if a.Enqueue? {
      assert multiset(s.queue + [a.key]) == multiset(s.queue) + multiset{a.key};
      assert multiset(s.enqueued + [a.key]) == multiset(s.enqueued) + multiset{a.key};
    }
  }

  /** The history of enqueues is the producers' alone. */
  lemma SystemKeepsHistory(c: Config, s: State, a: Action)
    requires Enabled(c, s, a) && a.System()
    ensures Apply(c, s, a).enqueued == s.enqueued
  {
  }

  lemma InvFrom(c: Config, s: State, t: State)
    requires Structure(c, t) && Everywhere(t) == Everywhere(s) == multiset(s.enqueued) && t.enqueued == s.enqueued
    ensures Inv(c, t)
  {
  }

  lemma StepKeeps(c: Config, s: State, a: Action)
    requires Inv(c, s) && Enabled(c, s, a)
    ensures Inv(c, Apply(c, s, a))
  {
    match a
    case StepReader(r) =>
      ReaderKeeps(c, s, r);
      ReaderConserves(c, s, r);
      SystemKeepsHistory(c, s, a);
      InvFrom(c, s, ReaderStep(c, s, r));
    case StepWorker(w) =>
      WorkerKeeps(c, s, w);
      WorkerConserves(c, s, w);
      SystemKeepsHistory(c, s, a);
      InvFrom(c, s, WorkerStep(c, s, w));
    case StepCoordinator => CoordinatorKeeps(c, s);
    case _ =>
      ProducerKeeps(c, s, a);
      ProducerConserves(c, s, a);
  }

  lemma {:induction false} RunKeeps(c: Config, ss: seq<State>, acts: seq<Action>, i: nat)
    requires IsRun(c, ss, acts) && Inv(c, ss[0]) && i <= |acts|
    ensures Inv(c, ss[i])
  {
    if i > 0 {
      RunKeeps(c, ss, acts, i - 1);
      StepKeeps(c, ss[i - 1], acts[i - 1]);
    }
  }

  lemma ReachableInv(c: Config, s: State)
    requires Reachable(c, s)
    ensures Inv(c, s)
  {
    var ss, acts :| IsRun(c, ss, acts) && ss[0] == Init(c) && ss[|acts|] == s;
    InitInv(c);
    RunKeeps(c, ss, acts, |acts|);
  }

  // ---- what it means for the caller -----------------------------------------------------

  /** Calls for a key all come from the key's own shard. */
  lemma {:induction false} CountOnOwnShard(c: Config, calls: seq<Call>, key: Pubkey)
    requires c.Valid()
    requires forall i :: 0 <= i < |calls| ==> calls[i].shard == c.Route(calls[i].key).1
    ensures TimesCalled(calls, key) == multiset(CallsOf(calls, c.Route(key).1))[key]
  {
    if calls != [] {
      CountOnOwnShard(c, calls[..|calls| - 1], key);
    }
  }

  /** The shard is the one representative of the hash modulo the number of shards. */
  ghost predicate OnItsShard(c: Config, hash: nat, shard: nat, key: Pubkey)
    requires c.Valid()
  {
    hash == c.hash(key) && shard < c.nShards && (hash - shard) % c.nShards == 0
  }

  lemma RouteIsHash(c: Config, key: Pubkey)
    requires c.Valid()
    ensures OnItsShard(c, c.Route(key).0, c.Route(key).1, key)
  {
    var (h, w) := c.Route(key);
    var q := h / c.nShards;
    assert h - w == c.nShards * q;
    Residue(h - w, c.nShards, q, 0);
  }

  /** In every reachable state every callback was made with the key's own hash, on the shard
      congruent to it. */
  lemma CalledOnItsShard(c: Config, s: State, i: nat)
    requires Reachable(c, s) && i < |s.calls|
    ensures s.calls[i].hash == c.hash(s.calls[i].key)
    ensures s.calls[i].shard < c.nShards && (s.calls[i].hash - s.calls[i].shard) % c.nShards == 0
  {
    ReachableInv(c, s);
    assert CallsOk(c, s);
    RouteIsHash(c, s.calls[i].key);
  }

  /** In every reachable state each key was called back at most once, only if it was
      enqueued, and exactly when its own shard has handled it. */
  lemma AtMostOnce(c: Config, s: State, key: Pubkey)
    requires Reachable(c, s)
    ensures Shaped(c, s)
    ensures TimesCalled(s.calls, key) == if key in s.workers[c.Route(key).1].handled then 1 else 0
    ensures TimesCalled(s.calls, key) > 0 ==> key in s.enqueued
  {
    ReachableInv(c, s);
    var w := c.Route(key).1;
    assert WorkerOk(c, s, w);
    CountOnOwnShard(c, s.calls, key);
    DedupCounts(s.workers[w].handled, key);
    if key in s.workers[w].handled {
      BagContains(s.workers, HeldByWorker, w);
      assert key in HeldByWorker(s.workers[w]);
      assert key in Everywhere(s);
    }
  }

  /** When completion is signalled, the callback has been made exactly once for every key
      ever enqueued and for no other key, each time with the key's hash and on the shard
      that the hash names. */
  lemma ExactlyOnce(c: Config, s: State)
    requires Reachable(c, s) && s.coordinator.Signalled?
    ensures forall key :: TimesCalled(s.calls, key) == if key in s.enqueued then 1 else 0
    ensures forall i :: 0 <= i < |s.calls| ==>
              && s.calls[i].hash == c.hash(s.calls[i].key)
              && s.calls[i].shard < c.nShards && (s.calls[i].hash - s.calls[i].shard) % c.nShards == 0
    ensures s.dropped == []
  {
    ReachableInv(c, s);
    forall i: nat | i < |s.calls|
      ensures OnItsShard(c, s.calls[i].hash, s.calls[i].shard, s.calls[i].key)
    {
      CalledOnItsShard(c, s, i);
    }
    assert Shaped(c, s);
    forall key
      ensures TimesCalled(s.calls, key) == if key in s.enqueued then 1 else 0
    {
      AtMostOnce(c, s, key);
      if key in s.enqueued {
        OnlyHandledLeft(c, s, key);
      }
    }
  }

  lemma NothingElsewhere(c: Config, s: State)
    requires Structure(c, s) && s.coordinator.Signalled?
    ensures Everywhere(s) == Bag(s.workers, HeldByWorker)
  {
    forall r | 0 <= r < c.nReaders
      ensures HeldByReader(s.readers[r]) == multiset{}
    {
      assert ReaderOk(s, s.readers[r]);
    }
    forall w | 0 <= w < c.nShards
      ensures InChannel(s.channels[w]) == multiset{}
    {
      assert WorkerOk(c, s, w);
    }
    BagEmpty(s.readers, HeldByReader);
    BagEmpty(s.channels, InChannel);
    assert ReaderOk(s, s.readers[0]);
  }

  lemma OnlyHandledLeft(c: Config, s: State, key: Pubkey)
    requires Inv(c, s) && s.coordinator.Signalled? && key in s.enqueued
    ensures key in s.workers[c.Route(key).1].handled
  {
    NothingElsewhere(c, s);
    assert key in Bag(s.workers, HeldByWorker);
    var w := BagSource(s.workers, HeldByWorker, key);
    assert WorkerOk(c, s, w);
  }
}
