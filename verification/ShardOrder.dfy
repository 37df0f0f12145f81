/** With a single reader each shard sees the keys in the order they were enqueued. */
module ShardOrder {
  import opened Shard
  import opened ShardSafety

  /** The keys of shard `w`, in order. */
  ghost function ForShard(c: Config, ks: seq<Pubkey>, w: nat): seq<Pubkey>
    requires c.Valid()
  {
    if ks == [] then []
    else
      var rest := ForShard(c, ks[1..], w);
      if c.hash(ks[0]) % c.nShards == w then [ks[0]] + rest else rest
  }

  lemma {:induction false} ForShardAppend(c: Config, ks: seq<Pubkey>, more: seq<Pubkey>, w: nat)
    requires c.Valid()
    ensures ForShard(c, ks + more, w) == ForShard(c, ks, w) + ForShard(c, more, w)
  {
    if ks == [] {
      assert ks + more == more;
    } else {
      assert (ks + more)[1..] == ks[1..] + more;
      ForShardAppend(c, ks[1..], more, w);
    }
  }

  /** What the only reader still has to route: key in hand, rest of the batch, queue. */
  ghost function Ahead(s: State): seq<Pubkey>
    requires |s.readers| > 0
  {
    var r := s.readers[0];
    (match r.phase
     case SendingBatch(key) => [key]
     case SendingLast(key) => [key]
     case _ => []) + r.batch + s.queue
  }

  ghost function InHand(w: Worker): seq<Pubkey> {
    if w.phase.Handling? then [w.phase.item.key] else []
  }

  /** Everything on its way to shard `w`, oldest first. */
  ghost function Flow(c: Config, s: State, w: nat): seq<Pubkey>
    requires Shaped(c, s) && w < c.nShards
  {
    s.workers[w].handled + InHand(s.workers[w]) + Keys(s.channels[w]) + ForShard(c, Ahead(s), w)
  }

  ghost predicate InOrder(c: Config, s: State) {
    && Shaped(c, s)
    && forall w :: 0 <= w < c.nShards ==> Flow(c, s, w) == ForShard(c, s.enqueued, w)
  }

  lemma SendInOrder(c: Config, s: State, key: Pubkey, me: Reader, w: nat)
    requires c.nReaders == 1 && Structure(c, s) && Enabled(c, s, StepReader(0)) && w < c.nShards
    requires s.readers[0].phase == SendingBatch(key) || s.readers[0].phase == SendingLast(key)
    requires me == Reader(me.phase, s.readers[0].batch) && (me.phase.Routing? || me.phase.Draining?)
    ensures Flow(c, Send(c, s, key).(readers := s.readers[0 := me]), w) == Flow(c, s, w)
  {
    var (hash, shard) := c.Route(key);
    var t := Send(c, s, key).(readers := s.readers[0 := me]);
    WorkerAlive(c, s, 0, shard);
    assert Ahead(s) == [key] + Ahead(t);
    assert Ahead(s)[1..] == Ahead(t);
    if w == shard {
      assert Keys(t.channels[w]) == Keys(s.channels[w]) + [key];
      var before, rest := s.workers[w].handled + InHand(s.workers[w]) + Keys(s.channels[w]), ForShard(c, Ahead(t), w);
      assert before + ([key] + rest) == (before + [key]) + rest;
    } else {
      assert t.channels[w] == s.channels[w];
    }
  }

  lemma ReaderInOrder(c: Config, s: State, w: nat)
    requires c.nReaders == 1 && Structure(c, s) && Enabled(c, s, StepReader(0)) && w < c.nShards
    ensures Flow(c, ReaderStep(c, s, 0), w) == Flow(c, s, w)
  {
    var me, t := s.readers[0], ReaderStep(c, s, 0);
    assert ReaderOk(s, me);
    match me.phase
    case SendingBatch(key) => SendInOrder(c, s, key, t.readers[0], w);
    case SendingLast(key) => SendInOrder(c, s, key, t.readers[0], w);
    case Stopped =>
    case _ => assert Ahead(t) == Ahead(s);
  }

  lemma WorkerInOrder(c: Config, s: State, v: nat, w: nat)
    requires c.nReaders == 1 && Enabled(c, s, StepWorker(v)) && w < c.nShards
    ensures Flow(c, WorkerStep(c, s, v), w) == Flow(c, s, w)
  {
    if v == w && s.workers[v].phase.Receiving? && s.channels[v] != [] {
      assert Keys(s.channels[v]) == [s.channels[v][0].key] + Keys(s.channels[v][1..]);
    }
  }

  lemma EnqueueInOrder(c: Config, s: State, key: Pubkey, w: nat)
    requires c.nReaders == 1 && InOrder(c, s) && Enabled(c, s, Enqueue(key)) && w < c.nShards
    ensures Flow(c, Apply(c, s, Enqueue(key)), w) == ForShard(c, s.enqueued + [key], w)
  {
    var t := Apply(c, s, Enqueue(key));
    assert Ahead(t) == Ahead(s) + [key];
    ForShardAppend(c, Ahead(s), [key], w);
    ForShardAppend(c, s.enqueued, [key], w);
  }

  lemma StepInOrder(c: Config, s: State, a: Action)
    requires c.nReaders == 1 && Structure(c, s) && InOrder(c, s) && Enabled(c, s, a)
    ensures InOrder(c, Apply(c, s, a))
  {
    forall w: nat | w < c.nShards
      ensures Flow(c, Apply(c, s, a), w) == ForShard(c, Apply(c, s, a).enqueued, w)
    {
      match a
      case Enqueue(key) => EnqueueInOrder(c, s, key, w);
      case StepReader(_) => ReaderInOrder(c, s, w);
      case StepWorker(v) => WorkerInOrder(c, s, v, w);
      case _ =>
    }
  }

  lemma {:induction false} RunInOrder(c: Config, ss: seq<State>, acts: seq<Action>, i: nat)
    requires c.nReaders == 1 && IsRun(c, ss, acts) && c.Valid() && ss[0] == Init(c) && i <= |acts|
    ensures Inv(c, ss[i]) && InOrder(c, ss[i])
  {
    InitInv(c);
    if i > 0 {
      RunInOrder(c, ss, acts, i - 1);
      StepKeeps(c, ss[i - 1], acts[i - 1]);
      StepInOrder(c, ss[i - 1], acts[i - 1]);
    }
  }

  /** At any moment a shard's calls are the first occurrences in a prefix of its keys. */
  lemma CallsFollowPrefix(c: Config, s: State, w: nat)
    requires c.nReaders == 1 && Reachable(c, s) && w < c.nShards
    ensures Shaped(c, s)
    ensures s.workers[w].handled <= ForShard(c, s.enqueued, w)
    ensures CallsOf(s.calls, w) == Dedup(s.workers[w].handled)
  {
    var ss, acts :| IsRun(c, ss, acts) && ss[0] == Init(c) && ss[|acts|] == s;
    RunInOrder(c, ss, acts, |acts|);
    assert WorkerOk(c, s, w);
    assert Flow(c, s, w) == ForShard(c, s.enqueued, w);
  }

  /** With one reader the completed pipeline has called back, per shard, for exactly the
      enqueued keys of that shard, in enqueue order with later repetitions removed. */
  lemma SingleReaderOrder(c: Config, s: State, w: nat)
    requires c.nReaders == 1 && Reachable(c, s) && s.coordinator.Signalled? && w < c.nShards
    ensures CallsOf(s.calls, w) == Dedup(ForShard(c, s.enqueued, w))
  {
    var ss, acts :| IsRun(c, ss, acts) && ss[0] == Init(c) && ss[|acts|] == s;
    RunInOrder(c, ss, acts, |acts|);
    assert WorkerOk(c, s, w) && ReaderOk(s, s.readers[0]);
    assert Flow(c, s, w) == ForShard(c, s.enqueued, w);
    assert Flow(c, s, w) == s.workers[w].handled;
  }
}
