/**
 The thread bodies of src/shard.rs as the loops they are, under one schedule: each reader
 runs to its end, a blocked send lets the shard's worker take an item, then the channels
 close and each worker runs to its end.  Every statement that touches shared state is
 matched by one action of the state machine, so the loops are a run of it.
 */
module ShardThreads {
  import opened Shard
  import opened ShardSafety
  import opened ShardProgress
  import opened ShardOrder

  class Pipeline {
    const c: Config
    var queue: seq<Pubkey>
    var done: bool
    var channels: seq<seq<Item>>
    /** Each worker's set of keys, and the callbacks made so far. */
    var seen: seq<set<Pubkey>>
    var calls: seq<Call>
    /** The state machine, kept in step. */
    ghost var machine: State

    ghost predicate Valid()
      reads this
    {
      && c.Valid() && Reachable(c, machine) && Shaped(c, machine)
      && queue == machine.queue && done == machine.done
      && channels == machine.channels && calls == machine.calls
      && |seen| == c.nShards
      && forall w :: 0 <= w < c.nShards ==> seen[w] == machine.workers[w].seen
    }

    /** Between items every worker is waiting on its channel. */
    ghost predicate WorkersWaiting()
      reads this
    {
      forall w :: 0 <= w < |machine.workers| ==> machine.workers[w].phase.Receiving?
    }

    /** What a reader's body leaves alone: other readers, the coordinator, the history of
        enqueues and the flag. */
    twostate predicate OnlyReader(r: nat)
      reads this
    {
      && machine.coordinator == old(machine.coordinator)
      && machine.enqueued == old(machine.enqueued)
      && machine.done == old(machine.done)
      && |machine.readers| == |old(machine.readers)|
      && forall q :: 0 <= q < |machine.readers| && q != r ==> machine.readers[q] == old(machine.readers[q])
    }

    constructor (config: Config)
      requires config.Valid()
      ensures c == config && Valid() && machine == Init(config)
    {
      c := config;
      queue, done, calls := [], false, [];
      channels := seq(config.nShards, _ => []);
      seen := seq(config.nShards, _ => {});
      machine := Init(config);
      new;
      assert IsRun(c, [machine], []);
    }

    ghost method Advance(a: Action)
      requires c.Valid() && Reachable(c, machine) && Enabled(c, machine, a)
      modifies this`machine
      ensures Reachable(c, machine) && Shaped(c, machine) && machine == Apply(c, old(machine), a)
    {
      ReachableStep(c, machine, a);
      machine := Apply(c, machine, a);
    }

    /** One turn of a worker's loop. */
    method ReceiveOne(w: nat)
      requires Valid() && w < c.nShards && machine.workers[w].phase.Receiving? && channels[w] != []
      modifies this
      ensures Valid() && machine.readers == old(machine.readers) && machine.coordinator == old(machine.coordinator)
      ensures machine.enqueued == old(machine.enqueued) && done == old(done) && queue == old(queue)
      ensures machine.workers[w].phase.Receiving?
      ensures forall v :: 0 <= v < c.nShards && v != w ==> machine.workers[v] == old(machine.workers[v])
      ensures channels == old(channels)[w := old(channels)[w][1..]]
    {
      var item := channels[w][0];
      channels := channels[w := channels[w][1..]];
      Advance(StepWorker(w));
      if item.key !in seen[w] {
        calls := calls + [Call(w, item.hash, item.key)];
      }
      seen := seen[w := seen[w] + {item.key}];
      Advance(StepWorker(w));
    }

    /** A blocking send by reader `r`, which holds `key`. */
    method Send(r: nat, key: Pubkey)
      requires Valid() && WorkersWaiting() && r < c.nReaders
      requires machine.readers[r].phase == SendingBatch(key) || machine.readers[r].phase == SendingLast(key)
      modifies this
      ensures Valid() && WorkersWaiting() && OnlyReader(r) && queue == old(queue)
      ensures machine.readers[r] == Reader(if old(machine.readers[r]).phase.SendingBatch? then Routing else Draining,
                                           old(machine.readers[r]).batch)
    {
      var (hash, shard) := c.Route(key);
      while |channels[shard]| >= CHANNEL_CAP
        invariant Valid() && WorkersWaiting() && queue == old(queue)
        invariant machine.readers == old(machine.readers) && machine.coordinator == old(machine.coordinator)
        invariant machine.enqueued == old(machine.enqueued) && machine.done == old(machine.done)
        decreases |channels[shard]|
      {
        ReceiveOne(shard);
      }
      channels := channels[shard := channels[shard] + [Item(hash, key)]];
      Advance(StepReader(r));
    }

    /** Fill a micro-batch from the queue. */
    method FillBatch(r: nat) returns (batch: seq<Pubkey>)
      requires Valid() && WorkersWaiting() && r < c.nReaders && machine.readers[r] == Reader(Filling, [])
      modifies this
      ensures Valid() && WorkersWaiting() && OnlyReader(r)
      ensures machine.readers[r] == Reader(Routing, batch)
      ensures batch + queue == old(queue)
      ensures |batch| == if |old(queue)| < 256 then |old(queue)| else 256
    {
      batch := [];
      while |batch| < BATCH
        invariant Valid() && WorkersWaiting() && OnlyReader(r)
        invariant machine.readers[r] == Reader(Filling, batch) && batch + queue == old(queue) && |batch| <= BATCH
        decreases BATCH - |batch|
      {
        if queue == [] {
          break;
        }
        MoveOne(batch, queue);
        var key := queue[0];
        queue := queue[1..];
        batch := batch + [key];
        Advance(StepReader(r));
      }
      assert queue == [] || |batch| == BATCH;
      assert |old(queue)| == |batch| + |queue|;
      Advance(StepReader(r));
    }

    /** Drain the batch into the shard channels. */
    method RouteBatch(r: nat, batch: seq<Pubkey>)
      requires Valid() && WorkersWaiting() && r < c.nReaders && machine.readers[r] == Reader(Routing, batch)
      modifies this
      ensures Valid() && WorkersWaiting() && OnlyReader(r) && queue == old(queue)
      ensures machine.readers[r] == Reader(Checking, [])
    {
      var rest := batch;
      while rest != []
        invariant Valid() && WorkersWaiting() && OnlyReader(r) && queue == old(queue)
        invariant machine.readers[r] == Reader(Routing, rest)
        decreases |rest|
      {
        var key := rest[0];
        rest := rest[1..];
        Advance(StepReader(r));
        Send(r, key);
      }
      Advance(StepReader(r));
    }

    /** After `done`: what is left in the queue, key by key. */
    method DrainRest(r: nat)
      requires Valid() && WorkersWaiting() && r < c.nReaders && machine.readers[r] == Reader(Draining, [])
      modifies this
      ensures Valid() && WorkersWaiting() && OnlyReader(r) && machine.readers[r].phase.Stopped?
    {
      while queue != []
        invariant Valid() && WorkersWaiting() && OnlyReader(r) && machine.readers[r] == Reader(Draining, [])
        decreases |queue|
      {
        var key := queue[0];
        queue := queue[1..];
        Advance(StepReader(r));
        Send(r, key);
      }
      Advance(StepReader(r));
    }

    /** A reader thread from start to return, the producers having finished. */
    method RunReader(r: nat)
      requires Valid() && WorkersWaiting() && r < c.nReaders && done && machine.readers[r] == Reader(Filling, [])
      modifies this
      ensures Valid() && WorkersWaiting() && OnlyReader(r) && machine.readers[r].phase.Stopped?
    {
      var stopped := false;
      while !stopped
        invariant Valid() && WorkersWaiting() && OnlyReader(r)
        invariant if stopped then machine.readers[r].phase.Stopped? else machine.readers[r] == Reader(Filling, [])
        decreases !stopped
      {
        var batch := FillBatch(r);
        RouteBatch(r, batch);
        Advance(StepReader(r));
        if done {
          DrainRest(r);
          stopped := true;
        }
      }
    }

    /** A worker thread draining its closed channel to the end. */
    method RunWorker(w: nat)
      requires Valid() && w < c.nShards && machine.Closed()
      requires forall v :: w <= v < c.nShards ==> machine.workers[v].phase.Receiving?
      modifies this
      ensures Valid() && machine.workers[w].phase.Finished? && machine.readers == old(machine.readers)
      ensures machine.coordinator == old(machine.coordinator) && machine.enqueued == old(machine.enqueued)
      ensures forall v :: 0 <= v < c.nShards && v != w ==> machine.workers[v] == old(machine.workers[v])
    {
      while channels[w] != []
        invariant Valid() && machine.readers == old(machine.readers) && machine.workers[w].phase.Receiving?
        invariant machine.coordinator == old(machine.coordinator) && machine.enqueued == old(machine.enqueued)
        invariant forall v :: 0 <= v < c.nShards && v != w ==> machine.workers[v] == old(machine.workers[v])
        decreases |channels[w]|
      {
        ReceiveOne(w);
      }
      Advance(StepWorker(w));
    }

    /** The coordinator: join the readers, close the channels, join the workers, signal. */
    method Coordinate()
      requires Valid() && WorkersWaiting() && done
      requires machine.coordinator == JoiningReaders(0)
      requires forall q :: 0 <= q < c.nReaders ==> machine.readers[q] == Reader(Filling, [])
      modifies this
      ensures Valid() && machine.coordinator.Signalled? && machine.enqueued == old(machine.enqueued)
    {
      for r := 0 to c.nReaders
        invariant Valid() && WorkersWaiting() && done
        invariant machine.coordinator == JoiningReaders(r) && machine.enqueued == old(machine.enqueued)
        invariant forall q :: r <= q < c.nReaders ==> machine.readers[q] == Reader(Filling, [])
      {
        RunReader(r);
        Advance(StepCoordinator);
      }
      Advance(StepCoordinator);
      for w := 0 to c.nShards
        invariant Valid() && machine.coordinator == JoiningWorkers(w) && machine.enqueued == old(machine.enqueued)
        invariant forall v :: w <= v < c.nShards ==> machine.workers[v].phase.Receiving?
      {
        RunWorker(w);
        Advance(StepCoordinator);
      }
      Advance(StepCoordinator);
    }
  }

  lemma MoveOne(front: seq<Pubkey>, back: seq<Pubkey>)
    requires back != []
    ensures front + back == (front + [back[0]]) + back[1..]
  {
  }

  /** What the loops return once completion is signalled: one call for each distinct key,
      with the key's hash and on the shard it names, and with one reader in enqueue order. */
  ghost predicate Delivered(c: Config, keys: seq<Pubkey>, calls: seq<Call>)
    requires c.Valid()
  {
    && (forall key :: TimesCalled(calls, key) == if key in keys then 1 else 0)
    && (forall i :: 0 <= i < |calls| ==>
          && calls[i].hash == c.hash(calls[i].key)
          && calls[i].shard < c.nShards && (calls[i].hash - calls[i].shard) % c.nShards == 0)
    && (c.nReaders == 1 ==> forall w :: 0 <= w < c.nShards ==> CallsOf(calls, w) == Dedup(ForShard(c, keys, w)))
  }

  lemma SignalledDelivers(c: Config, s: State)
    requires Reachable(c, s) && s.coordinator.Signalled?
    ensures Delivered(c, s.enqueued, s.calls)
  {
    ExactlyOnce(c, s);
    if c.nReaders == 1 {
      forall w | 0 <= w < c.nShards
        ensures CallsOf(s.calls, w) == Dedup(ForShard(c, s.enqueued, w))
      {
        SingleReaderOrder(c, s, w);
      }
    }
  }

  /** The pipeline on a queue already filled: each distinct key is called back exactly once,
      and with one reader in enqueue order per shard. */
  method ShardDedupPubkeys(c: Config, keys: seq<Pubkey>) returns (calls: seq<Call>)
    requires c.Valid()
    ensures Delivered(c, keys, calls)
  {
    var p := new Pipeline(c);
    for i := 0 to |keys|
      invariant p.Valid() && p.c == c && fresh(p) && !p.done && p.WorkersWaiting()
      invariant p.machine.coordinator == JoiningReaders(0) && p.machine.enqueued == keys[..i]
      invariant forall q :: 0 <= q < c.nReaders ==> p.machine.readers[q] == Reader(Filling, [])
    {
      p.queue := p.queue + [keys[i]];
      p.Advance(Enqueue(keys[i]));
      assert keys[..i + 1] == keys[..i] + [keys[i]];
    }
    p.done := true;
    p.Advance(SetDone);
    p.Coordinate();
    assert keys[..|keys|] == keys;
    calls := p.calls;
    SignalledDelivers(c, p.machine);
  }
}
