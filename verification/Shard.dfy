/**
 The sharded dedup pipeline of src/shard.rs as a state machine.

 A state holds everything the threads share or own; an action is one atomic step of
 one thread.  Which thread moves next is never fixed, so a run is any interleaving.
 Operations of the queue, the channels and the `done` flag are atomic.
 */
module Shard {

  /** The 32-byte key; the pipeline only compares keys and hashes them. */
  type Pubkey(==, !new)

  const CHANNEL_CAP: nat := 65536
  const BATCH: nat := 256

  datatype Item = Item(hash: nat, key: Pubkey)

  /** One invocation of the user's callback. */
  datatype Call = Call(shard: nat, hash: nat, key: Pubkey)

  /** The arguments of the pipeline; the hash function is left unspecified. */
  datatype Config = Config(nShards: nat, nReaders: nat, hash: Pubkey -> nat) {
    predicate Valid() { nShards >= 1 && nReaders >= 1 }

    function Route(key: Pubkey): (r: (nat, nat))
      requires Valid()
      ensures r.1 < nShards
    {
      (hash(key), hash(key) % nShards)
    }
  }

  /** Where a reader thread is in its loop; the `Sending` phases hold the key in hand. */
  datatype ReaderPhase =
    | Filling
    | Routing
    | SendingBatch(key: Pubkey)
    | Checking
    | Draining
    | SendingLast(key: Pubkey)
    | Stopped

  datatype Reader = Reader(phase: ReaderPhase, batch: seq<Pubkey>)

  datatype WorkerPhase = Receiving | Handling(item: Item) | Finished

  /** A shard worker; `handled` is history: every key it has dealt with, in order. */
  datatype Worker = Worker(phase: WorkerPhase, seen: set<Pubkey>, handled: seq<Pubkey>)

  datatype Coordinator = JoiningReaders(next: nat) | JoiningWorkers(next: nat) | Signalled

  /** `enqueued`, `calls` and `dropped` are history: keys pushed by producers, callbacks
      made, and keys lost because a send found its worker gone (the error the readers
      discard). */
  datatype State = State(
    queue: seq<Pubkey>,
    done: bool,
    readers: seq<Reader>,
    channels: seq<seq<Item>>,
    workers: seq<Worker>,
    coordinator: Coordinator,
    enqueued: seq<Pubkey>,
    calls: seq<Call>,
    dropped: seq<Pubkey>) {

    /** The sending halves are gone once every reader has returned and the coordinator
        has dropped its own copy. */
    predicate Closed() { !coordinator.JoiningReaders? }
  }

  datatype Action =
    | Enqueue(key: Pubkey)
    | SetDone
    | StepReader(r: nat)
    | StepWorker(w: nat)
    | StepCoordinator
  {
    predicate System() { StepReader? || StepWorker? || StepCoordinator? }
  }

  function Init(c: Config): State
    requires c.Valid()
  {
    State([], false,
          seq(c.nReaders, _ => Reader(Filling, [])),
          seq(c.nShards, _ => []),
          seq(c.nShards, _ => Worker(Receiving, {}, [])),
          JoiningReaders(0), [], [], [])
  }

  predicate Shaped(c: Config, s: State) {
    && c.Valid()
    && |s.readers| == c.nReaders
    && |s.channels| == |s.workers| == c.nShards
  }

  /** A send goes through when there is room, or fails at once when the worker is gone. */
  predicate CanSend(c: Config, s: State, key: Pubkey)
    requires Shaped(c, s)
  {
    var shard := c.Route(key).1;
    s.workers[shard].phase.Finished? || |s.channels[shard]| < CHANNEL_CAP
  }

  predicate Enabled(c: Config, s: State, a: Action) {
    && Shaped(c, s)
    && match a
       case Enqueue(_) => !s.done
       case SetDone => !s.done
       case StepReader(r) =>
         && r < c.nReaders
         && (match s.readers[r].phase
             case SendingBatch(key) => CanSend(c, s, key)
             case SendingLast(key) => CanSend(c, s, key)
             case Stopped => false
             case _ => true)
       case StepWorker(w) =>
         && w < c.nShards
         && (match s.workers[w].phase
             case Receiving => s.channels[w] != [] || s.Closed()
             case Handling(_) => true
             case Finished => false)
       case StepCoordinator =>
         match s.coordinator
         case JoiningReaders(n) => n >= c.nReaders || s.readers[n].phase.Stopped?
         case JoiningWorkers(n) => n >= c.nShards || s.workers[n].phase.Finished?
         case Signalled => false
  }

  function Send(c: Config, s: State, key: Pubkey): (t: State)
    requires Shaped(c, s)
    ensures Shaped(c, t)
  {
    var (hash, shard) := c.Route(key);
    if s.workers[shard].phase.Finished? then
      s.(dropped := s.dropped + [key])
    else
      s.(channels := s.channels[shard := s.channels[shard] + [Item(hash, key)]])
  }

  function ReaderStep(c: Config, s: State, r: nat): (t: State)
    requires Enabled(c, s, StepReader(r))
    ensures Shaped(c, t)
  {
    var me := s.readers[r];
    match me.phase
    case Filling =>
      if |me.batch| < BATCH && s.queue != [] then
        s.(queue := s.queue[1..], readers := s.readers[r := Reader(Filling, me.batch + [s.queue[0]])])
      else
        s.(readers := s.readers[r := Reader(Routing, me.batch)])
    case Routing =>
      if me.batch != [] then
        s.(readers := s.readers[r := Reader(SendingBatch(me.batch[0]), me.batch[1..])])
      else
        s.(readers := s.readers[r := Reader(Checking, [])])
    case SendingBatch(key) =>
      Send(c, s, key).(readers := s.readers[r := Reader(Routing, me.batch)])
    case Checking =>
      s.(readers := s.readers[r := Reader(if s.done then Draining else Filling, me.batch)])
    case Draining =>
      if s.queue != [] then
        s.(queue := s.queue[1..], readers := s.readers[r := Reader(SendingLast(s.queue[0]), me.batch)])
      else
        s.(readers := s.readers[r := Reader(Stopped, me.batch)])
    case SendingLast(key) =>
      Send(c, s, key).(readers := s.readers[r := Reader(Draining, me.batch)])
    case Stopped => s
  }

  /** What a worker does with one received item: insert it, and call back if it was new. */
  function Handle(s: State, w: nat, item: Item): State
    requires w < |s.workers|
  {
    var me := s.workers[w];
    s.(workers := s.workers[w := Worker(Receiving, me.seen + {item.key}, me.handled + [item.key])],
       calls := if item.key in me.seen then s.calls else s.calls + [Call(w, item.hash, item.key)])
  }

  function WorkerStep(c: Config, s: State, w: nat): (t: State)
    requires Enabled(c, s, StepWorker(w))
    ensures Shaped(c, t)
  {
    var me := s.workers[w];
    match me.phase
    case Receiving =>
      if s.channels[w] != [] then
        s.(channels := s.channels[w := s.channels[w][1..]],
           workers := s.workers[w := me.(phase := Handling(s.channels[w][0]))])
      else
        s.(workers := s.workers[w := me.(phase := Finished)])
    case Handling(item) => Handle(s, w, item)
    case Finished => s
  }

  function CoordinatorStep(c: Config, s: State): (t: State)
    requires Enabled(c, s, StepCoordinator)
    ensures Shaped(c, t)
  {
    match s.coordinator
    case JoiningReaders(n) =>
      s.(coordinator := if n < c.nReaders then JoiningReaders(n + 1) else JoiningWorkers(0))
    case JoiningWorkers(n) =>
      s.(coordinator := if n < c.nShards then JoiningWorkers(n + 1) else Signalled)
    case Signalled => s
  }

  function Apply(c: Config, s: State, a: Action): (t: State)
    requires Enabled(c, s, a)
    ensures Shaped(c, t)
  {
    match a
    case Enqueue(key) => s.(queue := s.queue + [key], enqueued := s.enqueued + [key])
    case SetDone => s.(done := true)
    case StepReader(r) => ReaderStep(c, s, r)
    case StepWorker(w) => WorkerStep(c, s, w)
    case StepCoordinator => CoordinatorStep(c, s)
  }

  /** A run: states `ss`, each got from the one before by the action between them. */
  ghost predicate IsRun(c: Config, ss: seq<State>, acts: seq<Action>) {
    && |ss| == |acts| + 1
    && forall i :: 0 <= i < |acts| ==> Enabled(c, ss[i], acts[i]) && ss[i + 1] == Apply(c, ss[i], acts[i])
  }

  ghost predicate Reachable(c: Config, s: State) {
    c.Valid() && exists ss, acts :: IsRun(c, ss, acts) && ss[0] == Init(c) && ss[|acts|] == s
  }
}
