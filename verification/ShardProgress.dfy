/** The pipeline never deadlocks, and once `done` is set every run reaches completion. */
module ShardProgress {
  import opened Shard
  import opened Sums
  import opened ShardSafety

  // ---- no deadlock ----------------------------------------------------------------------

  /** Neither a channel nor a micro-batch ever exceeds its capacity. */
  lemma Capacities(c: Config, s: State)
    requires Reachable(c, s)
    ensures forall w :: 0 <= w < |s.channels| ==> |s.channels[w]| <= 65536
    ensures forall r :: 0 <= r < |s.readers| ==> |s.readers[r].batch| <= 256
  {
    ReachableInv(c, s);
    forall w | 0 <= w < |s.channels|
      ensures |s.channels[w]| <= 65536
    {
      assert WorkerOk(c, s, w);
    }
    forall r | 0 <= r < |s.readers|
      ensures |s.readers[r].batch| <= 256
    {
      assert ReaderOk(s, s.readers[r]);
    }
  }

  /** A reader can only wait for room in a channel, and then that shard's worker can move. */
  lemma BlockedReaderHasWorker(c: Config, s: State, r: nat)
    requires Reachable(c, s) && r < c.nReaders
    ensures Shaped(c, s)
    ensures !s.readers[r].phase.Stopped? && !Enabled(c, s, StepReader(r)) ==>
              && (s.readers[r].phase.SendingBatch? || s.readers[r].phase.SendingLast?)
              && |s.channels[c.Route(s.readers[r].phase.key).1]| == 65536
              && Enabled(c, s, StepWorker(c.Route(s.readers[r].phase.key).1))
  {
    ReachableInv(c, s);
    if !s.readers[r].phase.Stopped? && !Enabled(c, s, StepReader(r)) {
      var w := c.Route(s.readers[r].phase.key).1;
      assert WorkerOk(c, s, w);
    }
  }

  /** Until completion is signalled some thread of the pipeline can take a step. */
  lemma NeverStuck(c: Config, s: State) returns (a: Action)
    requires Reachable(c, s) && !s.coordinator.Signalled?
    ensures a.System() && Enabled(c, s, a)
  {
    ReachableInv(c, s);
    a := StepCoordinator;
    if !Enabled(c, s, a) {
      match s.coordinator
      case JoiningReaders(r) =>
        a := StepReader(r);
        if !Enabled(c, s, a) {
          BlockedReaderHasWorker(c, s, r);
          a := StepWorker(c.Route(s.readers[r].phase.key).1);
        }
      case JoiningWorkers(w) => a := StepWorker(w);
    }
  }

  // ---- termination ----------------------------------------------------------------------

  /** A key weighs less the further it has come. */
  ghost function ReaderWork(r: Reader): nat {
    4 * |r.batch| + match r.phase
                    case Filling => 4
                    case Routing => 3
                    case SendingBatch(_) => 3 + 3
                    case Checking => 2
                    case Draining => 1
                    case SendingLast(_) => 1 + 3
                    case Stopped => 0
  }

  ghost function ChannelWork(items: seq<Item>): nat { 2 * |items| }

  ghost function WorkerWork(w: Worker): nat {
    match w.phase
    case Receiving => 1
    case Handling(_) => 2
    case Finished => 0
  }

  ghost function CoordinatorWork(c: Config, s: State): int {
    match s.coordinator
    case JoiningReaders(n) => c.nReaders - n + c.nShards + 3
    case JoiningWorkers(n) => c.nShards - n + 1
    case Signalled => 0
  }

  /** An upper bound on the steps the pipeline can still take once `done` is set. */
  ghost function Work(c: Config, s: State): int {
    5 * |s.queue| + Total(s.readers, ReaderWork) + Total(s.channels, ChannelWork)
    + Total(s.workers, WorkerWork) + CoordinatorWork(c, s)
  }

  lemma ReaderWorks(c: Config, s: State, r: nat)
    requires Inv(c, s) && s.done && Enabled(c, s, StepReader(r))
    ensures Work(c, ReaderStep(c, s, r)) < Work(c, s)
  {
    var me, t := s.readers[r], ReaderStep(c, s, r);
    assert ReaderOk(s, me);
    TotalUpdate(s.readers, ReaderWork, r, t.readers[r]);
    assert t.readers == s.readers[r := t.readers[r]];
    if me.phase.SendingBatch? || me.phase.SendingLast? {
      var w := c.Route(me.phase.key).1;
      WorkerAlive(c, s, r, w);
      TotalUpdate(s.channels, ChannelWork, w, t.channels[w]);
      assert t.channels == s.channels[w := t.channels[w]];
    }
  }

  lemma WorkerWorks(c: Config, s: State, w: nat)
    requires Enabled(c, s, StepWorker(w))
    ensures Work(c, WorkerStep(c, s, w)) < Work(c, s)
  {
    var t := WorkerStep(c, s, w);
    TotalUpdate(s.workers, WorkerWork, w, t.workers[w]);
    TotalUpdate(s.channels, ChannelWork, w, t.channels[w]);
    assert t.workers == s.workers[w := t.workers[w]];
    assert t.channels == s.channels[w := t.channels[w]];
  }

  /** After `done`, every enabled step is a system step and brings completion nearer. */
  lemma StepWorks(c: Config, s: State, a: Action)
    requires Inv(c, s) && s.done && Enabled(c, s, a)
    ensures a.System() && Apply(c, s, a).done && Work(c, Apply(c, s, a)) < Work(c, s)
  {
    match a
    case StepReader(r) => ReaderWorks(c, s, r);
    case StepWorker(w) => WorkerWorks(c, s, w);
    case StepCoordinator =>
  }

  lemma RunExtends(c: Config, ss: seq<State>, acts: seq<Action>, a: Action)
    requires IsRun(c, ss, acts) && Enabled(c, ss[|acts|], a)
    ensures IsRun(c, ss + [Apply(c, ss[|acts|], a)], acts + [a])
  {
  }

  lemma ReachableStep(c: Config, s: State, a: Action)
    requires Reachable(c, s) && Enabled(c, s, a)
    ensures Reachable(c, Apply(c, s, a))
  {
    var ss, acts :| IsRun(c, ss, acts) && ss[0] == Init(c) && ss[|acts|] == s;
    RunExtends(c, ss, acts, a);
    var ss', acts' := ss + [Apply(c, s, a)], acts + [a];
    assert ss'[0] == Init(c) && ss'[|acts'|] == Apply(c, s, a);
  }

  lemma {:induction false} RunReachable(c: Config, ss: seq<State>, acts: seq<Action>, i: nat)
    requires IsRun(c, ss, acts) && Reachable(c, ss[0]) && i <= |acts|
    ensures Reachable(c, ss[i])
  {
    if i > 0 {
      RunReachable(c, ss, acts, i - 1);
      ReachableStep(c, ss[i - 1], acts[i - 1]);
    }
  }

  lemma {:induction false} RunBounded(c: Config, ss: seq<State>, acts: seq<Action>, i: nat)
    requires IsRun(c, ss, acts) && Inv(c, ss[0]) && ss[0].done && i <= |acts|
    ensures Inv(c, ss[i]) && ss[i].done && Work(c, ss[i]) + i <= Work(c, ss[0])
  {
    if i > 0 {
      RunBounded(c, ss, acts, i - 1);
      StepWorks(c, ss[i - 1], acts[i - 1]);
      StepKeeps(c, ss[i - 1], acts[i - 1]);
    }
  }

  /** Whatever the scheduler does after `done`, it can do only `Work` many steps, and if it
      can do no more then completion has been signalled. */
  lemma EveryRunCompletes(c: Config, ss: seq<State>, acts: seq<Action>)
    requires IsRun(c, ss, acts) && Reachable(c, ss[0]) && ss[0].done
    ensures |acts| <= Work(c, ss[0])
    ensures (forall a :: !Enabled(c, ss[|acts|], a)) <==> ss[|acts|].coordinator.Signalled?
  {
    ReachableInv(c, ss[0]);
    RunBounded(c, ss, acts, |acts|);
    RunReachable(c, ss, acts, |acts|);
    var s := ss[|acts|];
    if s.coordinator.Signalled? {
      AllQuiet(c, s);
    } else {
      var a := NeverStuck(c, s);
    }
  }

  lemma AllQuiet(c: Config, s: State)
    requires Inv(c, s) && s.done && s.coordinator.Signalled?
    ensures forall a :: !Enabled(c, s, a)
  {
    assert AllStopped(s);
  }

  /** One more step of some thread. */
  lemma Onward(c: Config, s: State) returns (t: State)
    requires Reachable(c, s) && s.done && !s.coordinator.Signalled?
    ensures Reachable(c, t) && t.done && t.enqueued == s.enqueued
    ensures Inv(c, s) && Inv(c, t) && Work(c, t) < Work(c, s)
  {
    ReachableInv(c, s);
    var a := NeverStuck(c, s);
    StepWorks(c, s, a);
    StepKeeps(c, s, a);
    SystemKeepsHistory(c, s, a);
    ReachableStep(c, s, a);
    t := Apply(c, s, a);
  }

  /** From every reachable state the pipeline can be driven to completion. */
  lemma {:induction false} CanComplete(c: Config, s: State) returns (t: State)
    requires Reachable(c, s) && s.done
    ensures Reachable(c, t) && t.coordinator.Signalled? && t.enqueued == s.enqueued
    decreases Work(c, s)
  {
    t := s;
    if !s.coordinator.Signalled? {
      var next := Onward(c, s);
      t := CanComplete(c, next);
    }
  }
}
