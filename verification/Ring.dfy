/**
 The broadcast ring of src/buffer.rs with each call taken as atomic: the slots and the
 cursors refine an append-only log of every item ever pushed.
 */
module Ring {
  import opened Options
  import opened RingIndex

  // ---- what a consumer sees of the log -------------------------------------------------

  /** One consumer against the log: where it started, its cursor, the sequence numbers it
      was given and how many it jumped over. */
  datatype Reading = Reading(start: nat, cursor: nat, got: seq<nat>, skipped: nat)

  function SaturatingSub(a: nat, b: nat): nat { if a >= b then a - b else 0 }

  ghost function Max(a: int, b: int): int { if a >= b then a else b }

  /** How far the consumer is behind a log of `writes` entries. */
  ghost function LagOf(r: Reading, writes: nat): nat {
    SaturatingSub(writes, r.cursor)
  }

  /** The sequence number a pop delivers, if any. */
  ghost function Target(r: Reading, writes: nat, size: nat): Option<nat> {
    if r.cursor >= writes then None else Some(Max(r.cursor, writes - size))
  }

  ghost function Popped(r: Reading, writes: nat, size: nat): Reading {
    match Target(r, writes, size)
    case None => r
    case Some(t) => Reading(r.start, t + 1, r.got + [t], r.skipped + (t - r.cursor))
  }

  /** What happens between a consumer's creation and now. */
  datatype Event<T> = Pushed(item: T) | Polled

  /** The log and the consumer after `events`, for a consumer created on `log`. */
  ghost function Follow<T>(log: seq<T>, events: seq<Event<T>>, size: nat): (seq<T>, Reading) {
    if events == [] then (log, Reading(|log|, |log|, [], 0))
    else
      var (before, r) := Follow(log, events[..|events| - 1], size);
      match events[|events| - 1]
      case Pushed(item) => (before + [item], r)
      case Polled => (before, Popped(r, |before|, size))
  }

  ghost predicate Ascending(ns: seq<nat>) {
    forall i, j :: 0 <= i < j < |ns| ==> ns[i] < ns[j]
  }

  /** The invariant of a consumer against a log of `writes` entries. */
  ghost predicate Sound(r: Reading, writes: nat) {
    && r.start <= r.cursor <= writes
    && Ascending(r.got)
    && (forall i :: 0 <= i < |r.got| ==> r.start <= r.got[i] < r.cursor)
    && |r.got| + r.skipped == r.cursor - r.start
    && (r.skipped == 0 ==> forall i :: 0 <= i < |r.got| ==> r.got[i] == r.start + i)
  }

  lemma PopSound(r: Reading, writes: nat, size: nat)
    requires Sound(r, writes) && size >= 1
    ensures Sound(Popped(r, writes, size), writes)
  {
  }

  lemma {:induction false} FollowSound<T>(log: seq<T>, events: seq<Event<T>>, size: nat)
    requires size >= 1
    ensures var (now, r) := Follow(log, events, size);
            log <= now && r.start == |log| && Sound(r, |now|)
  {
    if events != [] {
      FollowSound(log, events[..|events| - 1], size);
      var (before, r) := Follow(log, events[..|events| - 1], size);
      PopSound(r, |before|, size);
    }
  }

  /** Delivered plus skipped plus lag is everything written since the consumer started. */
  lemma Accounting<T>(log: seq<T>, events: seq<Event<T>>, size: nat)
    requires size >= 1
    ensures var (now, r) := Follow(log, events, size);
            |r.got| + r.skipped + LagOf(r, |now|) == |now| - |log|
  {
    FollowSound(log, events, size);
  }

  /** The consumer has been given exactly the contiguous run from its start to its cursor
      if and only if no pop ever skipped. */
  lemma ContiguousUnlessLapped<T>(log: seq<T>, events: seq<Event<T>>, size: nat)
    requires size >= 1
    ensures var (now, r) := Follow(log, events, size);
            && (forall k :: 0 <= k < |r.got| ==> |log| <= r.got[k] < |now|)
            && r.cursor >= |log|
            && (r.skipped == 0 <==> r.got == seq(r.cursor - |log|, (i: nat) => |log| + i))
  {
    FollowSound(log, events, size);
  }

  /** Every entry a consumer was jumped over had already been overwritten: of the entries
      between its start and its cursor, those it was not given are a ring length or more
      behind. */
  lemma {:induction false} LostOnlyOverwritten<T>(log: seq<T>, events: seq<Event<T>>, size: nat)
    requires size >= 1
    ensures var (now, r) := Follow(log, events, size);
            forall j :: |log| <= j < r.cursor ==> j in r.got || j + size < |now|
  {
    if events != [] {
      var init := events[..|events| - 1];
      LostOnlyOverwritten(log, init, size);
      FollowSound(log, init, size);
      var (before, r) := Follow(log, init, size);
      var (now, r') := Follow(log, events, size);
      assert forall j :: j in r.got ==> j in r'.got;
      if r'.cursor > r.cursor {
        assert r'.got[|r'.got| - 1] == r'.cursor - 1;
      }
    }
  }

  // ---- the ring itself ------------------------------------------------------------------

  datatype Slot<+T> = Uninit | Written(item: T)

  class RingBuffer<T> {
    ghost const bits: nat
    const size: nat
    var writeCursor: nat
    const slots: array<Slot<T>>
    /** Every item ever pushed, by sequence number. */
    ghost var log: seq<T>

    ghost predicate Valid()
      reads this, slots
    {
      && size == slots.Length == Pow2(bits)
      && writeCursor == |log|
      && forall i :: Max(0, |log| - size) <= i < |log| ==> slots[i % size] == Written(log[i])
    }

    constructor (ghost k: nat, n: nat)
      requires n == Pow2(k)
      ensures Valid() && log == [] && size == n && fresh(slots)
    {
      bits, size, writeCursor, log := k, n, 0, [];
      slots := new Slot<T>[n](_ => Uninit);
    }

    /** `seq & RING_MASK`. */
    function Index(seqno: nat): (i: nat)
      requires Valid()
      reads this, slots
      ensures i < slots.Length && i == seqno % size
    {
      MaskIsModulo(seqno, bits);
      BitAnd(seqno, size - 1)
    }

    /** Write into a claimed slot: the entry it overwrites has just left the window. */
    method WriteSlot(seqno: nat, tx: T)
      requires size == slots.Length == Pow2(bits) && writeCursor == |log| + 1 && seqno == |log|
      requires forall i :: Max(0, |log| - size) <= i < |log| ==> slots[i % size] == Written(log[i])
      modifies this`log, slots
      ensures Valid() && log == old(log) + [tx]
    {
      MaskIsModulo(seqno, bits);
      var idx := BitAnd(seqno, size - 1);
      forall i | Max(0, |log| + 1 - size) <= i < |log|
        ensures i % size != idx
      {
        DistinctSlots(i, seqno, size);
      }
      slots[idx] := Written(tx);
      log := log + [tx];
    }

    /** A weak compare-exchange may fail without cause; `spurious` says how often it does. */
    method Push(tx: T, spurious: nat) returns (seqno: nat)
      requires Valid()
      modifies this, slots
      ensures Valid()
      ensures seqno == old(|log|) && log == old(log) + [tx]
    {
      var failures := spurious;
      var claimed := false;
      seqno := 0;
      while !claimed
        invariant size == slots.Length == Pow2(bits) && log == old(log)
        invariant forall i :: Max(0, |log| - size) <= i < |log| ==> slots[i % size] == Written(log[i])
        invariant writeCursor == |log| + if claimed then 1 else 0
        invariant claimed ==> seqno == |log|
        decreases !claimed, failures
      {
        var current := writeCursor;
        if failures > 0 {
          failures := failures - 1;
        } else if writeCursor == current {
          writeCursor := current + 1;
          seqno, claimed := current, true;
        }
      }
      WriteSlot(seqno, tx);
    }

    /** The strong compare-exchange: called atomically it cannot lose the race. */
    method TryPush(tx: T) returns (r: Option<nat>)
      requires Valid()
      modifies this, slots
      ensures Valid()
      ensures r == Some(old(|log|)) && log == old(log) + [tx]
    {
      var current := writeCursor;
      if writeCursor == current {
        writeCursor := current + 1;
        WriteSlot(current, tx);
        r := Some(current);
      } else {
        r := None;
      }
    }
  }

  /** The ring at the size the crate fixes. */
  method NewRing<T>() returns (ring: RingBuffer<T>)
    ensures fresh(ring) && ring.Valid() && ring.log == [] && ring.size == 8192
  {
    RingSizeIsPowerOfTwo();
    ring := new RingBuffer<T>(13, RING_SIZE);
  }

  class Consumer<T> {
    const ring: RingBuffer<T>
    var readCursor: nat
    /** History: this consumer's dealings with the log. */
    ghost var reading: Reading

    ghost predicate Valid()
      reads this, ring, ring.slots
    {
      && ring.Valid()
      && readCursor == reading.cursor
      && Sound(reading, |ring.log|)
    }

    /** Starts at the current write position. */
    constructor (r: RingBuffer<T>)
      requires r.Valid()
      ensures Valid() && ring == r && reading == Reading(|r.log|, |r.log|, [], 0)
    {
      ring, readCursor, reading := r, r.writeCursor, Reading(|r.log|, |r.log|, [], 0);
    }

    /** Pops the oldest entry, from the read cursor on, that is still in the ring, from a slot
        that holds it; every entry jumped over has been overwritten. */
    method TryPop() returns (r: Option<Slot<T>>)
      requires Valid()
      modifies this
      ensures Valid()
      ensures reading == Popped(old(reading), |ring.log|, ring.size)
      ensures old(readCursor) >= |ring.log| ==> r == None && readCursor == old(readCursor)
      ensures old(readCursor) < |ring.log| ==>
                var t := readCursor - 1;
                && old(readCursor) <= t < |ring.log| <= t + ring.size
                && r == Some(Written(ring.log[t]))
                && reading.got == old(reading).got + [t]
                && (old(readCursor) < t ==> t - 1 + ring.size < |ring.log|)
    {
      var writePos := ring.writeCursor;
      if readCursor >= writePos {
        return None;
      }
      var distance := writePos - readCursor;
      if distance > ring.size {
        readCursor := SaturatingSub(writePos, ring.size);
      }
      var idx := ring.Index(readCursor);
      PopSound(reading, |ring.log|, ring.size);
      reading := Popped(reading, |ring.log|, ring.size);
      readCursor := readCursor + 1;
      r := Some(ring.slots[idx]);
    }

    method Lag() returns (n: nat)
      requires Valid()
      ensures n == |ring.log| - reading.start - |reading.got| - reading.skipped
    {
      n := SaturatingSub(ring.writeCursor, readCursor);
    }

    method IsLapped() returns (lapped: bool)
      requires Valid()
      ensures lapped <==> Popped(reading, |ring.log|, ring.size).skipped > reading.skipped
    {
      var n := Lag();
      lapped := n > ring.size;
    }
  }
}
