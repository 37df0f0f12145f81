# Catscope zero-hop: verified model

A Dafny model of five parts of the catscope-zerohop crate, with proofs about every input,
every run and every interleaving.

- **Sharded dedup pipeline** (`Shard*.dfy`). Producers, readers, shard workers and the
  coordinator are threads of one state machine; an action is one atomic step of one thread,
  and a run is any interleaving. Histories record what was enqueued and every callback.
  `ShardThreads.dfy` has the thread bodies as loops over mutable fields and shows that they
  are a run of the machine.
- **Broadcast ring** (`Ring*.dfy`). `Ring.dfy` has the ring and its consumers as objects
  whose calls are atomic and refine an append-only log. `RingSteps.dfy` and
  `RingStepSafety.dfy` take the same code one load, compare-exchange, slot write and slot
  read at a time.
- **Transaction wire format and builder** (`Bytes.dfy`, `Wire*.dfy`, `Builder*.dfy`,
  `ResultCodec.dfy`). The writer appends memory images; the parser moves an offset over
  untrusted bytes and returns positions only. The builder is modelled both as functions on
  transactions and as mutable objects.
- **Counted queue and two-queue ring** (`CountedQueue.dfy`, `CounterSteps.dfy`,
  `QueueRing*.dfy`), each with atomic calls and again with split accesses.
- **Delete-notification filter** (`DeleteFilter.dfy`), over whole interleaved traces.

## Conventions

Memory is sequentially consistent and library queues and channels are atomic FIFOs. A panic
is an absent result or a false flag. Machine integers are bounded where the width matters:
64-bit checked and wrapping operations, 32-bit lengths, 16-bit offsets and 8-bit counts are
written out. The ring's 64-bit cursor is assumed not to wrap, and arithmetic on 8-bit counts
wraps as in a release build (a debug build would panic there instead). A failed send because
a worker is gone is modelled, and shown never to happen. The hash function is arbitrary.

## Where the code does not do what its text says

The model follows the code; each point names a failing run and the exact condition under
which the stated promise holds.

- src/buffer.rs:198 says a pop reads a slot the producer has written. The cursor moves before
  the slot is filled, so a pop can read an unwritten slot (`PopCanReadUnwritten`). As long as
  no claim stays unwritten for a whole ring length of later claims, a pop sent to number t
  gets its own item exactly when the writer of t has finished and the writer one lap later
  has not (`TimelyReadIsOwnIff`). Without that, on a ring of any size, a writer a whole lap
  behind can put its old item over a finished newer one (`LateWriterOverwrites`).
- src/store.rs:399 calls the account list the accounts touched by the transaction. Stored
  chunk indices stay zero, so closing a writer always adds the first chunk
  (`AccountList`); the list can miss accounts (`AccountListCanMiss`) and is complete exactly
  when every account written occurs in the first chunk as its table entry cuts it
  (`AccountListCompleteIff`). For the same reason an instruction's accessors return its own
  chunk exactly when that equals this first chunk (`ReadsOwnChunkIff`); in the run of
  `AccountListCanMiss` the second instruction reads the first one's account.
- Offsets are cut to 16 bits and inner counts to 8 bits (src/store.rs:683, 885, 899); the
  tables end at their buffers, and the counts add up, exactly below those limits
  (`TablesEndIff`, `CountsSumIff`). `TablesCanWrap` and `CountsCanWrap` are the first runs
  beyond them.
- The test at src/store.rs:1299-1325 drops a writer whose chunks were never set; closing such
  a writer fails (`DropUnused`). A writer succeeds exactly when each chunk was filled exactly
  once (`UseWriter`).
- src/queue.rs:99 says the count may be slightly inaccurate. Sequentially it is off by at
  most one (`LenExactly`). Concurrently it differs from the size by exactly the operations
  halfway through, the pops that missed and the counts that resets overwrote
  (`CountAccounting`); with nothing in flight it is exact if and only if the last two cancel
  (`QuietCountIff`). It can then be above the size by the number of threads and no more
  (`QuietOvercount`, `OvercountAttained`), but below it by any amount (`CountCanMissAll`).

## Model

| member | source | states |
|---|---|---|
| ShardSafety.StepKeeps | src/shard.rs:134-193 | every step of every thread keeps the pipeline invariant: routing, capacities, shutdown order, and multiset conservation of keys across queue, batches, hands, channels and processed keys |
| ShardSafety.AtMostOnce | src/shard.rs:134-138 | in every reachable state a key has been called back at most once, only if enqueued, and exactly when its own shard has handled it |
| ShardSafety.ExactlyOnce | src/shard.rs:134-216 | when completion is signalled the callback has been made exactly once for each distinct key ever enqueued and for no other, with the key's hash, on the shard congruent to it modulo the number of shards, and no send was lost |
| ShardSafety.CalledOnItsShard | src/shard.rs:31-38 | in every reachable state every callback carries the hash of its key and was made on the shard congruent to that hash |
| ShardProgress.Capacities | src/shard.rs:112-114 | no channel ever holds more than 65536 items and no micro-batch more than 256 |
| ShardProgress.BlockedReaderHasWorker | src/shard.rs:173-178 | a reader that cannot move is sending to a full channel, whose worker can move |
| ShardProgress.NeverStuck | src/shard.rs:163-216 | until completion is signalled some pipeline thread can step: no deadlock |
| ShardProgress.StepWorks | src/shard.rs:181-189 | after `done` every step strictly decreases a measure over key locations and thread phases |
| ShardProgress.EveryRunCompletes | src/shard.rs:79-83 | after `done` every run is finite, bounded by that measure, and can stop only in the completed state |
| ShardProgress.CanComplete | src/shard.rs:205-216 | from every reachable state with `done` set completion is reachable |
| ShardOrder.CallsFollowPrefix | src/shard.rs:134-138 | with one reader, at any moment a shard's calls are the first occurrences in a prefix of its enqueued keys |
| ShardOrder.SingleReaderOrder | src/shard.rs:161-193 | with one reader the completed call sequence of a shard is the enqueue order filtered to it, later repetitions removed |
| ShardThreads.Pipeline.FillBatch | src/shard.rs:165-170 | the fill loop takes the first min(BATCH, length) keys of the queue and is a run of the machine |
| ShardThreads.Pipeline.RunReader | src/shard.rs:160-194 | a reader body run to its end, with back-pressure, is a run of the machine that stops that reader and touches no other |
| ShardThreads.Pipeline.RunWorker | src/shard.rs:134-138 | a worker body drains its closed channel and finishes |
| ShardThreads.ShardDedupPubkeys | src/shard.rs:88-220 | the loops, on a filled queue, call back exactly once per distinct key, with its hash and on the shard congruent to it, in per-shard enqueue order when there is one reader |
| RingIndex.MaskIsModulo | src/buffer.rs:7-10 | masking a sequence number with 2^k - 1 is its remainder modulo 2^k, for every k |
| RingIndex.DistinctSlots | src/buffer.rs:187-195 | two sequence numbers less than a ring length apart use different slots |
| Ring.RingBuffer.Push | src/buffer.rs:100-132 | through the retry loop, appends to the log, returns its old length, and keeps the last ring length of entries in their slots |
| Ring.RingBuffer.TryPush | src/buffer.rs:137-157 | called atomically never fails and appends likewise |
| Ring.Consumer.TryPop | src/buffer.rs:179-203 | returns the oldest log entry, from the read cursor on, that is still in the ring, from a slot that holds it, or nothing when there is no news; every entry jumped over has been overwritten |
| Ring.Consumer.IsLapped | src/buffer.rs:220-222 | true exactly when the next pop will skip entries |
| Ring.Accounting | src/buffer.rs:179-216 | delivered plus skipped plus lag is everything written since the consumer was created, over every history |
| Ring.LostOnlyOverwritten | src/buffer.rs:189-192 | over every history, every entry a consumer passed without being given it is a ring length or more behind |
| Ring.ContiguousUnlessLapped | src/buffer.rs:179-203 | a consumer has received exactly the contiguous run from its start if and only if no pop skipped |
| RingStepSafety.StepKeeps | src/buffer.rs:100-203 | every single access of every thread keeps the ownership and slot-content invariant |
| RingStepSafety.ClaimsAreOwned | src/buffer.rs:100-132 | claimed numbers are exactly those below the cursor, each owned by one call; a call that returned a number owns it and has written its slot |
| RingStepSafety.TryFailsIffBeaten | src/buffer.rs:137-157 | `try_push` gives up exactly when another call claimed the number it had loaded |
| RingStepSafety.ClaimsUnlessBeaten | src/buffer.rs:100-157 | whatever others do between a producer's load and its exchange, it claims the number loaded exactly when nobody claimed since; else `try_push` gives up and `push` loads again |
| RingStepSafety.PushAlone | src/buffer.rs:100-132 | a push that nobody interrupts claims the next number and puts its own item in that slot |
| RingStepSafety.SubscribesAtNewest | src/buffer.rs:72-79 | a consumer starts at the newest claim |
| RingStepSafety.PopReadsOldest | src/buffer.rs:179-203 | whatever others do between its load and its slot read, a pop reads the slot of the oldest number, from its cursor on, at most a ring length behind the claims it saw, and moves just past it; it skips only older ones and never rewinds |
| RingStepSafety.TimelyReadIsOwnIff | src/buffer.rs:179-203 | if every in-flight claim stays within a ring length of the newest, a pop sent to number t gets the item of t if and only if the writer of t has finished and the writer one lap later has not |
| RingStepSafety.TimelyReadIsOwn | src/buffer.rs:100-203 | if every in-flight claim stays within a ring length of the newest, reading a finished number of the last ring length yields its own item |
| RingStepSafety.LateWriterOverwrites | src/buffer.rs:119-126 | without that assumption, on a ring of any size, a run after which a pop sent to a finished number is handed an item one lap older |
| RingStepSafety.PopCanReadUnwritten | src/buffer.rs:198-202 | a run of five accesses after which a pop reads a slot nobody has written |
| Wire.WriteTo | src/store.rs:437-464 | the buffer grows by exactly the encoding, whose bytes the WireLayout rows give |
| WireLayout.HeaderBytes | src/store.rs:422-432 | bytes 0-95: signature, index and the five lengths modulo 2^32, each integer digit by digit, and four zeros |
| WireLayout.InstructionBytes | src/store.rs:786-794 | instruction i is 16 bytes: program in bytes 0-7, data chunk in 8-9, account chunk in 10-11, low byte first; outer ones from byte 96, inner ones after them |
| WireLayout.AccountBytes | src/store.rs:406-416 | then the account list and the account chunks, 8 bytes each, low byte first |
| WireLayout.TableBytes | src/store.rs:406-416 | then the account table and the data table, 2 bytes each, low byte first |
| WireLayout.TrailingBytes | src/store.rs:406-416 | then the inner counts, then the instruction data, which ends the encoding |
| WireLayout.ParserDecision | src/store.rs:558-621 | for every buffer and address: out of range below 96 bytes, else misaligned off an 8-byte boundary, else out of range exactly when the sum of the announced sections exceeds the buffer, else the contiguous sections of the announced lengths |
| Wire.TakeSlice | src/store.rs:563-585 | succeeds exactly when the slice fits and is aligned; the checked operations never decide anything else |
| Wire.TryFrom | src/store.rs:558-639 | for all bytes and addresses: short buffer, then misaligned base, then success if and only if the header plus the announced sections fit |
| Wire.SectionsAligned | src/store.rs:587-621 | from an 8-aligned base every section is aligned for its type, and the whole extent is below 2^64 |
| Wire.LayoutContiguous | src/store.rs:406-416 | the eight sections tile the buffer in order, disjoint and without gaps |
| WireRoundTrip.RoundTripIff | src/store.rs:437-638 | for every padding, suffix and aligned address, parsing what was written shows the same transaction if and only if it was well-formed |
| WireRoundTrip.PrefixFree | src/store.rs:437-464 | no encoding is a prefix of a different transaction's encoding |
| WireReaders.ParseThenWrite | src/store.rs:558-638 | every accepted buffer begins with the encoding of what it parses as, up to padding and the unused header field |
| WireReaders.ReadersAgree | src/store.rs:512-553 | on every accepted buffer the zero-copy and the owned instruction readers give the same program, data and accounts and panic together; all slices are in bounds |
| WireReaders.ReadersSurviveTheWire | src/store.rs:437-638 | every instruction of a well-formed transaction reads the same before serialising and after parsing |
| WireReaders.ReadsNamedChunk | src/store.rs:801-845 | an accessor returns the data, and the accounts, between the table entries its instruction's own indices name, and panics exactly when an index or a range is out of bounds |
| WireReaders.InRangeReads | src/store.rs:811-845 | with non-decreasing tables within their buffers no accessor of an instruction with in-range chunk indices panics |
| Builder.InsertAllCorrect | src/store.rs:921-929 | inserting accounts one by one keeps the list strictly ascending and adds exactly them |
| BuilderRuns.BuiltTables | src/store.rs:877-901 | after any writers the buffers are the concatenated chunks and each table entry is its chunk's end, modulo 2^16 |
| BuilderRuns.ChunkIsOwn | src/store.rs:877-901 | if the totals up to it fit 16 bits, chunk k is what the k-th writer filled in, whatever follows, even overflowing the tables |
| BuilderRuns.TablesMonotone | src/store.rs:877-901 | within 16-bit totals both tables are non-decreasing and within their buffers |
| BuilderRuns.TablesEndIff | src/store.rs:877-901 | the tables end at their buffers' lengths if and only if both totals fit 16 bits |
| BuilderRuns.InnerCounts | src/store.rs:679-699 | the count of each outer instruction is the number of inner writers for it, modulo 256 |
| BuilderRuns.CountsSumIff | src/store.rs:660-699 | the inner counts add up to the number of inner instructions if and only if no outer has more than 255 |
| BuilderRuns.ClosingAdds | src/store.rs:903-930 | closing a writer keeps the list strictly ascending and adds exactly the accounts of the resolved chunk range |
| BuilderRuns.AccountList | src/store.rs:903-930 | after every completed writer the list is strictly ascending and holds exactly the accounts the first table entry reaches |
| BuilderRuns.AccountListCompleteIff | src/store.rs:903-930 | the list holds every account written if and only if all of them occur in the first chunk |
| BuilderRuns.AccountListCanMiss | src/store.rs:903-919 | two writers after which an account is missing from the list, and the second instruction reads the first one's account |
| BuilderRuns.TablesCanWrap | src/store.rs:885 | one writer of 65536 accounts after which the table entry is 0 and nothing is listed or read back |
| BuilderRuns.CountsCanWrap | src/store.rs:683 | 256 inner instructions that are counted as none |
| BuilderRuns.ProgramStored | src/store.rs:660-699 | the k-th writer's instruction is the next outer or the next inner one, with the program set, or zero, and both chunk indices zero |
| BuilderRuns.IdentityKept | src/store.rs:641-657 | no writer touches the signature or the index |
| BuilderRuns.ReadsOwnChunkIff | src/store.rs:811-845 | every instruction's accessors return the first writer's chunks as cut to 16 bits, and so its own if and only if it equals those |
| BuilderRuns.BuiltSurvivesTheWire | src/store.rs:437-930 | whatever is built within the 32-bit header lengths serialises; the parsed bytes read every instruction alike and show every chunk that its 16-bit table entry can name |
| BuilderObjects.CatscopeTransaction.AppendOuter | src/store.rs:660-676 | updates the fields as the append step does and hands out a writer for the new instruction |
| BuilderObjects.CatscopeTransaction.AppendInner | src/store.rs:679-699 | the same for inner instructions; panics exactly when the outer index is out of range |
| BuilderObjects.InstructionWrite.Account | src/store.rs:877-887 | fills the account chunk and its table entry; fails on a second call |
| BuilderObjects.InstructionWrite.Drop | src/store.rs:903-930 | fails when a chunk was never set, otherwise is the closing step |
| BuilderObjects.BinarySearch | src/store.rs:923 | finds the account or the place where it belongs in a strictly ascending list |
| BuilderObjects.UseWriter | src/store.rs:660-930 | for any sequence of setter calls from append to drop, a writer fails exactly when there is no such outer instruction or a chunk was not filled exactly once, and otherwise has the effect of one completed writer, with the last program set, in whatever order |
| BuilderObjects.DropUnused | src/store.rs:903-906 | dropping a writer just handed out fails and leaves a blank instruction |
| ResultCodec.RoundTrip | src/store.rs:986-1251 | decoding inverts encoding for every slot and every listed error with its payloads; the catch-all code is rejected |
| ResultCodec.ErrorBytes | src/store.rs:974-1003 | byte 1 is the error's place in the declaration order, byte 2 its cause's, byte 3 the index it carries, bytes 4-7 the custom code low byte first, the rest zero |
| ResultCodec.SlotBytes | src/store.rs:974-1003 | a slot is eight zero bytes and its eight bytes, low byte first |
| ResultCodec.CatchAll | src/store.rs:1072 | every error without a number is written as 255, which no reader accepts |
| ResultCodec.Meaning | src/store.rs:1006-1251 | what each of the 16-byte strings decodes to, canonical or not, by the two declaration orders |
| ResultCodec.Injective | src/store.rs:986-1003 | encodable results with equal bytes are equal |
| ResultCodec.AcceptedIff | src/store.rs:1006-1023 | the 16-byte strings accepted are exactly those with a known tag and known discriminants |
| ResultCodec.Canonical | src/store.rs:1006-1023 | what an accepted string decodes to survives another encoding and decoding |
| CountedQueue.CounterExactly | src/queue.rs:67-94 | over every sequential run the counter is the baseline plus the size, less one when the dequeues of an empty queue since the last empty `len` are odd |
| CountedQueue.LenExactly | src/queue.rs:104-115 | `len` never overcounts, and undercounts by one exactly then, with something queued |
| CountedQueue.EmptyMeans | src/queue.rs:123-129 | `is_empty` is true exactly for the empty queue, and for one element when that parity is odd |
| CountedQueue.LocklessQueue.Dequeue | src/queue.rs:84-94 | takes the front element and updates the counter as the specification step |
| CountedQueue.LocklessQueue.Len | src/queue.rs:104-115 | reports and resets as the specification step |
| CounterSteps.CallsAlone | src/queue.rs:67-115 | taken without interruption, the accesses of `enqueue`, `dequeue` and `len` are the calls of the sequential counted queue |
| CounterSteps.NeverWraps | src/queue.rs:67-115 | with fewer than 999,999 outstanding resets, in every interleaving the counter is at least the baseline less one less those resets and is never decremented at zero |
| CounterSteps.FewThreadsNeverWrap | src/queue.rs:84-94 | fewer than 999,999 threads can never wrap the counter |
| CounterSteps.BoundAttained | src/queue.rs:84-94 | the bound is attained for every number of outstanding resets below the baseline |
| CounterSteps.MillionthResetWraps | src/queue.rs:84-94 | one decrement more does wrap it |
| CounterSteps.CountAccounting | src/queue.rs:67-115 | in every interleaving counter plus operations halfway through plus missed pops plus overwritten counts is the baseline plus the size |
| CounterSteps.QuietCountIff | src/queue.rs:96-115 | with nothing in flight the count is off by exactly the missed pops and overwritten counts, and exact if and only if they cancel |
| CounterSteps.QuietOvercount | src/queue.rs:84-115 | with nothing in flight `len` exceeds the size by at most the number of threads |
| CounterSteps.OvercountAttained | src/queue.rs:84-94 | that excess is attained for every number of threads from two on |
| CounterSteps.CountCanMissAll | src/queue.rs:104-115 | a late reset can leave any number of queued items uncounted with nothing in flight |
| QueueRing.RefinesFifo | src/queue.rs:189-274 | if each batch is exhausted before the next, the ring is one FIFO, whatever enqueues fall in between |
| QueueRing.BatchesInOrder | src/queue.rs:189-214 | concatenated batches are a prefix of the enqueue order and each announced length is its batch's size |
| QueueRing.QueueIterator.Next | src/queue.rs:256-274 | through its retries, yields the front element or nothing when the side is empty |
| QueueRing.QueueRing.Enqueue | src/queue.rs:189-193 | counts and pushes on the active side |
| QueueRing.QueueRing.Dequeue | src/queue.rs:204-214 | flips the side, takes its counter and returns an iterator over it |
| QueueRingSteps.NothingLost | src/queue.rs:189-274 | in every interleaving each side hands out what was pushed to it, in order, without loss or repetition; its announced lengths plus its live counter are the enqueues counted in there |
| QueueRingSteps.NextFlipDelivers | src/queue.rs:189-214 | in every interleaving an item lands on the side that the first flip after its producer looked at the ring hands out, and once pushed, whoever drained that side has been given it |
| QueueRingSteps.EnqueueAlone | src/queue.rs:189-193 | an enqueue that nobody interrupts is the enqueue of the ring with atomic calls |
| QueueRingSteps.DequeueAlone | src/queue.rs:204-214 | so is a dequeue, with the same side and length |
| QueueRingSteps.PopAlone | src/queue.rs:256-274 | and so is a pull |
| QueueRingSteps.TwoDrainsDeliverAll | src/queue.rs:204-274 | with no enqueuer in flight, two consecutive full drains deliver every item ever pushed and the lengths announced for each side add up to its items |
| DeleteFilter.AccountDeleteNotifier.CheckSend | src/read.rs:244-266 | updates the account's entry and decides as the specification step, for every state |
| DeleteFilter.SuppressedIff | src/read.rs:244-266 | a header is suppressed if and only if it has no lamports and the account's previous header had none |
| DeleteFilter.AccountsIndependent | src/read.rs:239-267 | in any interleaving what passes of an account is its own trace with repeated deletions removed |
| DeleteFilter.Idempotent | src/read.rs:237-267 | filtering a filtered trace from a fresh notifier changes nothing |
| DeleteFilter.LastAcceptedIsCurrent | src/read.rs:239-267 | the last accepted header of an account is live exactly when the last received one was |
| DeleteFilter.NoRepeatedDeletion | src/read.rs:237-238 | no two consecutive passed headers of an account are deletions |

## Left out

- Relaxed and acquire/release memory ordering, cache-line padding and the destruction of overwritten ring slots: atomics are sequentially consistent.
- A torn read of a ring slot while it is being overwritten: slot reads and writes are single steps. `try_pop` hands out a borrow of the slot, whose content can change while the caller still holds it; the model says what the slot holds at the pop.
- Internals of the library queues, channels, hash sets and the hash function.
- ShardThreads.ShardDedupPubkeys: fixes one schedule and a queue filled beforehand, since a loop cannot be interleaved; all schedules are covered by the state machine.
- QueueRingSteps: the iterator's limit of four attempts is not counted; an attempt on an empty side is a step that delivers nothing.
- CounterSteps: keeps only the length of the queue; its order is the library's FIFO.
- A panicking callback or thread, and thread creation failure.
- BuilderObjects.InstructionWrite.Account: the caller fills the new slice at once, instead of through a borrowed slice.
- Sums of `outer_len + inner_len` above 32 bits in the writer only feed debug assertions and are not modelled.
- The pointer casts of src/util.rs: taken as the little-endian layout documented at src/store.rs:406-432.
- The QUIC, relay, plugin, subscription and configuration code, and the orderings and status tables of src/store.rs: wrappers and interfaces with easy members.
