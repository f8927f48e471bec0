# netto: the queue, the event count, the configuration buffer and the logger

A Dafny model of the concurrent core of the netto daemon, and of the two pieces of
sequential code with real loops around it:

- the bounded multi-producer multi-consumer ring queue (`TicketQueue`, `QueueRuns`,
  `QueueCases`, `Words`, `SlotLayout`, `MpmcQueue`);
- the futex-backed event count (`EventCount`);
- the double-buffered configuration with reader reference counts (`ConfigProtocol`,
  `ConfigRuns`, `ConfigDrain`, `ConfigBuffer`);
- the logger's consumer thread, its producers and the thread that stops it
  (`LogConsumer`, `LogRuns`, `LogProgress`, `LogCases`, `LogService`, `LogProducer`);
- log writing, rotation and retention (`LogRotation`, `DaemonLogger`), and what the consumer
  thread makes of the files (`LogOutput`);
- the configuration file loader, the string trimming under it and the daemon's parser callback
  (`IniLoader`, `NtString`, `ConfigFile`); `Arith` holds the few arithmetic facts they share.

## How it is built

Each concurrent algorithm appears twice. A state machine over values has one action per
atomic operation of the C code, for any number of threads, with unbounded counters and a
record of history; its invariant is proved action by action and its promises are lemmas over
all runs. A class then holds the words of the C structure (64-bit positions and sequence
words, a mask, a signed comparison; an epoch and a waiter count packed into one word; 32-bit
reference counts). Each of its atomic methods performs exactly one action of the machine, and
its loops are written as the C code writes them, with everything other threads may do in
between (`Others`) in the way. `Others` has an empty body and is only ever used through its
contract: any legal run of steps by other threads.

The sequential code is modelled in place, on arrays and fields, and each method is tied to a
function of the old state about which the laws are proved.

## What is assumed

- Interleavings are sequentially consistent. A decision a thread takes on a word it loaded is
  local and belongs to the load.
- A weak compare-exchange may fail spuriously, FUTEX_WAIT compares and blocks in one step and
  may return without a wake-up, and the kernel chooses which sleeper FUTEX_WAKE reaches.
- Every reservation is committed once, as `common/include/utils/mpmc_queue.h:49-52` demands,
  and every `config_release` matches one `config_acquire`: the actions of the machines have no
  other form.
- At most 2^62 - 2^57 reservations happen between two consecutive actions of one queue operation
  (`GAP`; two of them and a lap are just below 2^63), fewer than 2^32 notifications between
  registering a wait and sleeping on it (`Timely`), and there are fewer than 2^32 configuration readers (`FewReaders`).
- The signed difference of two positions is the two's-complement one.
- The sizes `create_mpmc_queue` multiplies do not overflow (`Fits`).
- One thread consumes the log, and updates hold `writer_lock`, as `daemons/netto/src/netto.c`
  uses them.
- Retry and wait loops are cut off after `rounds` rounds; a contract says what holds at each exit
  and what used up the rounds of a loop that was cut off: spurious failures, other threads'
  reservations, versions or notifications, FUTEX_WAIT calls, or entries written. How long the
  loops run is stated of the runs of the machines: a reservation starts over at most once per
  other reservation (`RetryBound`); an acquire at most once per version published (`Acquire`); the
  consumer returns within a bound after the stop request (`ShutdownBound`, `NotStuck`), and takes
  a committed head within a bound at any time (`HeadTakenBound`, `ReadyNotStuck`); the drain loop
  goes round at most once per notification, which readers of either buffer may send, and once more
  (`RoundsBound`), and is left within a constant number of the writer's own steps once the readers
  of the old buffer are through (`WriterNotStuck`, `DrainStepsBound`).

## Where the code does less than its documentation says

- Any power of two is accepted as a capacity. With a single slot the number that marks position
  0 ready is the number that marks the slot free for position 1, and a second enqueue overruns
  the first: `SafeIffTwoSlots` proves, for every entry size, that two slots are exactly enough.
- An enqueue is said to fail when the queue is full. It also fails while the entry one lap back
  is still being read, and a dequeue fails while the head is still being written, behind which
  there may be committed entries: `RefusedIff` is exact, and `RefusedThoughEmpty` is a case, for
  every capacity and entry size, in which everything has been dequeued.
- `ec_notify` wakes one waiter. Two sleepers and one notification leave one of them asleep with
  a stale key; `NeverStrandsIff` proves that no wakeup is lost exactly when at most one thread
  waits at a time or only `ec_notify_all` is used.
- The consumer is said to drain all remaining messages after a stop request. An entry that is
  reserved and not committed when the drain looks last stays behind, with everything after it:
  `DrainedIff` is exact, and `EntryLeftBehind` is such a case for every capacity and entry size.
- A configuration update is said to load the file. It writes over whatever the inactive buffer
  held, so the result depends on the file alone exactly when the file has an entry for both keys:
  `FileAlone`, and `OneFieldFile` for a file that has one.
- Two rotations within one second share a name, and the second replaces the file of the first
  (`RotateOverwrites`, at the backup limit and below it); `SameSecond` is a run, for every file size
  limit, of three lines that loses one of them, or two if a single backup is kept.

- No backups are said to be kept with `max_backup` 0. A full log is rotated all the same, and then
  no rotated file is ever removed: `NoLimitNoRemoval`.

## Model

| member | source | states |
|---|---|---|
| `TicketQueue.InitInv` | common/src/utils/mpmc_queue.c:90-98 | a queue of two or more slots starts in the invariant: head <= tail <= head + capacity, and the sequence word of each slot is what the reservations still open on it dictate |
| `TicketQueue.NextInv` | common/src/utils/mpmc_queue.c:176-280 | every atomic action of every operation, for any number of threads with arbitrarily stale positions, keeps that invariant |
| `TicketQueue.AtTail` | common/src/utils/mpmc_queue.c:205-223 | the word under the tail never runs ahead, and equals the tail exactly when the position one lap back was consumed and given back |
| `TicketQueue.AtHead` | common/src/utils/mpmc_queue.c:257-275 | the word under the head equals head + 1 exactly when the head is reserved and its producer has committed |
| `TicketQueue.Passed` | common/src/utils/mpmc_queue.c:223-226 | once a counter has passed a position, the word under that position never looks unused for it, so a stale thread retries instead of giving up |
| `TicketQueue.FillQueue` | common/src/utils/mpmc_queue.c:126-131 | copying into a reserved slot touches nothing that any other operation or the queue relies on |
| `TicketQueue.StepInv` | common/src/utils/mpmc_queue.c:176-280 | rely and guarantee: a step that only lets words grow and leaves the positions others hold alone keeps the state of every other operation |
| `QueueRuns.RunInv` | common/src/utils/mpmc_queue.c:176-280 | the invariant holds after every run |
| `QueueCases.SafeIffTwoSlots` | common/src/utils/mpmc_queue.c:61-66 | for every entry size, over all runs: no two live reservations share a slot, nothing overfills, and each dequeue hands out the value reserved under its position, exactly if the capacity is at least two |
| `QueueCases.OneSlotOverruns` | common/src/utils/mpmc_queue.c:176-190 | for every entry size, a state that some run of the one-slot queue reaches, in which two entries are reserved and none taken |
| `QueueRuns.OneStatePerSlot` | common/src/utils/mpmc_queue.c:176-190 | every slot is in exactly one of four states: free for a position, held by one producer, ready, held by one consumer |
| `QueueRuns.RefusedIff` | common/src/utils/mpmc_queue.c:202-223 | a reservation is refused exactly when its position was still the shared one at the load of the sequence word and the slot was not given back (enqueue) or the head not committed (dequeue) |
| `QueueCases.RefusedThoughEmpty` | common/src/utils/mpmc_queue.c:220-222 | for every capacity from two on and every entry size, a reachable state in which everything reserved has been dequeued, all but one entry delivered, and an enqueue is turned away |
| `QueueRuns.Conservation` | common/src/utils/mpmc_queue.c:111-158 | reserved values = delivered + being read + still in the ring |
| `QueueRuns.DeliveredOnce` | common/src/utils/mpmc_queue.c:137-158 | the commit of a dequeue delivers a position that was not delivered before, with the value reserved under it |
| `QueueRuns.CounterCountsReservations` | common/src/utils/mpmc_queue.c:211-217 | a position counter moves by exactly the successful reservations of the run |
| `QueueRuns.RetryBound` | common/src/utils/mpmc_queue.c:211-227 | in any run a thread starts over at most once per reservation that succeeds meanwhile or had succeeded behind its back; spurious failures aside |
| `Words.SignedDiffExact` | common/src/utils/mpmc_queue.c:209 | the signed difference of two wrapped counters is their difference exactly when that fits 64 bits signed |
| `Words.MaskedSlot` | common/src/utils/mpmc_queue.c:205 | masking the wrapped position gives the slot of the unbounded one, across the wrap-around |
| `Words.PowerOfTwoTest` | common/src/utils/mpmc_queue.c:64 | the bit test is true exactly of powers of two |
| `Words.AlignUpRounds` | common/include/macros.h:51 | the macro rounds up to a multiple, by less than the alignment |
| `Words.AlignUpLeast` | common/include/macros.h:51 | no smaller multiple will do |
| `SlotLayout.SlotsAreDisjoint` | common/src/utils/mpmc_queue.c:77-95 | for every capacity and data size, each slot's sequence word and data area are aligned and inside the allocation, and the whole data (a pointer if the size is 0) ends before the next slot |
| `SlotLayout.StrideExact` | common/src/utils/mpmc_queue.c:77-84 | the stride is the fewest cache lines holding 16 bytes and the data, and the two sums and the product do not overflow exactly under the numbers stated |
| `SlotLayout.CapacityBound` | common/src/utils/mpmc_queue.c:82-84 | a capacity whose allocation does not overflow is below 2^58 |
| `MpmcQueue.SameDecision` | common/src/utils/mpmc_queue.c:205-227 | on wrapped words the three-way branch decides as the unbounded counters do, for any position stale by less than 2^63 less one lap |
| `MpmcQueue.BranchTaken` | common/src/utils/mpmc_queue.c:211-227 | each outcome of the branch on words is the corresponding step of the machine |
| `MpmcQueue.Interleaved` | common/src/utils/mpmc_queue.c:200-280 | whatever runs between two actions of a thread, its operation is as it left it, the shape is kept and the counters only grow |
| `MpmcQueue.Create` | common/src/utils/mpmc_queue.c:61-101 | a queue is made exactly for powers of two (if memory is granted), in its initial state, its cells as wide as the data size asked for or as a pointer for size 0, and it satisfies the invariant exactly from two slots on |
| `MpmcQueue.RingQueue.constructor` | common/src/utils/mpmc_queue.c:83-98 | the words as initialised stand for the initial state |
| `MpmcQueue.RingQueue.LoadPosition` | common/src/utils/mpmc_queue.c:202 | first load of a position counter: one action |
| `MpmcQueue.RingQueue.LoadSequence` | common/src/utils/mpmc_queue.c:205-226 | load of the sequence word through the mask, with the branch it decides: one action |
| `MpmcQueue.RingQueue.CompareExchange` | common/src/utils/mpmc_queue.c:212-219 | the weak exchange on the wrapped counter: one action; on failure the value found is the new position |
| `MpmcQueue.RingQueue.ReloadPosition` | common/src/utils/mpmc_queue.c:226 | the reload after falling behind: one action |
| `MpmcQueue.RingQueue.WriteByte` | common/src/utils/mpmc_queue.c:130 | one byte into the reserved slot: one action |
| `MpmcQueue.RingQueue.ReadByte` | common/src/utils/mpmc_queue.c:153 | one byte out of the reserved slot: one action |
| `MpmcQueue.RingQueue.StoreSequence` | common/src/utils/mpmc_queue.c:176-190 | the commits: one action each, with the wrapping pos + 1 and pos + slot_mask + 1 |
| `MpmcQueue.RingQueue.Reserve` | common/src/utils/mpmc_queue.c:200-229 | the retry loop under interference: a reservation holds the slot and position it names, new since the call; a refusal is justified at that moment; a loop that used up its rounds has in each of them failed for no reason or lost to another reservation; nothing is committed |
| `MpmcQueue.RingQueue.Enqueue` | common/src/utils/mpmc_queue.c:111-135 | true means the whole value is committed under one position, new since the call, by the one commit this operation makes; false that it committed nothing and the queue was blocked for it; unfinished after n rounds, that n is at most its spurious failures plus the reservations made since the call |
| `MpmcQueue.RingQueue.Dequeue` | common/src/utils/mpmc_queue.c:137-158 | true means exactly the value reserved under one position, never delivered before the call, was handed out untorn by the one commit this operation makes; false that nothing was committed at the head; unfinished, the same bound on its rounds |
| `EventCount.NextInv` | common/src/utils/event_count.c:79-114 | with one waiter at a time, or any number and only notifications to all, every action keeps: asleep with an old key implies a wake-up call pending |
| `EventCount.NeverStrandsIff` | common/src/utils/event_count.c:79-114 | over all runs no sleeper is stranded, exactly under that use |
| `EventCount.TwoSleepersOneWake` | common/src/utils/event_count.c:79-85 | the run on which one of two sleepers is stranded |
| `EventCount.SameEpochExact` | common/src/utils/event_count.c:109 | within one epoch range comparing 32 bits is comparing the notification counts |
| `EventCount.AddEpoch` | common/src/utils/event_count.c:63-83 | adding 2^32 to the packed word advances the epoch and nothing else, also when the epoch wraps |
| `EventCount.SubWaiterExact` | common/src/utils/event_count.c:62-113 | adding 2^64 - 1 leaves the epoch alone exactly when a waiter is registered, and then takes one off |
| `EventCount.EventCounter.FetchAddEpoch` | common/src/utils/event_count.c:79-93 | the word stays (notifications mod 2^32, waiters); FUTEX_WAKE is called exactly if somebody is registered |
| `EventCount.EventCounter.PrepareWait` | common/src/utils/event_count.c:95-100 | registers the thread; the key is the epoch of that moment |
| `EventCount.EventCounter.SubWaiter` | common/src/utils/event_count.c:102-105 | takes this registration off and nothing else |
| `EventCount.EventCounter.EpochUnchanged` | common/src/utils/event_count.c:109 | the loop test is the test of the machine |
| `EventCount.EventCounter.FutexWait` | common/src/utils/event_count.c:122-125 | the thread sleeps exactly if nobody has notified since it registered |
| `ConfigProtocol.NextInv` | common/src/config.c:85-161 | every action of any number of readers and writers keeps: counts are the readers counted in, what a holder pins is the version it acquired, a sleeping writer has somebody to wake it |
| `ConfigProtocol.ZeroCount` | common/src/config.c:150 | a zero count means no holder and nobody backing out |
| `ConfigRuns.Exclusion` | common/src/config.c:85-144 | in every reachable state no reader holds the buffer being loaded, every holder sees one whole published version, and with no drain under way it is the latest |
| `ConfigRuns.SnapshotStable` | common/src/config.c:85-119 | a reader that still holds its version reads the same values, whatever updates begin, fail or finish meanwhile |
| `ConfigRuns.GracePeriod` | common/src/config.c:147-156 | when the writer loads zero, no reader holds an older version, nor ever will in any continuation |
| `ConfigRuns.MonotoneVersions` | common/src/config.c:89-97 | the versions one thread acquires never decrease |
| `ConfigRuns.NoLostWakeup` | common/src/config.c:99-118 | in every reachable state, asleep on a drained buffer the writer has a reader about to notify, or the epoch is past its key and somebody is about to wake it |
| `ConfigRuns.DrainStep` | common/src/config.c:87-104 | during a drain each step on the old count lowers a measure and no other step changes it |
| `ConfigRuns.DrainBound` | common/src/config.c:144-156 | so over a whole drain the old count is touched at most as often as the readers near it at its start allow |
| `ConfigDrain.WriterNotStuck` | common/src/config.c:147-158 | once the readers of the old buffer are through, and until it has unlocked, the writer has a step of its own or sleeps with somebody about to wake it |
| `ConfigDrain.RankFalls` | common/src/config.c:147-158 | from then on each of its own steps lowers a rank that no other thread raises, and a spurious return raises it by two |
| `ConfigDrain.DrainStepsBound` | common/src/config.c:147-158 | so it is out of the loop and has unlocked within ten own steps, and three for each wake-up call still under way, spurious returns aside |
| `ConfigDrain.RoundsBound` | common/src/config.c:147-156 | over any run the loop goes round at most once per notification and once more, whichever buffer's readers notify |
| `ConfigBuffer.OthersKeep` | common/src/config.c:85-161 | no run of other threads moves a reader, or the buffers, index or wait of an update under way |
| `ConfigBuffer.AddEffect` | common/src/config.c:91 | with fewer than 2^32 readers the 32-bit increment does not wrap |
| `ConfigBuffer.SubEffect` | common/src/config.c:100-116 | nor does the decrement; it finds 1 exactly when this is the last reference |
| `ConfigBuffer.DoubleBuffer.FetchAddRef` | common/src/config.c:91 | the reader counts itself in: one action |
| `ConfigBuffer.DoubleBuffer.RecheckIndex` | common/src/config.c:94-97 | the second look: succeeds exactly if the index is still the active one, and then what is read is the current version |
| `ConfigBuffer.DoubleBuffer.FetchSubRef` | common/src/config.c:99-116 | counting out: one action, and whether it was the last |
| `ConfigBuffer.DoubleBuffer.CountOutOf` | common/src/config.c:99-118 | decrement, notify if last, wake if somebody waits: afterwards the thread owes nothing |
| `ConfigBuffer.DoubleBuffer.Acquire` | common/src/config.c:85-105 | under interference: success pins a buffer holding a whole published version no older than the one current at the call; every failed round has seen another version published |
| `ConfigBuffer.DoubleBuffer.ReleaseRef` | common/src/config.c:107-119 | the thread holds nothing and owes no wake-up |
| `ConfigBuffer.DoubleBuffer.LoadFields` | common/src/config.c:132 | the inactive structure becomes its previous contents with the parser's assignments applied; the active one and its history stay |
| `ConfigBuffer.DoubleBuffer.EcWait` | common/src/utils/event_count.c:107-114 | the wait loop under interference: it ends only with the epoch past the key, the wait taken back and the update otherwise as it was; otherwise every round was a FUTEX_WAIT call |
| `ConfigBuffer.DoubleBuffer.Drain` | common/src/config.c:147-156 | the drain loop leaves only from a zero count, with the wait cancelled, configuration and index untouched; a loop that used up its rounds has seen as many notifications, or was cut off in a wait after as many FUTEX_WAIT calls |
| `ConfigBuffer.DoubleBuffer.Update` | common/src/config.c:121-161 | one update publishes exactly one version, the assigned one, in the other buffer; on return no reader holds an older one; a failed load publishes nothing; and one cut off while draining has seen a notification or made a FUTEX_WAIT call in every round |
| `LogConsumer.NextInv` | common/src/log/logger.c:212-287 | queue, event count, running flag and stopper together: every action keeps that a consumable head found by nobody leaves a producer owing a notify or the epoch past the key |
| `LogConsumer.ConsumerStep` | common/src/log/logger.c:508-520 | a single consumer is never behind, and is turned away exactly if no entry is committed at the head |
| `LogRuns.NoLostWakeup` | common/src/log/logger.c:217-238 | in every reachable state, asleep with an entry at the head or after a stop request, the consumer has a producer, the stopper or a pending FUTEX_WAKE to wake it |
| `LogRuns.NotStuck` | common/src/threads/thread_mgr.c:73-83 | after the stop request the consumer always has a step of its own, or sleeps with somebody about to wake it |
| `LogRuns.RankFalls` | common/src/log/logger.c:217-241 | each of its steps lowers a rank that no other thread raises |
| `LogRuns.ShutdownBound` | common/src/threads/thread_mgr.c:73-83 | so after the stop request it takes at most (entries not yet dequeued) * (entry size + 16) + entry size + 12 steps, spurious failures aside |
| `LogRuns.ConsumedInOrder` | common/src/log/logger.c:508-520 | all positions below the head, but for one being read, were consumed once with the values reserved there |
| `LogRuns.DrainedIff` | common/src/log/logger.c:240-241 | when the drain ends, every accepted entry has been consumed exactly if no reservation is uncommitted |
| `LogCases.EntryLeftBehind` | common/src/log/logger.c:240-241 | for every capacity from two on and every entry size, a reachable state in which the consumer has returned and a committed entry was never consumed |
| `LogProgress.HeadStays` | common/src/log/logger.c:508-520 | a committed head stays committed until the consumer's own exchange |
| `LogProgress.RankFalls` | common/src/log/logger.c:217-241 | while the head is committed each own step of the consumer lowers a rank that no other thread raises, whether or not it was told to stop |
| `LogProgress.HeadTakenBound` | common/src/log/logger.c:217-241 | so it takes a committed head within entry size + 11 own steps, three more for each wake-up call under way, spurious steps aside |
| `LogProgress.ReadyNotStuck` | common/src/log/logger.c:217-241 | until then it has a step of its own or sleeps with somebody about to wake it, unless it has returned |
| `LogProgress.DoesNotReturn` | common/src/log/logger.c:240-241 | and it does not return while the head is committed |
| `LogService.LogService.ReserveHead` | common/src/utils/mpmc_queue.c:252-280 | the dequeue loop for one consumer: gets the head, or nothing is committed there, or every round was a spurious failure of its own |
| `LogService.LogService.ConsumeOne` | common/src/log/logger.c:508-520 | the entry at the head is written to the log and the head moves by one; or neither log nor head moves |
| `LogService.LogService.EcWait` | common/src/utils/event_count.c:107-114 | the consumer's wait loop ends only with the epoch past the key, with the queue's head left alone; otherwise every round was a FUTEX_WAIT call |
| `LogService.LogService.Turn` | common/src/log/logger.c:217-238 | one turn keeps the account of what was handed over, in order, and of the log it makes; the loop goes on, waits or leaves as the machine says; and a turn that goes on has handed over an entry or slept until a notification |
| `LogService.LogService.TakeTurns` | common/src/log/logger.c:217-238 | the loop on the running flag: left to drain, or cut off with the rounds accounted for |
| `LogService.LogService.ConsumerThread` | common/src/log/logger.c:212-244 | the entries handed to the log are the reserved values from the first head to the last, gapless and in order, and the log is what writing them makes of it; on return everything is delivered exactly if no reservation is uncommitted; cut off after n rounds it is inside an attempt with n spurious failures, inside a wait with n FUTEX_WAIT calls, draining with n entries handed over, or at the head of the loop with n entries and notifications together |
| `LogService.LogService.StopThread` | common/src/threads/thread_mgr.c:73-83 | flag cleared, epoch advanced, and no wake-up left to do before the join |
| `LogOutput.WrittenInOrder` | common/src/log/logger.c:508-562 | with no failing call and fresh names, the rotated files in order and then the current one hold what was there and then the lines of the entries from the first head to the last, in reservation order, malformed ones left out |
| `LogOutput.OneLineEach` | common/src/log/logger.c:527-557 | of stamped, non-empty entries of the five levels each has exactly its line |
| `LogOutput.AllWritten` | common/src/log/logger.c:240-241 | after a drain with no reservation uncommitted that is every entry ever accepted |
| `LogProducer.OthersKeep` | common/src/log/logger.c:255-287 | no run of other threads moves a producer's operation or debts, and a committed entry stays committed |
| `LogProducer.ReserveTail` | common/src/utils/mpmc_queue.c:200-229 | the reservation among any number of producers and the consumer: the slot and position are the thread's own and new since the call, or the queue is blocked, or every round failed for no reason or lost to another reservation |
| `LogProducer.Announce` | common/src/log/logger.c:282-286 | commit, then notify, then wake if somebody waits: the entry is committed and the thread owes the consumer nothing |
| `LogProducer.EnqueueLog` | common/src/log/logger.c:255-287 | an entry that is accepted is committed whole, under a position new since the call, by the one commit this thread makes, and announced; one that is filtered out touches nothing; one that is refused finds the queue blocked; and unfinished means as many spurious failures and other reservations as rounds |
| `LogRotation.SizeAlwaysOk` | common/src/log/logger.c:527-557 | over any run, whatever rename, fopen and fwrite do, the tracked size is the size of the current file |
| `LogRotation.RotationConserves` | common/src/log/logger.c:472-557 | with names not used before and no failures, the rotated files in order and the current one hold the initial contents and every line since, each whole in one file, and no file outgrows the limit |
| `LogRotation.NamesAsStamps` | common/src/log/logger.c:478-482 | two rotated files share a name exactly if they share the stamp, and strcmp orders the names as it orders the stamps |
| `LogRotation.LaterConserves` | common/src/log/logger.c:472-557 | the same conservation from what the clock does: without failures, if each rotation of the run is stamped later than those before it and than every rotated file there was, nothing is lost and no line is split |
| `LogRotation.NewestStampsKept` | common/src/log/logger.c:391-446 | over such a run the listed files are those with the newest stamps up to the limit, of the ones found and the ones made, and the removed ones are the rest in order |
| `LogRotation.RotateOverwrites` | common/src/log/logger.c:472-500 | a rotation during a run, at the backup limit and below: exactly the names over the limit are removed; every file not to be removed is as it was exactly if the name is new or the two files are equal; the rotated contents are there exactly if the name was not removed with the others |
| `LogRotation.SameSecond` | common/src/log/logger.c:472-500 | for every limit and every three lines, the first within the limit and no two in a row fitting one file, written within one second: the first is on no file, and with a single backup the second is not either |
| `LogRotation.Retention` | common/src/log/logger.c:391-416 | over any run, the list is the newest names up to the limit of those found and rotated, the rest were removed in order and once, and are the older ones if names ascend |
| `LogRotation.RetainedOnDisk` | common/src/log/logger.c:391-416 | over any run without failures, the names on the list are distinct files on disk, every file but the log is as it was or was removed, and what was removed is gone |
| `LogRotation.NoLimitNoRemoval` | common/src/log/logger.c:489-497 | with a limit of 0, over any run, no rotated file is removed or listed |
| `DaemonLogger.AcceptedIff` | common/src/log/logger.c:318-340 | the scan accepts exactly the log's name, any one character and fourteen digits |
| `DaemonLogger.RotatedIsAccepted` | common/src/log/logger.c:318-340 | a rotated file passes the scan's test exactly if its stamp is fourteen digits, and its path under the directory is the name the rotation gave it |
| `DaemonLogger.RotatedIsFound` | common/src/log/logger.c:353-360 | so every rotated file in the directory is on the list at the next start |
| `DaemonLogger.FoundIff` | common/src/log/logger.c:311-360 | a path is listed exactly if it is that of an accepted entry |
| `DaemonLogger.FoundInOrder` | common/src/log/logger.c:311-360 | the scan of a directory is that of its parts in order |
| `DaemonLogger.FoundOne` | common/src/log/logger.c:353-356 | an accepted entry is listed under the directory, one slash, and its name |
| `DaemonLogger.SkippedIff` | common/src/log/logger.c:529 | an entry is written exactly if it is stamped, not empty and of one of the five levels |
| `DaemonLogger.Logger.constructor` | common/src/log/logger.c:140-142 | the size limit is the configured number of mebibytes, 10 MiB if it is below 1; below 1 no backup is kept on the list |
| `DaemonLogger.ScanMissesLog` | common/src/log/logger.c:129-131 | whatever path basename and dirname were taken of, the scan never lists the log itself |
| `DaemonLogger.Logger.Append` | common/src/log/logger.c:424-446 | one name more, with the array doubled exactly when full |
| `DaemonLogger.Logger.CleanupOld` | common/src/log/logger.c:391-416 | unlinks the oldest over the limit and shifts the rest down |
| `DaemonLogger.Logger.RotateLog` | common/src/log/logger.c:472-500 | the rotation the laws are about, under the name that carries the stamp; a failed rename changes nothing |
| `DaemonLogger.Logger.WriteDaemonLog` | common/src/log/logger.c:527-562 | the write the laws are about, skipped for malformed entries |
| `DaemonLogger.Logger.Scan` | common/src/log/logger.c:297-375 | collects exactly the accepted names, in directory order |
| `DaemonLogger.Logger.Start` | common/src/log/logger.c:153-184 | succeeds exactly if a full log could be renamed, the directory read and the log opened; it removes backups over the limit and nothing else, and the log keeps what it holds; establishes what conservation and retention start from; the listed names are on disk if the scanned ones were |
| `NtString.TrimUnique` | common/src/utils/nt_string.c:41-62 | whatever of the six white-space characters surrounds a string that has none at its ends, trimming finds the string |
| `NtString.TrimLaws` | common/src/utils/nt_string.c:41-89 | trim is idempotent and equals ltrim after rtrim |
| `NtString.TrimInPlace` | common/src/utils/nt_string.c:41-62 | the string left in the buffer is the trimmed one, and one NUL is all that is written |
| `NtString.LTrimInPlace` | common/src/utils/nt_string.c:64-74 | the same for ltrim, writing nothing |
| `NtString.RTrimInPlace` | common/src/utils/nt_string.c:76-89 | the same for rtrim |
| `IniLoader.GetLine` | common/src/config.c:214 | the piece fgets leaves in the buffer, also for lines longer than it |
| `IniLoader.SplitAt` | common/src/config.c:241-244 | writing a NUL over the first delimiter leaves exactly the two strings around it |
| `IniLoader.CutSection` | common/src/config.c:223-231 | the section line in place: first `]`, trimmed, cut to 63 characters; or the section stays |
| `IniLoader.CutEntry` | common/src/config.c:240-244 | the entry line in place: first `=`, both sides trimmed, neither disturbed by trimming the other |
| `IniLoader.ObeyLine` | common/src/config.c:214-253 | one line handled in place is one line of the specification that `RoundTrip` pins down |
| `IniLoader.LoadConfig` | common/src/config.c:202-258 | for every file and callback, the in-place loop calls back exactly as the line-by-line specification, up to the first refusal |
| `IniLoader.PaddedLine` | common/src/config.c:215 | white space around a line never matters |
| `IniLoader.PiecesConcat` | common/src/config.c:214 | a file cut between two lines is read as its two parts one after the other, lines longer than the buffer included |
| `IniLoader.LineInserted` | common/src/config.c:214-220 | a line without meaning, inserted between two lines of any file: the file's pieces are those before, the line, those after, and the callback is called as before |
| `IniLoader.CommentOrBlank` | common/src/config.c:217-220 | white space alone, and anything behind a `#` that only white space precedes, are such lines |
| `ConfigFile.LoadedIsFilled` | common/src/config.c:163-175 | with the daemon's callback, what a file makes of a configuration is its assignments applied in order: the same that `Update` publishes |
| `ConfigFile.FieldDecided` | common/src/config.c:163-175 | a field that is assigned gets the same value over any previous contents, one that is not keeps what was there |
| `ConfigFile.LastEntryWins` | common/src/config.c:163-175 | each field of the loaded configuration is the number in the file's last entry for its key in the log section, or what it was if there is none |
| `ConfigFile.SameCalls` | common/src/config.c:214-253 | with callbacks that refuse nothing, what is called depends on the file and not on the configuration it is loaded into |
| `ConfigFile.LoadedFrom` | common/src/config.c:202-258 | loading a file over a configuration is applying the assignments of that file's calls to it |
| `ConfigFile.ItemsCalled` | common/src/config.c:202-258 | the calls of a written file are one for each setting under a header, in order |
| `ConfigFile.FileAlone` | common/src/config.c:202-258 | of any file: the loaded configuration is the same over all previous contents exactly when the file has an entry for both keys in its log section |
| `ConfigFile.OneFieldFile` | common/src/config.c:202-258 | a file with one entry, loaded over every previous number of backups, keeps that number |
| `IniLoader.RoundTrip` | common/src/config.c:202-258 | reading back a written file, however padded and commented: the calls are one for each setting, in order, under the last header before it (63 characters at most, none without a header), up to and including the first that is refused, and the configuration is what those calls make |
| `IniLoader.AllCalled` | common/src/config.c:202-258 | a callback that refuses nothing is called for every such setting |
| `IniLoader.LastHeaderCounts` | common/src/config.c:223-231 | the section after some items is the first 63 characters of the last header's name |

## Left out

- Reserve: the loop is cut off after `rounds` rounds, and an unfinished outcome is possible; the contract says what used them up, and `RetryBound` how often a round can fail.
- Enqueue: cut off with `Reserve`, and so are Dequeue, `ReserveTail` and `EnqueueLog`.
- ConsumerThread: cut off in the same way, and so are Acquire, Drain and Update; the contracts say what used up the rounds.
- EcWait: cut off in the same way; FUTEX_WAIT may return unasked any number of times, so nothing but its own calls bounds its rounds. `DrainStepsBound` and `ShutdownBound` count the other steps.
- C11 memory orders, data races and the futex kernel internals: interleavings are sequentially consistent.
- Null-pointer arguments of the entry points, which return at once.
- Overflow of `cap * slot_stride` and of `data_size` in `create_mpmc_queue`, which the code does not test: excluded by `Fits`.
- The contents of a log entry: a value of fixed width, with the tests on level, format and mode as one flag.
- Contention on `writer_lock`: the machine lets any thread take it when free, and `Update` starts when it is granted.
- Starting threads, the `_all` loops and their rollback in `common/src/threads/thread_mgr.c`, and `pthread_join` beyond the end of the consumer's steps.
- `atoi`: any function; and `config_update` with other callbacks: `Update` takes the assignments a callback makes.
- `config_dump` and other printing, `get_backup_log_files` allocation failures, `strdup`, `realloc`: only the success path of retention.
- `qsort` with `compare_log_files`: its result enters as a sorted permutation of the names.
- Formatting of lines and time stamps (`snprintf`, `strftime`, `localtime_r`) and path buffers of fixed size: lines and stamps are arbitrary strings.
- Real files: a disk maps paths to contents, and each call that can fail takes its outcome as an argument.
- `common/src/utils/process.c`, `common/src/utils/file.c`, `common/src/utils/nt_time.c`, `daemons/netto/src/netto.c` and the BPF program: plumbing around the modelled core.
