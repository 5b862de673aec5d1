# Lock-free queues, an event pipeline and packet dispatch

A Dafny model of three katas: the *turnstile* multi-producer multi-consumer work
queue (Go and C++), the *weir* multi-producer single-consumer event pipeline (Go,
C++, Python) and the *switchyard* packet dispatcher (C++).

## What is modelled, and how

**Concurrent protocols are transition systems.** Each step of the model is one
atomic access of one thread, for any number of threads, over unbounded runs.
Program counters are explicit, payload reads and writes are steps of their own,
and history fields, which no step reads to decide anything, record what the
theorems speak about. A `Run` is any finite interleaving from the initial state.

**Answers are part of the state.** A thread's counter keeps what its latest call
returned. The `Returns` modules collect these answers over every run and compare
them with what has happened to the events; the `Lone` modules run one call
undisturbed from any reachable state, the other threads stopped wherever they are,
and say what it answers.

| file | models |
|---|---|
| `Slots`, `Words`, `Powers` | positions and slots, and the 64-bit encodings the code uses for them |
| `Ring`, `RingInvariant`, `RingSteps`, `RingTheorems`, `RingReturns`, `RingShutdown`, `RingLifetime`, `RingLone`, `RingCalls` | the turnstile ring: CAS and ticket pushes, TryPushFunc with panics, pops, tombstones, close; under Go's close rule and under C++'s |
| `BitmapWake`, `BitmapSafety`, `BitmapWakes`, `BitmapReturns`, `BitmapLone` | Go's sleeper bitmap with one-token channels around the ring: all of Pop and Close |
| `EventCount`, `EventCountSafety`, `EventCountReturns`, `EventCountLone` | the C++ event counts and the epoch protocol around the ring |
| `CallAnswers`, `Options` | a call with several ring operations inside, and the answer it is bound to |
| `Weir`, `WeirInvariant`, `WeirSafety`, `WeirTheorems`, `WeirReturns`, `WeirClosing`, `WeirLastPass`, `WeirRetired`, `WeirFairness` | the pipeline: registration, SPSC rings with stale indices, their cells written and copied one access at a time, the bitmap handshake, parking on a channel (Go) or a condition variable (C++), staging, reclaiming, two-phase stop |
| `BitWalk` | the active word as 64 bits: rotation, lowest set bit and the loops that walk it |
| `Sharded`, `ShardedSafety`, `ShardedSleep`, `ShardedReturns`, `ShardedFairness`, `ShardedLone` | the sharded queue, whose close sets one ring's bit at a time, and its consumers' sleep |
| `Turnstile`, `Spsc`, `Windows`, `Fifo`, `MutexQueue` | the rings in the source's own form, classes over arrays run one call at a time, against a bounded FIFO |
| `Histogram` | the log-linear histogram as a class, with its arithmetic |
| `Dispatch`, `Scans`, `Tables`, `Compact`, `Generated` | the five dispatch arms and the generated handler set |

Go's atomics are sequentially consistent, so a step per access is what Go does. For
C++ the fence-separated accesses are taken in one total order.

## What the code does not do as documented

* `ring.go` says that a C++ ticket taken after a close can wait forever.
  `RingShutdown.CppTicketCanHang` exhibits a reachable state, `LoneTicketMoves` says
  exactly which tickets move, `NoTicketAfterDrain` that Go's rule leaves none, and
  `SomeScheduleEmpties` that under either rule one more popper can free them all.
* The pipeline documents Retiring -> Free after a final drain. A reclaiming scan
  that finds an event left in a retired ring skips the slot after the request flag
  has been cleared, and nothing sets the flag again. `WeirRetired.OverlookedIffMissed`
  with `ScanDecides` say exactly when that happens, `SlotCanBeOverlooked` reaches
  such a state for every configuration under both scan policies, and
  `OverlookedLasts` shows that it lasts until another handle retires or the pipeline
  stops. No event is lost by it, only a slot kept.
* `TableCompact::injective()` does not see a collision with a key 0xFFFF declared
  first. `Compact.ReportIs` and `ReportIsWrongIff` say for all key sets what it
  reports and when that is wrong, `TableCompact.WrongReportRefuses` what a table
  does then, `EmptyMarkerCollides` shows one, and `TableCompact.CompactAgreesIff`
  when the table does agree with the scan.
* A table slot's candidate count is cut to 16 bits. `Tables.TableDirect16.DirectAgreesIff`
  says exactly when that changes an answer, and `Tables.CountWraps` shows a table.

## Model

| member | source | states |
|---|---|---|
| `Slots.SlotIsMod` | mpmc-work-queue-kata/go/internal/turnstile/ring.go:122-133 | The recursive slot of a position is the position modulo the capacity |
| `Slots.SameSlot` | mpmc-work-queue-kata/go/internal/turnstile/ring.go:12-19 | Positions that share a slot are equal or at least one lap apart |
| `Words.MaskIsSlot` | mpmc-work-queue-kata/go/internal/turnstile/ring.go:254-260 | `pos & (N - 1)` is that slot for every power of two N |
| `Words.SignedDifference` | mpmc-work-queue-kata/go/internal/turnstile/ring.go:261-264 | `int64(seq - pos)` is 0, negative or positive exactly as seq equals, precedes or follows pos, below 2^63 |
| `Words.PackRoundTrip` | mpmc-work-queue-kata/go/internal/turnstile/ring.go:43-47 | The tail word gives back the tail and the closed bit if and only if the tail is below 2^63 |
| `Words.WordSteps` | mpmc-work-queue-kata/go/internal/turnstile/ring.go:209-215 | Adding 2 to the word moves the tail by one and keeps the bit; setting the bit keeps the tail |
| `Words.DeadBit` | mpmc-work-queue-kata/go/internal/turnstile/ring.go:234-238 | A tombstone stamp compares as its position and is never a live stamp |
| `RingInvariant.InitInv` | mpmc-work-queue-kata/go/internal/turnstile/ring.go:133-158 | A new ring satisfies the invariant |
| `RingSteps.StepInv` | mpmc-work-queue-kata/go/internal/turnstile/ring.go:162-486 | Every atomic step of every operation, by any thread, keeps the invariant of slots, positions, program counters and deliveries |
| `RingTheorems.ExclusivePayload` | mpmc-work-queue-kata/go/internal/turnstile/ring.go:282-297 | In every run no two threads are at one slot's payload, whatever laps their positions are on |
| `RingTheorems.RunExtends` | mpmc-work-queue-kata/go/internal/turnstile/ring.go:9-19 | Over any run a position's producer, value and outcome never change once settled, the log only grows, and phases only advance |
| `RingTheorems.DeliveredOnce` | mpmc-work-queue-kata/go/internal/turnstile/ring.go:332-357 | Every value read is the one its producer reserved with, from a live claimed position, and no position is read twice |
| `RingTheorems.DeliveredAll` | mpmc-work-queue-kata/go/internal/turnstile/ring.go:448-467 | When all operations have returned and the head is at the end, a position was delivered if and only if it is not a tombstone |
| `RingTheorems.ProgramOrder` | mpmc-work-queue-kata/go/internal/bench/driver.go:294-300 | One consumer receives one producer's values in the order that producer reserved them |
| `RingTheorems.AcceptedForGood` | mpmc-work-queue-kata/go/internal/turnstile/ring.go:162-168 | A push that returned ok keeps a live published position of its own for the rest of the run |
| `RingTheorems.FullIsTruthful` | mpmc-work-queue-kata/go/internal/turnstile/ring.go:251-278 | Whichever step of whichever operation answers full, it is the load of the sequence, and then position pos - N was reserved and not yet released |
| `RingTheorems.EmptyIsTruthful` | mpmc-work-queue-kata/go/internal/turnstile/ring.go:331-357 | Whichever step answers empty, it is the load of the sequence, and then pos was the head and not published |
| `RingTheorems.HeadStamp` | mpmc-work-queue-kata/go/internal/turnstile/ring.go:469-472 | The head slot's stamp reads published if and only if the head position is |
| `RingTheorems.ClaimedSlotIsFree` | mpmc-work-queue-kata/go/internal/turnstile/ring.go:265-269 | When the compare-and-swap of the tail succeeds, the earlier look at the slot is still true |
| `RingTheorems.PublishedWithinLap` | mpmc-work-queue-kata/go/internal/turnstile/ring.go:12-19 | Nothing is written a lap or more past the head |
| `RingTheorems.AcceptsOne` | mpmc-work-queue-kata/go/internal/turnstile/ring.go:282-297 | No step returns ok to more than one push, so the list of accepted positions of a run leaves none out |
| `RingTheorems.NoMoreThanCapacity` | mpmc-work-queue-kata/go/internal/turnstile/ring_test.go:164-179 | While the head stands still at most N pushes are accepted: their positions are distinct and among the N from the head on |
| `RingReturns.AnsweredOnce` | mpmc-work-queue-kata/go/internal/turnstile/ring.go:162-168 | Over every run and for every thread, position and value: a pop has returned that event exactly once if its thread claimed the position, it is live, has that value and is released, and never otherwise; a push has returned ok, or panicked, for a position exactly once if it is its own and published live, or dead, and never otherwise |
| `RingReturns.ReadThenReturned` | mpmc-work-queue-kata/go/internal/turnstile/ring.go:336-343 | Every event read has been returned exactly once by the thread that read it, with its position and value, or that thread is still clearing or releasing its slot |
| `RingReturns.ReturnedWasRead` | mpmc-work-queue-kata/go/internal/turnstile/ring.go:448-460 | An event that a pop has returned was read by that thread |
| `RingReturns.ReturnedAtRest` | mpmc-work-queue-kata/go/internal/turnstile/ring.go:331-357 | With all threads idle the positions returned are exactly the live claimed ones |
| `RingReturns.ReturnedInOrder` | mpmc-work-queue-kata/go/internal/turnstile/ring.go:331-357 | The events a thread has returned, in order, with the one it is still releasing, are the events it has read |
| `RingReturns.PushesItsValue` | mpmc-work-queue-kata/go/internal/turnstile/ring.go:162-168 | A push that returned ok published the value it was called with, and nothing else is ever delivered from its position |
| `RingReturns.LooksAreTruthful` | mpmc-work-queue-kata/go/internal/turnstile/ring.go:374-384 | What the drained test and the look at the head answer is true of the state at the load that decides it |
| `RingLone.LonePush` | mpmc-work-queue-kata/go/internal/turnstile/ring.go:254-297 | Run undisturbed from any reachable state, TryPush answers closed if closed, full if the position a lap back is not released, and otherwise publishes its value at the tail, all other entries unchanged |
| `RingLone.LonePop` | mpmc-work-queue-kata/go/internal/turnstile/ring.go:332-357 | Run undisturbed, TryPop releases the tombstones at the head and returns the event behind them, or empty if none is published there |
| `RingLone.LonePeek` | mpmc-work-queue-kata/go/internal/turnstile/ring.go:469-472 | The look at the head answers whether its position is published |
| `RingLone.LonePanic` | mpmc-work-queue-kata/go/internal/turnstile/ring.go:226-247 | A push whose callback panics publishes its position as a tombstone and says panicked |
| `RingLone.LoneFill` | mpmc-work-queue-kata/go/internal/turnstile/ring.go:226-247 | One whose callback returns publishes its event and says ok |
| `RingShutdown.HeadStopsAtClose` | mpmc-work-queue-kata/go/internal/turnstile/ring.go:375-384 | The head never passes the position that Close records |
| `RingShutdown.DrainIsExact` | mpmc-work-queue-kata/go/internal/turnstile/ring.go:375-384 | When a Pop is told drained, every position of the past or future that is owed to a push has already been claimed |
| `RingShutdown.NoPushAfterDrain` | mpmc-work-queue-kata/go/internal/turnstile/ring.go:474-485 | No push is ever told ok for a position not claimed before the first drained answer |
| `RingShutdown.NoTicketPastClose` | mpmc-work-queue-kata/go/internal/turnstile/ring.go:208-219 | Under Go's rule no thread waits for or writes a slot for a position past the close |
| `RingShutdown.DebtNeverGrows` | mpmc-work-queue-kata/go/internal/turnstile/ring.go:31-41 | After a close no step of any thread increases the work owed |
| `RingShutdown.SomebodyPays` | mpmc-work-queue-kata/go/internal/turnstile/ring.go:299-318 | While positions are owed, the head is published or some thread has a step that pays part of the debt: tickets never wait in a circle |
| `RingShutdown.SomeScheduleEmpties` | mpmc-work-queue-kata/go/internal/turnstile/ring.go:31-41 | From any reachable state, under either close rule, the threads that hold positions and one popper, and nobody else, can run on to a state where the head is at the end and every position reserved so far has been released |
| `RingShutdown.PopClaims` | mpmc-work-queue-kata/go/internal/turnstile/ring.go:332-357 | A pop that runs alone from a published head claims it |
| `RingShutdown.NothingOwed` | mpmc-work-queue-kata/go/internal/turnstile/ring.go:462-467 | With nothing held and the head at the end, every slot has been given back |
| `RingShutdown.LoneTicketMoves` | mpmc-work-queue-kata/go/internal/turnstile/ring.go:301-318 | A ticket that is the only operation left gets its slot if and only if it is less than N past the head |
| `RingShutdown.NoTicketAfterDrain` | mpmc-work-queue-kata/go/internal/turnstile/ring.go:31-41 | Under Go's rule no ticket is left waiting once the closed ring is drained |
| `RingShutdown.CppTicketCanHang` | mpmc-work-queue-kata/cpp/src/mpmc_queue.hpp:216-230 | Under the C++ rule a reachable closed state, told drained, has a late ticket whose own steps change nothing while every other thread is idle (the defect that ring.go records); a later pop could still release its slot |
| `RingLifetime.ConstructsOnRaw` | mpmc-work-queue-kata/cpp/src/mpmc_queue.hpp:384-393 | In every run a payload is constructed only into raw storage |
| `RingLifetime.ReadsTheObject` | mpmc-work-queue-kata/cpp/src/mpmc_queue.hpp:396-404 | A consumer reads and destroys the very object its position's producer built |
| `RingLifetime.PayloadChanges` | mpmc-work-queue-kata/cpp/src/mpmc_queue.hpp:261-284 | In every run a payload changes only under the holder of its slot: the position's producer puts its own value on raw storage, the position's consumer removes that very object, or a panicking fill gives up its own |
| `RingLifetime.LivesOnce` | mpmc-work-queue-kata/cpp/src/mpmc_queue.hpp:384-404 | Over every run each position has been built once if its producer is past the construction and never before, and destroyed once if its consumer is past its destruction and never before; tombstones neither |
| `RingLifetime.BuiltMinusDestroyed` | mpmc-work-queue-kata/cpp/src/mpmc_queue.hpp:384-404 | Constructions minus destructions of a position are 1 exactly when its slot holds its object, with its producer's value: the objects in the slots are those built and not yet destroyed |
| `RingLifetime.Destroy` | mpmc-work-queue-kata/cpp/src/mpmc_queue.hpp:170-179 | The destructor's walk destroys exactly the published unclaimed objects, once each, in order, never a tombstone, and leaves only raw storage: with it every object built in the run has been destroyed exactly once |
| `Turnstile.Ring.TryPush` | mpmc-work-queue-kata/go/internal/turnstile/ring.go:162-168 | Run alone over the arrays: refuses exactly when closed or full, and is the FIFO's push when no tombstone is in the ring |
| `Turnstile.Ring.TryPushFunc` | mpmc-work-queue-kata/go/internal/turnstile/ring.go:226-247 | As TryPush; a panicking fill leaves a tombstone in the order |
| `Turnstile.Ring.TryPop` | mpmc-work-queue-kata/go/internal/turnstile/ring.go:332-357 | Run alone: the FIFO's pop over the values, tombstones skipped and released |
| `Turnstile.Ring.IsDrained` | mpmc-work-queue-kata/go/internal/turnstile/ring.go:375-384 | Drained if and only if closed with nothing reserved left |
| `Turnstile.Ring.RefusedTicket` | mpmc-work-queue-kata/go/internal/turnstile/ring.go:210-214 | A ticket taken after the close is refused; no position anybody is owed, no slot and no close position changes |
| `Turnstile.Ring.Close` | mpmc-work-queue-kata/go/internal/turnstile/ring.go:479-485 | The first call fixes the close position, later ones change nothing |
| `Turnstile.ValuesAppend` | mpmc-work-queue-kata/go/internal/turnstile/ring.go:332-357 | What a consumer sees of two stretches of positions is what it sees of each, tombstones left out |
| `BitmapSafety.NeverStranded` | mpmc-work-queue-kata/go/internal/turnstile/wake.go:87-169 | In no reachable state are all consumers asleep without a token while the head is published and no notification is under way, with cancels, stale tokens, holes and timers included |
| `BitmapSafety.CloseWakesAll` | mpmc-work-queue-kata/go/internal/turnstile/wake.go:171-188 | After Close has swept the bitmap, a sleeper without a token has a sender on its way |
| `BitmapSafety.CloseReturns` | mpmc-work-queue-kata/go/internal/turnstile/wake.go:171-188 | When a Close returns, it or another caller has swapped the bitmap out, or is about to |
| `BitmapWakes.WakeIsHeeded` | mpmc-work-queue-kata/go/internal/turnstile/wake.go:96-117 | Over every run, a consumer whose bit a notifier has cleared neither returns from Pop nor starts it over before it has looked at the ring for that wake, or found nobody else asleep, or sent another sleeper a token: a cancelled wait swallows no wake |
| `BitmapSafety.RingRuns` | mpmc-work-queue-kata/go/internal/turnstile/ring.go:361-446 | The ring inside any run with sleeping is a run of the ring, so the ring's theorems hold there |
| `BitmapReturns.EventsReachCallers` | mpmc-work-queue-kata/go/internal/turnstile/ring.go:361-446 | Over every run, the events that a thread's calls have returned, Pop's among them, in order, with the one its call is bound to return and the one whose slot it is releasing, are exactly the events it has read |
| `BitmapReturns.CallsAnswer` | mpmc-work-queue-kata/go/internal/turnstile/ring.go:361-446 | What the calls of a thread return, running out of time apart, is what their ring operations gave them, once each and in order |
| `BitmapReturns.EventSettles` | mpmc-work-queue-kata/go/internal/turnstile/ring.go:361-365 | A TryPop that ends with an event settles its call: it has returned that event or is bound to |
| `BitmapReturns.KeepsItsEvent` | mpmc-work-queue-kata/go/internal/turnstile/ring.go:408-445 | A call bound to an answer neither looks at the ring again, nor announces itself, nor sleeps, and what it returns is that answer |
| `BitmapReturns.PopEndsWithReason` | mpmc-work-queue-kata/go/internal/turnstile/ring.go:359-387 | Pop returns an event, drained, or that its time is up, and the last only if its deadline had passed at a look during that very call |
| `BitmapReturns.PopStaysPop` | mpmc-work-queue-kata/go/internal/turnstile/ring.go:361-446 | Each step of a Pop that has not returned leaves it in Pop |
| `BitmapLone.LonePopTakes` | mpmc-work-queue-kata/go/internal/turnstile/ring.go:361-365 | Run undisturbed, Pop returns the first live event that is published behind at most tombstones |
| `BitmapLone.LonePopDrains` | mpmc-work-queue-kata/go/internal/turnstile/ring.go:374-384 | On a closed ring with every position claimed it returns drained |
| `BitmapLone.LonePopSleeps` | mpmc-work-queue-kata/go/internal/turnstile/ring.go:406-435 | On an open ring with nothing in it it announces itself, looks again and sleeps |
| `BitmapLone.LateGivesUp` | mpmc-work-queue-kata/go/internal/turnstile/ring.go:427-431 | A Pop that finds its deadline passed withdraws its announcement and says so |
| `BitmapLone.LoneWakeTakes` | mpmc-work-queue-kata/go/internal/turnstile/ring.go:433-444 | A consumer with a token wakes and returns the first live event; if the position behind it is published, one more sleeper gets a token |
| `BitmapLone.LonePushWakes` | mpmc-work-queue-kata/go/internal/turnstile/ring.go:162-168 | A TryPush on an open ring with room publishes its value, gives one sleeper a token if there is any, and says ok |
| `EventCountSafety.NeverStranded` | mpmc-work-queue-kata/cpp/src/eventcount.hpp:55-105 | Same for the C++ queue while it is open, under coalesced wakes, a wake per push and the epoch protocol, with cancels and spurious wakes |
| `EventCountSafety.CloseWakesAll` | mpmc-work-queue-kata/cpp/src/eventcount.hpp:118-124 | After close's wake nobody is blocked and nobody blocks again |
| `EventCountSafety.CloseReturnsAwake` | mpmc-work-queue-kata/cpp/src/mpmc_queue.hpp:357-361 | A close that has returned has woken everybody, and in no later state of the run is anybody asleep |
| `EventCountSafety.CountIsExact` | mpmc-work-queue-kata/cpp/src/eventcount.hpp:55-68 | The waiter count is exactly the threads between announcing themselves and leaving |
| `EventCountSafety.RingRuns` | mpmc-work-queue-kata/cpp/src/mpmc_queue.hpp:288-350 | The ring inside any run of the C++ sleep protocol is a run of the ring |
| `EventCountReturns.EventsReachCallers` | mpmc-work-queue-kata/cpp/src/mpmc_queue.hpp:286-350 | As `BitmapReturns.EventsReachCallers`, for the C++ pop under the three sleep protocols |
| `EventCountReturns.CallsAnswer` | mpmc-work-queue-kata/cpp/src/mpmc_queue.hpp:286-350 | What the calls of a thread return, running out of time apart, is what their ring operations gave them, once each and in order |
| `EventCountReturns.EventSettles` | mpmc-work-queue-kata/cpp/src/mpmc_queue.hpp:288-295 | A try_pop that ends with an event settles its call |
| `EventCountReturns.KeepsItsEvent` | mpmc-work-queue-kata/cpp/src/mpmc_queue.hpp:319-347 | A call bound to an answer neither looks at the ring again, nor prepares to wait, nor sleeps, and returns that answer |
| `EventCountReturns.PopEndsWithReason` | mpmc-work-queue-kata/cpp/src/mpmc_queue.hpp:286-334 | Pop returns an event, drained, or that its time is up, the last only if its deadline had passed at a look during that call |
| `EventCountReturns.PopStaysPop` | mpmc-work-queue-kata/cpp/src/mpmc_queue.hpp:288-350 | Each step of a pop that has not returned leaves it in pop |
| `EventCountLone.LonePopTakes` | mpmc-work-queue-kata/cpp/src/mpmc_queue.hpp:288-295 | Run undisturbed, pop returns the first live event that is published behind at most tombstones |
| `EventCountLone.LonePopDrains` | mpmc-work-queue-kata/cpp/src/mpmc_queue.hpp:299-305 | On a closed ring with every position claimed it returns drained |
| `EventCountLone.LonePopSleeps` | mpmc-work-queue-kata/cpp/src/mpmc_queue.hpp:314-338 | On an open ring with nothing in it it counts itself, clears the pending wake, looks again and sleeps on the epoch it read |
| `EventCountLone.LateGivesUp` | mpmc-work-queue-kata/cpp/src/mpmc_queue.hpp:330-334 | A pop that finds its deadline passed takes itself off the count and says so |
| `EventCountLone.LoneWakeTakes` | mpmc-work-queue-kata/cpp/src/mpmc_queue.hpp:337-346 | A notified consumer wakes and returns the first live event; if the position behind it is published and another waiter is counted, it advances the epoch and wakes one sleeper |
| `EventCountLone.NotifyWakes` | mpmc-work-queue-kata/cpp/src/eventcount.hpp:91-105 | A notifier that finds waiters and no wake on its way advances the epoch and wakes one sleeper |
| `EventCountLone.LonePushWakes` | mpmc-work-queue-kata/cpp/src/mpmc_queue.hpp:187-215 | A try_push on an open ring with room publishes its value, does that, and says ok |
| `WeirInvariant.StepBase` | mpsc-event-pipeline-kata/go/internal/weir/pipeline.go:11-25 | Every step of every producer, the consumer and the stopper keeps slot lifetimes, ownership, stale indices and the stage bound |
| `WeirTheorems.RunInv` | mpsc-event-pipeline-kata/go/internal/weir/pipeline.go:303-380 | The whole invariant holds in every state of every run |
| `WeirTheorems.NothingInvisible` | mpsc-event-pipeline-kata/go/internal/weir/bitmap.go:6-80 | Bitmap policy: a consumer asleep with no token and no producer in flight sleeps over empty rings, the backstop not used |
| `WeirTheorems.StopWakes` | mpsc-event-pipeline-kata/go/internal/weir/pipeline.go:186-206 | Once Stop has sent its token no sleep outlasts it |
| `WeirTheorems.ExclusiveHandle` | mpsc-event-pipeline-kata/go/internal/weir/pipeline.go:214-232 | Two threads never hold the same slot, and a held slot is active |
| `WeirTheorems.FreeIsEmpty` | mpsc-event-pipeline-kata/go/internal/weir/pipeline.go:11-20 | A free slot has an empty ring, no counts and no owner |
| `WeirTheorems.StaleIndices` | mpsc-event-pipeline-kata/go/internal/weir/spsc_ring.go:66-140 | cachedHead <= head <= cachedTail <= tail <= cachedHead + capacity under any interleaving and every hand-over to a new producer |
| `WeirTheorems.LiveCellsHold` | mpsc-event-pipeline-kata/go/internal/weir/spsc_ring.go:66-132 | Every position from the head to the tail has in its cell what was published there, through every reuse of the cell and of the slot |
| `WeirTheorems.WritesOutsideTheRing` | mpsc-event-pipeline-kata/go/internal/weir/spsc_ring.go:66-86 | A producer that writes a cell, or has written it and not yet stored the tail, is on no live position's cell and not on the one the consumer copies |
| `WeirTheorems.BatchIsPublished` | mpsc-event-pipeline-kata/go/internal/weir/spsc_ring.go:102-132 | What the consumer has copied so far, cell by cell, is the piece of what was published that starts at the head |
| `WeirTheorems.StatsAddUp` | mpsc-event-pipeline-kata/go/internal/weir/pipeline.go:237-256 | Retired totals plus live counters equal all publications and all drops, whenever no count is in transit |
| `WeirReturns.TrueIsPublished` | mpsc-event-pipeline-kata/go/internal/weir/pipeline.go:260-287 | Over every run, the values of a thread's pushes that returned true, with the one that has published and not returned yet, are exactly the events published on its slots, in order; one that returned false published nothing |
| `WeirReturns.DropIsTruthful` | mpsc-event-pipeline-kata/go/internal/weir/spsc_ring.go:66-77 | A push is about to be counted as dropped only since a load of the head that found tail = head + capacity |
| `WeirReturns.FalseIsTruthful` | mpsc-event-pipeline-kata/go/internal/weir/pipeline.go:260-277 | A push returns false only if the pipeline was not accepting at its load, or the ring was full at such a load of the head |
| `WeirReturns.PushReplies` | mpsc-event-pipeline-kata/go/internal/weir/pipeline.go:260-287 | Every push returns true or false, and true exactly when it has published |
| `WeirReturns.RegistryFull` | mpsc-event-pipeline-kata/go/internal/weir/pipeline.go:214-232 | A registration passes a slot over only after a look in that very call that found it not free |
| `WeirTheorems.SinkIsPrefix` | mpsc-event-pipeline-kata/go/internal/weir/pipeline.go:405-445 | What the sink holds of a slot is a prefix of what was published there: nothing lost, repeated, reordered or invented, mid-drain flushes included |
| `WeirTheorems.OwnersInTurn` | mpsc-event-pipeline-kata/go/internal/weir/pipeline.go:214-232 | All of one owner's events come out before the next owner's on that slot |
| `WeirTheorems.ClosingDrainIsComplete` | mpsc-event-pipeline-kata/go/internal/weir/pipeline.go:366-378 | Everything published at a moment when the pipeline was running is in the sink when the consumer is done, once and in order |
| `WeirLastPass.LastPassDelivers` | mpsc-event-pipeline-kata/go/internal/weir/pipeline.go:366-378 | So is everything published after the stop, up to the beginning of the second closing loop |
| `WeirTheorems.SinkOnlyGrows` | mpsc-event-pipeline-kata/go/internal/weir/pipeline.go:439-445 | What the sink has been given is never taken back |
| `WeirClosing.ClosingStepShrinks` | mpsc-event-pipeline-kata/go/internal/weir/pipeline.go:366-378 | Every step of the closing consumer decreases a well-founded rank |
| `WeirClosing.OthersDoNotDelay` | mpsc-event-pipeline-kata/go/internal/weir/pipeline.go:186-206 | No other thread's step increases that rank unless it publishes |
| `WeirClosing.ClosingEnds` | mpsc-event-pipeline-kata/go/internal/weir/pipeline.go:366-378 | Left alone, the closing consumer finishes |
| `WeirRetired.OverlookedIffMissed` | mpsc-event-pipeline-kata/go/internal/weir/pipeline.go:322-332 | With no request pending, no reclaiming scan under way and the owner past its request, a slot is still retired if and only if a scan has found it with events in it |
| `WeirRetired.ScanDecides` | mpsc-event-pipeline-kata/go/internal/weir/pipeline.go:449-466 | Over any run, a reclaiming scan that looks at a retired slot leaves it free if and only if its ring was empty at the look, and otherwise retired and marked |
| `WeirRetired.OverlookedStays` | mpsc-event-pipeline-kata/go/internal/weir/pipeline.go:322-332 | No step frees such a slot unless another handle is retiring or the pipeline closes |
| `WeirRetired.OverlookedLasts` | mpsc-event-pipeline-kata/go/internal/weir/pipeline.go:322-332 | So over any run it stays retired until another handle retires or the pipeline closes |
| `WeirRetired.SlotCanBeOverlooked` | mpsc-event-pipeline-kata/go/internal/weir/pipeline.go:322-332 | For every number of slots, every size and both scan policies a reachable running state has one, its ring empty and its events delivered |
| `BitWalk.OrAdds` | mpsc-event-pipeline-kata/go/internal/weir/bitmap.go:47-75 | Setting a bit of the active word adds the slot to the set that the word stands for |
| `BitWalk.AndRemoves` | mpsc-event-pipeline-kata/go/internal/weir/bitmap.go:96-117 | Clearing a bit takes it out |
| `BitWalk.ZeroIsNone` | mpsc-event-pipeline-kata/go/internal/weir/bitmap.go:72-74 | The word is 0 if and only if no slot is in the set |
| `BitWalk.LowestBit` | mpsc-event-pipeline-kata/go/internal/weir/bitmap.go:132 | TrailingZeros64 is the lowest set bit |
| `BitWalk.ClearsLowest` | mpsc-event-pipeline-kata/go/internal/weir/bitmap.go:133 | `m & (m - 1)` clears that bit, changes no other, and is smaller |
| `BitWalk.RotatedBit` | mpsc-event-pipeline-kata/go/internal/weir/bitmap.go:129 | Bit i of `RotateLeft64(m, -rotate)` is bit (i + rotate) mod 64 of m |
| `BitWalk.DrainBitmap` | mpsc-event-pipeline-kata/go/internal/weir/bitmap.go:128-142 | The loop of rotate, count trailing zeros and clear probes the slots of the word in turn from rotate, each once |
| `BitWalk.ClearEmptyBits` | mpsc-event-pipeline-kata/go/internal/weir/bitmap.go:91-119 | The loop on the way to sleep looks at them from the lowest up, each once |
| `WeirFairness.PassVisitsEachOnce` | mpsc-event-pipeline-kata/go/internal/weir/bitmap.go:121-147 | That order holds exactly the bits of the snapshot, once each, by their distance from rotate |
| `WeirFairness.PassVisitsOnce` | mpsc-event-pipeline-kata/go/internal/weir/bitmap.go:128-147 | In every run, a completed pass whose snapshot has bit i makes exactly one visit of slot i |
| `WeirFairness.PassVisitsNoOther` | mpsc-event-pipeline-kata/go/internal/weir/bitmap.go:128-147 | And none of a slot whose bit it did not see |
| `WeirFairness.PassSees` | mpsc-event-pipeline-kata/go/internal/weir/bitmap.go:6-80 | The snapshot has the bit of every ring with an event in it, but for one whose owner is still announcing |
| `WeirFairness.VisitTakes` | mpsc-event-pipeline-kata/go/internal/weir/pipeline.go:405-433 | A visit takes a full batch or everything that was in the ring when it began |
| `WeirFairness.PassTakes` | mpsc-event-pipeline-kata/go/internal/weir/pipeline.go:405-433 | So does a pass that sees the bit, counted from its snapshot to its end |
| `WeirFairness.FairShare` | mpsc-event-pipeline-kata/go/internal/weir/pipeline.go:405-433 | After m + 1 passes that see the bit an event is out or m + 1 full batches of its own ring were taken |
| `WeirFairness.OutByPass` | mpsc-event-pipeline-kata/go/internal/weir/config.go:68 | With d events ahead of it an event is out by the end of pass d / batch + 1 among those that see its bit, whatever the other producers do |
| `Streams.ProjAppend` | mpsc-event-pipeline-kata/go/internal/weir/pipeline.go:405-445 | What a merged stream holds of one source is the concatenation of what its parts hold |
| `ShardedSafety.StepInv` | mpmc-work-queue-kata/cpp/src/sharded_queue.hpp:96-197 | Every atomic step keeps indices, live slots, producers' and consumers' knowledge of their rings |
| `ShardedSafety.OneConsumerEach` | mpmc-work-queue-kata/cpp/src/sharded_queue.hpp:217-218 | No ring has two consumers |
| `ShardedSafety.OkIsBelowTail` | mpmc-work-queue-kata/cpp/src/sharded_queue.hpp:107-117 | A push returned ok if and only if its position is below the ring's tail; one refused at publication found the ring closed |
| `ShardedSafety.WrittenSlotIsFresh` | mpmc-work-queue-kata/cpp/src/sharded_queue.hpp:103-113 | The slot a producer has written or is about to write is no live position's slot |
| `ShardedSafety.LiveSlotsHold` | mpmc-work-queue-kata/cpp/src/sharded_queue.hpp:109-113 | Every live position's slot holds what was published there |
| `ShardedSafety.TakenInOrder` | mpmc-work-queue-kata/cpp/src/sharded_queue.hpp:222-248 | A consumer has had exactly the first `head` accepted pushes of each of its rings, in order |
| `ShardedSafety.DrainedIsExact` | mpmc-work-queue-kata/cpp/src/sharded_queue.hpp:151-165 | Told drained, a consumer has had every accepted push of all its rings, all closed |
| `ShardedSafety.ClosedTailIsFinal` | mpmc-work-queue-kata/cpp/src/sharded_queue.hpp:264-273 | A closed ring's tail never moves again |
| `ShardedSafety.CloseReachesAll` | mpmc-work-queue-kata/cpp/src/sharded_queue.hpp:191-200 | When close has returned every ring is closed |
| `ShardedSafety.TakingBringsNearer` | mpmc-work-queue-kata/cpp/src/sharded_queue.hpp:220-231 | Taking from an earlier ring brings every later ring strictly nearer the front |
| `ShardedFairness.NoRingStarves` | mpmc-work-queue-kata/cpp/src/sharded_queue.hpp:220-231 | Over every run, a ring that has an event when its consumer is between looks sees fewer than `owned` events taken from its other rings before its own turn |
| `ShardedReturns.TakenIsReturned` | mpmc-work-queue-kata/cpp/src/sharded_queue.hpp:222-248 | Over every run, what a consumer's calls have returned, each event with its ring and value and in order, with the one its pop is about to return after cancelling its wait, is exactly what it has taken |
| `ShardedReturns.ReturnedInOrder` | mpmc-work-queue-kata/cpp/src/sharded_queue.hpp:222-248 | So an idle consumer has been given exactly the first `head` accepted pushes of each of its rings, in order |
| `ShardedReturns.EmptyIsTruthful` | mpmc-work-queue-kata/cpp/src/sharded_queue.hpp:144-147 | Empty is answered only by a look that found each of the consumer's rings empty at some moment of that look |
| `ShardedReturns.EndsWithReason` | mpmc-work-queue-kata/cpp/src/sharded_queue.hpp:151-187 | A pop ends with an event, empty, drained, or that its time is up, the last only if its deadline had passed at a look during that call |
| `ShardedReturns.OkIsPublished` | mpmc-work-queue-kata/cpp/src/sharded_queue.hpp:96-117 | The values of a producer's pushes that returned ok, with the one that has published and not returned yet, are exactly what was published on its ring, in order |
| `ShardedReturns.RefusalIsTruthful` | mpmc-work-queue-kata/cpp/src/sharded_queue.hpp:96-114 | A push answers full only at a step where the ring is full, and closed only where it is closed |
| `ShardedLone.LoneTryPop` | mpmc-work-queue-kata/cpp/src/sharded_queue.hpp:222-248 | Run undisturbed from any reachable state, try_pop returns the oldest event of the first of its rings, in its round, that has one, and empty only if none has |
| `ShardedLone.LonePopTakes` | mpmc-work-queue-kata/cpp/src/sharded_queue.hpp:151-156 | So does pop |
| `ShardedLone.LonePopDrains` | mpmc-work-queue-kata/cpp/src/sharded_queue.hpp:159-167 | It returns drained if each of its rings is closed and empty |
| `ShardedLone.LonePopSleeps` | mpmc-work-queue-kata/cpp/src/sharded_queue.hpp:169-185 | It counts itself, looks again and sleeps if none is closed and none has an event |
| `ShardedLone.LateGivesUp` | mpmc-work-queue-kata/cpp/src/sharded_queue.hpp:179-183 | A pop that finds its deadline passed takes itself off the count and says so |
| `ShardedLone.LoneWakeTakes` | mpmc-work-queue-kata/cpp/src/sharded_queue.hpp:154-186 | A notified consumer wakes and takes from the first of its rings that has an event |
| `ShardedLone.LonePush` | mpmc-work-queue-kata/cpp/src/sharded_queue.hpp:96-117 | try_push on an open ring with room publishes its value, changes no other ring, wakes the ring's consumer if it waits and no wake is on its way, and says ok |
| `ShardedLone.LoneRefusal` | mpmc-work-queue-kata/cpp/src/sharded_queue.hpp:96-108 | It answers closed on a closed ring and full on a full one, the ring's contents unchanged |
| `ShardedSleep.StepSleep` | mpmc-work-queue-kata/cpp/src/sharded_queue.hpp:114-185 | Every step keeps the joint invariant of rings, event counts and keys |
| `ShardedSleep.NeverStranded` | mpmc-work-queue-kata/cpp/src/sharded_queue.hpp:151-185 | A consumer asleep while one of its rings holds an event has a notification under way, coalesced and spurious wakes included |
| `ShardedSleep.CloseWakesAll` | mpmc-work-queue-kata/cpp/src/sharded_queue.hpp:191-197 | When close has returned no consumer is asleep, nor will fall asleep on the key it holds |
| `Spsc.SpscRing.TryPush` | mpsc-event-pipeline-kata/go/internal/weir/spsc_ring.go:66-86 | Refuses if and only if the ring is full, however stale the cached head; otherwise appends |
| `Spsc.SpscRing.PopBatch` | mpsc-event-pipeline-kata/cpp/src/spsc_ring.hpp:58-71 | Copies out the oldest events in order and removes exactly those; none only if none or no room |
| `Spsc.SpscRing.EmptyNow` | mpsc-event-pipeline-kata/go/internal/weir/spsc_ring.go:137-140 | Empty if and only if there is nothing in the ring; contents unchanged |
| `Spsc.SpscRing.SizeNow` | mpsc-event-pipeline-kata/go/internal/weir/spsc_ring.go:150-154 | The number of events in the ring, the cached indices not consulted |
| `Spsc.BytesRing.TryPush` | mpsc-event-pipeline-kata/python/src/weir/spsc_ring.py:111-136 | As TryPush, over packed bytes: the other events' bytes stay |
| `Spsc.BytesRing.PopInto` | mpsc-event-pipeline-kata/python/src/weir/spsc_ring.py:144-197 | One or two slice copies put exactly the packed oldest events in the stage and change nothing else in it |
| `Spsc.OneSlice` | mpsc-event-pipeline-kata/python/src/weir/spsc_ring.py:180-182 | Without a wrap the oldest n events, one by one modulo the capacity, are one slice |
| `Spsc.TwoSlices` | mpsc-event-pipeline-kata/python/src/weir/spsc_ring.py:183-187 | With a wrap they are two |
| `Windows.WindowPush` | mpsc-event-pipeline-kata/go/internal/weir/spsc_ring.go:77-84 | A write at the tail adds to the window and touches nothing in it |
| `Windows.WindowIsTwoSlices` | mpsc-event-pipeline-kata/python/src/weir/spsc_ring.py:183-187 | A window that wraps once is the end of the buffer and then its start |
| `MutexQueue.MutexQueue.TryPush` | mpmc-work-queue-kata/cpp/src/mutex_queue.hpp:30-39 | Is the bounded FIFO's push |
| `MutexQueue.MutexQueue.TryPop` | mpmc-work-queue-kata/cpp/src/mutex_queue.hpp:79-87 | Is its pop, which does not tell a drained queue from an empty one |
| `MutexQueue.MutexQueue.Pop` | mpmc-work-queue-kata/cpp/src/mutex_queue.hpp:89-101 | Is its pop, drained included |
| `MutexQueue.MutexQueue.PushBatch` | mpmc-work-queue-kata/cpp/src/mutex_queue.hpp:58-77 | Accepts the longest prefix that there is room for |
| `MutexQueue.MutexQueue.PopBatch` | mpmc-work-queue-kata/cpp/src/mutex_queue.hpp:105-118 | Takes the oldest, up to max |
| `Fifo.BatchIsPushes` | mpmc-work-queue-kata/cpp/src/mutex_queue.hpp:56-58 | A batch leaves the queue as its pushes one by one would |
| `Fifo.BatchIsPops` | mpmc-work-queue-kata/cpp/src/mutex_queue.hpp:104-105 | A batch returns what its pops one by one would |
| `MutexQueue.WindowOfSlot` | mpmc-work-queue-kata/cpp/src/mutex_queue.hpp:135-143 | Reducing the head modulo the capacity changes nothing read through it |
| `Histogram.IndexInRange` | mpmc-work-queue-kata/cpp/src/histogram.hpp:52-61 | Every 64-bit value has one of the 976 buckets |
| `Histogram.IndexMonotone` | mpmc-work-queue-kata/cpp/src/histogram.hpp:57-61 | Larger values are in the same or later buckets |
| `Histogram.UpperIsLast` | mpmc-work-queue-kata/cpp/src/histogram.hpp:62-67 | The upper edge of a bucket is in it and the next value in the next, the 2^64 wrap of the last one included |
| `Histogram.IndexUpper` | mpmc-work-queue-kata/cpp/src/histogram.hpp:52-67 | index(v) <= i if and only if v <= upper(i) |
| `Histogram.UpperError` | mpmc-work-queue-kata/cpp/src/histogram.hpp:9-11 | Rounding up to the edge is exact below 32 and adds less than v/16 above |
| `Histogram.BelowIsAtMost` | mpmc-work-queue-kata/go/internal/bench/histogram.go:61-67 | The counts of the first buckets are the samples up to the last one's edge |
| `Histogram.RankBucket` | mpmc-work-queue-kata/go/internal/bench/histogram.go:61-67 | The bucket where the counts reach a rank is the bucket of the sample of that rank |
| `Histogram.RankIsUnique` | mpmc-work-queue-kata/go/internal/bench/histogram.go:55-60 | A rank has one sample |
| `Histogram.QuantileError` | mpmc-work-queue-kata/go/internal/bench/histogram.go:52-54 | A quantile is never below the exact order statistic, exact below 32, less than a sixteenth above it |
| `Histogram.Histogram.Record` | mpmc-work-queue-kata/go/internal/bench/histogram.go:35-39 | Adds one sample: the state stays the function of the samples that Valid states |
| `Histogram.Histogram.Merge` | mpmc-work-queue-kata/go/internal/bench/histogram.go:41-47 | Equals having recorded the union of the samples |
| `Histogram.Histogram.Quantile` | mpmc-work-queue-kata/go/internal/bench/histogram.go:55-68 | With the samples numbered from 0 in increasing order, the one x for which `samples <= x - 1` number at most q * (n - 1) and `samples <= x` more, over the reals, rounded up to its bucket's edge and no more than the largest; the largest past the end; 0 of none. So q = 0 answers the smallest, rounded up, and q = 1 the largest |
| `Histogram.Histogram.CountAbove` | mpmc-work-queue-kata/cpp/src/histogram.hpp:46-50 | Exactly the samples above the edge of v's bucket |
| `Dispatch.FirstMatchAt` | plugin-dispatch-kata/cpp/src/strategy.hpp:40-47 | The scan answers the first handler that matches, or none |
| `Dispatch.PermutationAgrees` | plugin-dispatch-kata/cpp/src/generated.hpp:75-82 | With disjoint predicates every order of the list gives the same handler |
| `Dispatch.CandidatesSuffice` | plugin-dispatch-kata/cpp/src/handler.hpp:20-42 | With true declarations the first match among a packet's key's handlers is the first of all |
| `Scans.ScanUnordered.Dispatch` | plugin-dispatch-kata/cpp/src/strategy.hpp:40-47 | The loop answers the first match and counts its probes |
| `Scans.Ordered` | plugin-dispatch-kata/cpp/src/strategy.hpp:58-72 | The sorted list is a permutation, stable and by decreasing frequency |
| `Scans.DescendingIsBest` | plugin-dispatch-kata/cpp/src/strategy.hpp:53-58 | Decreasing frequency minimises the sum of frequency times rank over all orders |
| `Scans.SortedCostsLeast` | plugin-dispatch-kata/cpp/src/strategy.hpp:58-72 | So the sorted order of the handlers has the least such sum of all their orders |
| `Scans.ProbesAreCost` | plugin-dispatch-kata/cpp/src/strategy.hpp:40-47 | Over any stream, disjoint handlers cost as many probes as that sum for the numbers of packets each matches, and the whole list for each packet nobody matches |
| `Scans.SortedProbesLeast` | plugin-dispatch-kata/cpp/src/strategy.hpp:53-72 | So over a stream with those frequencies no order of the handlers costs fewer probes than ScanOrdered's |
| `Scans.ScanMoveToFront.Dispatch` | plugin-dispatch-kata/cpp/src/strategy.hpp:86-97 | Answers the first match; if that is the handler at place i > 0, it and the one before it change places and no other handler moves; if it is the first, or there is none, the list stays as it was |
| `Scans.MoveToFrontAgrees` | plugin-dispatch-kata/cpp/src/strategy.hpp:74-98 | After any packets, disjoint handlers are answered as by the fixed scan |
| `Tables.KeysAre` | plugin-dispatch-kata/cpp/src/strategy.hpp:130-135 | The distinct keys are exactly the declared ones, once each |
| `Tables.TableBuilder.Gather` | plugin-dispatch-kata/cpp/src/strategy.hpp:149-156 | The candidates of a key in registration order, and whether all are pure |
| `Tables.TotalBelow` | plugin-dispatch-kata/cpp/src/strategy.hpp:157-163 | All candidate lists together are no longer than the handler list |
| `Tables.FiledAnswers` | plugin-dispatch-kata/cpp/src/strategy.hpp:178-188 | A slot answers as its candidates do when both casts kept their values |
| `Tables.TableDirect16.Dispatch` | plugin-dispatch-kata/cpp/src/strategy.hpp:146-188 | Answers every packet as the first-match scan, for true declarations and counts that fit |
| `Tables.TableDirect16.DirectAgreesIff` | plugin-dispatch-kata/cpp/src/strategy.hpp:157-188 | For true declarations the built table agrees with the scan on a packet if and only if its key has one pure handler, none of the key's handlers matches, or the first that does is before the 16-bit cut of their number |
| `Tables.CutAgreesIff` | plugin-dispatch-kata/cpp/src/strategy.hpp:160-163 | The same for one slot that has a candidate list |
| `Tables.CountWraps` | plugin-dispatch-kata/cpp/src/strategy.hpp:160-163 | A table built from 65536 pure handlers of one key refuses every packet of that key, where the scan gives it to the first |
| `Compact.LowIsMask` | plugin-dispatch-kata/cpp/src/strategy.hpp:202-204 | Masking with 0x3FF is the remainder by 1024 |
| `Compact.ReportIs` | plugin-dispatch-kata/cpp/src/strategy.hpp:210-213 | For any declared keys injective() says true if and only if the keys other than 0xFFFF differ in their low bits and none declared before 0xFFFF has its low bits |
| `Compact.ReportIsWrongIff` | plugin-dispatch-kata/cpp/src/strategy.hpp:231-235 | It says false of no set that differs in its low bits; it says true of a colliding set if and only if, besides that, one declared after 0xFFFF has its low bits; so it is right for key sets without 0xFFFF |
| `Compact.TableCompact.Dispatch` | plugin-dispatch-kata/cpp/src/strategy.hpp:206-266 | Answers every packet as the scan when the low bits differ |
| `Compact.TableCompact.CollisionRefuses` | plugin-dispatch-kata/cpp/src/strategy.hpp:210-213 | Where two keys collide, some declared key has all its packets refused |
| `Compact.TableCompact.CompactAgreesIff` | plugin-dispatch-kata/cpp/src/strategy.hpp:194-235 | The table agrees with the scan on every packet if and only if the low bits of the declared keys differ |
| `Compact.TableCompact.WrongReportRefuses` | plugin-dispatch-kata/cpp/src/strategy.hpp:246-258 | Any built table whose report is wrong has 0xFFFF among its keys and refuses all of its packets |
| `Compact.EmptyMarkerCollides` | plugin-dispatch-kata/cpp/src/strategy.hpp:246-258 | A table built from two pure handlers, of 0xFFFF and of 0x03FF, says true and refuses the packets that the scan gives to the first |
| `Generated.GenIsHonest` | plugin-dispatch-kata/cpp/src/generated.hpp:71-90 | Every generated handler declares truly |
| `Generated.GenDisjoint` | plugin-dispatch-kata/cpp/src/generated.hpp:75-82 | No packet has two generated handlers |
| `Generated.PrefixMeets` | plugin-dispatch-kata/cpp/src/generated.hpp:109-113 | Every prefix of the set meets what all arms ask |
| `Generated.ArmsAgree` | plugin-dispatch-kata/cpp/src/strategy.hpp:23-271 | Over any prefix and after any packets all five arms give every packet the same handler |

## Left out

- RingShutdown.CppTicketCanHang: no liveness is claimed for C++ tickets after a close; only the safety theorems cover that rule.
- RingShutdown.SomebodyPays: one step that pays; `SomeScheduleEmpties` strings such steps together. That the scheduler runs those threads is not part of this model.
- BitmapSafety.NeverStranded: does not say that every sleeper is woken, because the chained wake reads the head and its sequence separately: a pop that claims the head in between ends the chain. What one wake does is in `BitmapWakes.WakeIsHeeded` and `BitmapLone.LoneWakeTakes`.
- BitmapSafety.CloseReturns: says "or is about to", because the second of two callers returns while the first is still waking.
- RingLone.LonePush: a call that runs undisturbed; the answers under interference are in `RingReturns`, and that the scheduler runs a call to its end is not part of this model.
- WeirTheorems.StatsAddUp: Stats reads its counters one at a time; the equation is stated for the state, not for a racing reader. Pushes refused because the pipeline no longer accepts are not counted by the source either.
- WeirTheorems.NothingInvisible: claimed for the bitmap policy only; under full scan producers do not notify, and the source relies on its timer.
- MutexQueue.MutexQueue.PushBatch: a batch that waits for room between its items is not modelled, only the one that stops there.
- Histogram.Histogram.Quantile: the number of the sample is computed over exact reals, not doubles, and the counters do not wrap at 2^64.
- Tables.TableDirect16.Dispatch: answers which handler processes the packet; what `process` computes is the handler's own. Probe counts are modelled for the scans only.
- Scans.Ordered: the library's stable sort is an insertion sort; any stable sort gives the same list.
- Turnstile.Ring.TryPush: a call run alone cannot lose a compare-and-swap or read a stale counter, so the retry loop's other exits are in `Ring` only; ticket pushes that have to wait are in `Ring` only.
- The interleaved protocols are modelled on values: Dafny has no threads that share memory, so a step function takes the place of methods that update fields in place.
- Weak memory orderings, padding, cache lines, PAUSE, yields and the unfenced stale read of the head before sleeping that `mpmc_queue.hpp` notes.
- Positions, epochs and keys are unbounded; `Words` gives the bound below which the 64-bit words agree. The 32-bit wrap of the C++ epoch is not modelled.
- Waking producers blocked on a full ring: wakes are batched there and rely on the timer, so nothing is claimed. The blocking push is its TryPush repeated.
- The wait of StopWithDeadline may end at any time; what it reports afterwards (whether the rings emptied in time) is not modelled.
- Timers, deadlines, spin and yield budgets are choices that a step may take at any time; no latency is claimed. `PushSpin` retries are any number.
- The shared-token waiter option, the sleeping slot indices of `Waiter.slot`, hooks, deliberate bug options, backoff, and statistics of retries, parks and wakes.
- The C++ pipeline's relaxed loads and its event hook; high-water marks and consumed counts.
- The channel and mutex baselines of the pipeline, `ChanQueue`, Python's pipeline, active set and asyncio bridge, and `DequeRing`.
- Plugin loading, ABI probes, dispatch mechanisms, packet generation, clocks and benchmarks.
