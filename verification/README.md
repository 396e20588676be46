# Verified model of the Brickwright hub firmware's hardest parts

A Dafny 4.11 model of five components of the Brickwright repository, with machine-checked proofs of
what they promise. `dafny verify dfyconfig.toml` checks everything.

**Transmit arbiter** (`apps/btsensor/btsensor_tx.c`; files `Tx*.dfy`). Every region that runs under the
arbiter's lock is one function (`TxModel`), and the same region written in place on slot arrays
(`TxArbiter.Arbiter`) is proved equal to it. `TxSystem` interleaves those regions with the transport's
send, the timer back end's start and cancel and the application's callbacks, on any number of
threads. The theorems hold in every state of every run.

**Motor runs and actuator ownership** (`apps/btsensor/btsensor_classic.c`,
`apps/btsensor/btsensor_modern_backend.c`; files `Motor*.dfy`). One transition system over both files:
timer visits, explicit stops, disconnects, a second link, device errors and timer failures interleave
between locked regions. `MotorObjects` holds the in-place form of the tables.

**Background scheduler** (`apps/btsensor/btsensor_scheduler.c`; files `Scheduler*.dfy`). The worker's
poll rounds and dispatches against threads that start and stop watches.

**Drivebase** (`apps/drivebase/`; files `Drive*.dfy`). Integer unit conversion, the per-axis controller
with its passive latch and pause clock, the two-axis tick with fault handling, and the freeze handshake
with the recovery thread. `DriveObjects` holds the structures with their fields.

**Exact tools** (`tools/make_romfs.py`, `tools/check_ti_free_image.py`,
`tools/audit_source_similarity.py`; files `Romfs*.dfy`, `RollingHash.dfy`, `ImageScan.dfy`,
`Similarity*.dfy`). A ROMFS writer with an independent reader, and two rolling-hash scans against naive
search.

## Where the code and its comments differ

- `apps/drivebase/drivebase_drivebase.c:1066-1114` describes COAST and BRAKE propagation alike, but the
  variable `propagate` uses 0 for "nothing" and COAST is coded 0
  (`boards/spike-prime-hub/include/board_drivebase.h:119`). An axis that asks for COAST therefore stops
  neither the other axis nor the wheels. `DriveMoves.CoastDoesNotPropagate` is a command and a tick from
  the initial state. `DriveMoves.MoveEndsAtRestExactly` is the exact condition on the command: once an
  axis completes, both wheels come to rest for good if and only if the requested completion is not COAST
  or COAST_SMART.
- Sends from one queue to one link stay in ticket order within a lifetime of the arbiter only: an init
  while a send is in flight lets an older ticket go out last. `TxWitness.ReinitialisedOrder` is such a
  run, `TxTheorems.SendOrder` the exact condition.
- The last ticket, 2^64-1, is admitted but never picked, because the scan compares with `<` against
  that value: `TxLastTicket.LastTicketNeverSent` for every run, `TxLastTicket.LastTicketLeftBehind` a run
  for a ring of any depth that admits it and leaves it behind, `TxLastTicket.LeftBehindExactly` the exact
  condition.
- A timed run at speed 0 receives no ownership token, so its end is refused and the request is answered
  with EINVAL after the full duration: `MotorExpiry.IdleRunAnsweredInvalid` is such a run, for every
  accepted duration, and `MotorExpiry.ExpiryResult` says of every run what an expiry answers, and when.
- Ownership taken while a link's generation is still 0 does survive the link's first connect
  (`apps/btsensor/btsensor_modern_backend.c:513`): `MotorExpiry.FirstConnectKeepsOwnership` is a run,
  `MotorExpiry.SurvivesConnectExactly` the exact condition.
- A deinit while a pump is in flight leaves `g_pumping` set, so that no later pump makes its final check
  before the next init; `TxDeinit.DeinitLeavesTimer` is a run that comes to rest with a timer installed
  that no registration wants. The flag is what decides: `TxTheorems.QuietMeansSynchronised` holds for every
  run that comes to rest with it clear, and between an init and the next deinit it is clear whenever no pump
  is in its loop (`TxTheorems.FlagMeansPump`).
- A disconnect takes the pending runs under the lock but stops the timer after releasing it
  (`apps/btsensor/btsensor_classic.c:656-662`), so a run started in between is pending without a timer.
  `MotorTimer.DisconnectLosesTimer` is such a run for every accepted request, `MotorTimer.AttendedExactly`
  says that this step alone loses a timer.
- A pump call that finds another pump running is not always honoured: the running pump looks at both links
  again once only. `TxWakeUp.LooksAgainExactly` is the exact condition; what is then left is said by
  `TxWakeUp.NoLostWakeUp`.
- The freeze gate of `apps/drivebase/drivebase_daemon.c:168-170` excludes the recovery thread only if
  reading `io_frozen` and setting `rt_idle` is not interrupted by it, which the thread priorities ensure.
  `DriveFreeze.SplitGateFails` is a run with a stale acknowledgement when the two are taken apart.

## Model

| member | source | states |
|---|---|---|
| `TxTheorems.SentAtMostOnce` | apps/btsensor/btsensor_tx.c:294-370 | in every run no ticket is sent successfully twice, and what is sent is what was admitted under that ticket, for that link, queue and BLE identity |
| `TxTheorems.SendOrder` | apps/btsensor/btsensor_tx.c:294-370 | two successful sends from one queue to one link are in ticket order if and only if their pumps' lifetimes are |
| `TxWitness.ReinitialisedOrder` | apps/btsensor/btsensor_tx.c:156-171 | from every initial state a run in which a re-initialisation reverses the order of two sends |
| `TxTheorems.FrameAccounting` | apps/btsensor/btsensor_tx.c:129-282 | since the last init, frames admitted = sent + dropped oldest + discarded + queued; one slot of each queue stays free; queued entries belong to the current session of an online link |
| `TxTheorems.PumpLeavesOnlyRefused` | apps/btsensor/btsensor_tx.c:294-370 | when a pump leaves its loop every message still queued is for a link whose latest attempt in that pump was refused, or holds the last ticket |
| `TxOutcomes.LeavesQueueExactly` | apps/btsensor/btsensor_tx.c:129-370 | in every step of every run a queued message leaves its queue if and only if the transport answered its send with 0 (or its BLE connection is gone, -116), or a new frame displaces it as the oldest of a full ring, or its link is discarded; after any other answer it stays |
| `TxOutcomes.RefusedExactly` | apps/btsensor/btsensor_tx.c:350-368 | in every run a pump counts a link as refused if and only if the transport's latest answer to it was an error other than -116 on BLE |
| `TxOutcomes.PicksResponsesThenOldest` | apps/btsensor/btsensor_tx.c:306-349 | the message a pump takes up is queued, and every response before it, or older message of its kind, is for a link whose latest answer was a refusal, or holds the last ticket |
| `TxOutcomes.EntersQueueExactly` | apps/btsensor/btsensor_tx.c:140-282 | in every step of every run: which enqueue calls are accepted and what each answers, and that an accepted message is queued with its bytes, link, session and BLE identity under the next ticket, nothing else being added |
| `TxOutcomes.LinksAreAsReported` | apps/btsensor/btsensor_tx.c:156-218 | in every run the online links, their sessions and the selected link are what the lifecycle calls so far have said |
| `TxLastTicket.LastTicketNeverSent` | apps/btsensor/btsensor_tx.c:309-331 | in no run is ticket 2^64-1 picked up by a pump or sent |
| `TxLastTicket.LeftBehindExactly` | apps/btsensor/btsensor_tx.c:306-349 | a message queued in any earlier state, on a link that discards nothing until a pump leaves its loop and did not refuse in that pump, is still queued then if and only if it holds that ticket |
| `TxLastTicket.LastTicketLeftBehind` | apps/btsensor/btsensor_tx.c:140-154 | from every initial state, whatever the ring depth, a run that admits that ticket, and whose pump leaves it behind without an attempt |
| `TxDeinit.DeinitLeavesTimer` | apps/btsensor/btsensor_tx.c:173-183 | a run that is quiet after a deinit with the flag still set and a timer installed that no registration wants |
| `TxTheorems.PumpAttemptsBounded` | apps/btsensor/btsensor_tx.c:294-370 | a pump makes at most (messages queued at its start + messages admitted since + 4) send attempts |
| `TxTheorems.ClaimedExactlyOnce` | apps/btsensor/btsensor_tx.c:355-453 | every registration id given out is claimed exactly once, by drain, timeout, start failure, cancel or discard, except the one still armed |
| `TxOutcomes.RegistrationEndsExactly` | apps/btsensor/btsensor_tx.c:81-453 | in every step of every run: exactly when an armed registration ends and how: by its own timer expiring, whatever is queued; by its caller's cancel; by a final check that finds both queues empty; by a discard; by a refused start; it is then cleared and logged once with its own id and callback, and otherwise it is left as it was |
| `TxOutcomes.RegistrationBeginsExactly` | apps/btsensor/btsensor_tx.c:404-428 | what each arming call answers, in which case a registration begins, and with which id, callback and timeout |
| `TxOutcomes.CallbackIsTheArmedOne` | apps/btsensor/btsensor_tx.c:404-453 | a registration keeps the callback and timeout its caller handed in until it ends |
| `TxTheorems.IdsNeverReused` | apps/btsensor/btsensor_tx.c:404-428 | later successful registrations get strictly larger ids |
| `TxTheorems.RegistrationNotLost` | apps/btsensor/btsensor_tx.c:372-383 | an armed registration with both queues empty has a pump that has not yet made its final drain check |
| `TxTheorems.TimerCallsSerialised` | apps/btsensor/btsensor_tx.c:47-105 | at most one reconciler is in a back-end call; each id is started at most once, cancelled at most once, and cancelled only after a start by the same provider |
| `TxOutcomes.StartsTheArmedTimer` | apps/btsensor/btsensor_tx.c:52-79 | in every run a timer is started only for the registration that is armed then, which has a timeout, at the provider set then |
| `TxOutcomes.FailedStartLeavesNoTimer` | apps/btsensor/btsensor_tx.c:81-105 | in every run a timer whose start the back end refused is never installed and never cancelled |
| `TxTheorems.QuietMeansSynchronised` | apps/btsensor/btsensor_tx.c:47-113 | in every run, with or without a deinit, once no pump, reconciler or pending call remains and `g_pumping` is clear, the installed timer is the one the registration wants |
| `TxTheorems.FlagMeansPump` | apps/btsensor/btsensor_tx.c:294-349 | between an init and the next deinit `g_pumping` is set if and only if a pump of this lifetime is in its loop |
| `TxWakeUp.NoLostWakeUp` | apps/btsensor/btsensor_tx.c:294-370 | in every state with no pump in its loop and no pump call pending, every queued message is for a link the last departing pump was refused on, or holds the last ticket |
| `TxWakeUp.LooksAgainExactly` | apps/btsensor/btsensor_tx.c:294-349 | a pump call that finds a pump running makes that pump look at both links again before it leaves its loop, if and only if the pump's one retry is still available at the call |
| `TxTheorems.InvStep` | apps/btsensor/btsensor_tx.c:47-453 | every step of every thread keeps delivery, accounting, registration, not-lost and timer invariants |
| `TxDelivery.DeliveryStep` | apps/btsensor/btsensor_tx.c:156-383 | every step keeps the relation between queues, messages in flight, history and sends |
| `TxAccounting.ConservedStep` | apps/btsensor/btsensor_tx.c:129-368 | every step keeps the frame balance |
| `TxAccounting.PumpWorkStep` | apps/btsensor/btsensor_tx.c:294-370 | every step keeps each pump's attempts plus remaining work within its allowance |
| `TxRegistrations.RegistrationsStep` | apps/btsensor/btsensor_tx.c:47-453 | every step keeps claims and timer calls well formed |
| `TxQueues.ResponseValid` | apps/btsensor/btsensor_tx.c:225-244 | an admitted response keeps the queues valid and goes to a free slot |
| `TxQueues.FrameValid` | apps/btsensor/btsensor_tx.c:256-282 | an admitted frame keeps the queues valid, replacing the oldest frame when the ring is full |
| `TxArbiter.Arbiter.Init` | apps/btsensor/btsensor_tx.c:156-171 | in place, exactly the init region |
| `TxArbiter.Arbiter.Deinit` | apps/btsensor/btsensor_tx.c:173-183 | in place, exactly the deinit region |
| `TxArbiter.Arbiter.LinkState` | apps/btsensor/btsensor_tx.c:185-196 | in place, exactly the link report region |
| `TxArbiter.Arbiter.SetLink` | apps/btsensor/btsensor_tx.c:198-218 | in place, exactly the link selection region |
| `TxArbiter.Arbiter.FindOldest` | apps/btsensor/btsensor_tx.c:309-331 | the scan's index is that of an eligible slot with the smallest ticket, or -1 when none is eligible |
| `TxArbiter.Arbiter.EnqueueResponse` | apps/btsensor/btsensor_tx.c:225-244 | result and new state of enqueueing a response, errors included |
| `TxArbiter.Arbiter.EnqueueFrame` | apps/btsensor/btsensor_tx.c:256-282 | result and new state of enqueueing a frame, drop-oldest and errors included |
| `TxArbiter.Arbiter.EnterPump` | apps/btsensor/btsensor_tx.c:294-305 | a pump starts unless one is running, which is then asked to look again |
| `TxArbiter.Arbiter.PickNext` | apps/btsensor/btsensor_tx.c:306-349 | what a pump does next, in place |
| `TxArbiter.Arbiter.PostSend` | apps/btsensor/btsensor_tx.c:355-369 | what becomes of the slot after a send, by the transport's raw answer, also when it was overwritten meanwhile |
| `TxArbiter.Arbiter.FinishPump` | apps/btsensor/btsensor_tx.c:372-383 | the final drain check, in place |
| `TxArbiter.Arbiter.Arm` | apps/btsensor/btsensor_tx.c:404-428 | result and new state of arming a registration |
| `TxArbiter.Arbiter.OnDrainTimeout` | apps/btsensor/btsensor_tx.c:430-444 | the timeout claims its own registration if and only if that is armed and its timer installed, whatever is queued |
| `TxArbiter.Arbiter.ClearRegistration` | apps/btsensor/btsensor_tx.c:446-453 | cancelling claims exactly the named registration |
| `TxArbiter.Arbiter.ReconcileOnce` | apps/btsensor/btsensor_tx.c:52-79 | the reconciler's loop up to its next call, in place |
| `TxArbiter.Arbiter.StartReturned` | apps/btsensor/btsensor_tx.c:81-105 | what a returning start call leaves, in place |
| `TxArbiter.Arbiter.SetTimerOps` | apps/btsensor/btsensor_tx.c:392-402 | the provider changes only while nothing is armed, installed or in progress |
| `MotorTheorems.DeferredAnsweredOnce` | apps/btsensor/btsensor_classic.c:439-647 | in every reachable state the answer to a deferred request is in exactly one place: its run pending on one port, owed by one thread, sent exactly once, or dropped |
| `MotorTheorems.QuietMeansAnswered` | apps/btsensor/btsensor_classic.c:439-647 | with no thread inside, a run that left its port without being dropped has been answered, exactly once |
| `MotorTheorems.DroppedOnlyByDisconnect` | apps/btsensor/btsensor_classic.c:649-666 | an answer is dropped by a step if and only if it is a disconnect or an init and the run is still pending; both take every run off its port |
| `MotorTheorems.AnswersStand` | apps/btsensor/btsensor_classic.c:475-576 | answers are never taken back; a request becomes deferred exactly when its start and the arming of the timer succeed |
| `MotorReplies.AnswersCarryTheirId` | apps/btsensor/btsensor_classic.c:404-411 | in every run an answer carries the id of the request that started the run |
| `MotorReplies.SentExactlyOnceWithId` | apps/btsensor/btsensor_classic.c:389-411 | a deferred request gets at most one message, and gets one if and only if it came with an id and has been answered |
| `MotorReplies.AnswerResults` | apps/btsensor/btsensor_classic.c:439-473 | an explicit stop answers 0, a timer failure a negative result, an expiry the result its thread holds (see ExpiryResult) |
| `MotorReplies.EndResult` | apps/btsensor/btsensor_classic.c:619-625 | that result is the motion's, unless the end call itself failed |
| `MotorTheorems.ThreadProgress` | apps/btsensor/btsensor_classic.c:439-647 | each step of a thread lowers a bound on the steps it has left |
| `MotorTheorems.OthersStay` | apps/btsensor/btsensor_classic.c:439-647 | no other step moves a thread |
| `MotorTheorems.ThreadNeverStuck` | apps/btsensor/btsensor_classic.c:439-647 | a thread always has a step to take once the lock is free |
| `MotorLiveness.OwedAnswerFollows` | apps/btsensor/btsensor_classic.c:439-647 | from every reachable state in which a thread owes an answer the run can go on so that it is sent, within the thread's bound on its steps, plus one when a failing start holds the lock |
| `MotorTimer.AttendedExactly` | apps/btsensor/btsensor_classic.c:413-666 | where every pending run has a running timer or a thread that will arm it, a step keeps that so if and only if it is not a disconnect's late `timer_stop` with a run pending and no thread about to arm |
| `MotorTimer.ArmedExactly` | apps/btsensor/btsensor_classic.c:413-662 | in every step the timer runs afterwards if and only if it was just armed with a run pending, or ran before and has neither fired nor been stopped |
| `MotorTimer.PendingRunsAreAttended` | apps/btsensor/btsensor_classic.c:413-666 | in every run without such a step, a pending run has a running timer or a thread that will arm it, in every state |
| `MotorTimer.DisconnectLosesTimer` | apps/btsensor/btsensor_classic.c:649-666 | for every accepted request, a run that comes to rest with it pending, no timer running and no thread inside |
| `MotorTheorems.EndActsExactlyWhenUntouched` | apps/btsensor/btsensor_modern_backend.c:450-486 | in every run an end with a granted token acts if and only if no step has touched the port since; otherwise it is answered ESTALE and changes nothing |
| `MotorTheorems.ThreadsEndTheirOwn` | apps/btsensor/btsensor_classic.c:504-525 | every end call a Classic thread makes names token 0 or a token issued to Classic for that very port |
| `MotorTheorems.OwnersInEveryRun` | apps/btsensor/btsensor_modern_backend.c:408-426 | in every run a port has at most one owner, and a nonzero token exactly when owned |
| `MotorTheorems.TokensNeverReused` | apps/btsensor/btsensor_modern_backend.c:408-426 | later grants have larger tokens |
| `MotorTheorems.ReportStopsOnlyItsLink` | apps/btsensor/btsensor_modern_backend.c:488-521 | a link report frees exactly the reporting link's ports, exactly when the generations say so, and leaves every other port alone |
| `MotorTheorems.GenerationNeverSurvives` | apps/btsensor/btsensor_modern_backend.c:504-521 | ownership taken under a nonzero generation is gone for good after a connect with another generation |
| `MotorExpiry.ExpiryResult` | apps/btsensor/btsensor_classic.c:578-636 | in every run, what the timer answers for a deferred request: the motion's result if and only if the request was driven, its port untouched since and the end accepted by the device; else EINVAL at speed 0, ESTALE when touched, the device's error otherwise |
| `MotorExpiry.EndAnswered` | apps/btsensor/btsensor_modern_backend.c:450-486 | what the end call of a deferred run is answered, from its request, the steps since and the device |
| `MotorExpiry.IdleRunAnsweredInvalid` | apps/btsensor/btsensor_classic.c:475-528 | for every id and every duration and end state that is accepted, a run in which a timed request at speed 0 is deferred, expires and is answered EINVAL |
| `MotorTiming.TimedEndsOnTime` | apps/btsensor/btsensor_classic.c:475-590 | in every run a visit of the timer ends a deferred timed run if and only if it comes to the run's port while the run is there and the requested time has passed since the start |
| `MotorTiming.DegreesEndExactly` | apps/btsensor/btsensor_classic.c:530-617 | in every run a due visit ends a degrees run with success if and only if the motor has truly turned by at least the requested angle the requested way; else it goes on, due again in 20 ms, if and only if 60 s have not passed since the start and the motor moved within the last second; else it ends with -110 |
| `MotorTiming.DegreesFirstDue` | apps/btsensor/btsensor_classic.c:550-567 | a degrees run is first due 20 ms after its start |
| `MotorTiming.EncoderErrorEnds` | apps/btsensor/btsensor_classic.c:593-617 | any answer of the encoder other than 0 and -11 ends the run with that answer |
| `MotorTiming.RecordIsFolded` | apps/btsensor/btsensor_classic.c:475-617 | in every run the record of a pending run is what its request set it to, with the timer's visits to its port folded in and nothing else |
| `MotorTiming.EndCallNames` | apps/btsensor/btsensor_classic.c:617-625 | in every run the end call of an expired run names the port and token of its start, and the requested end state, or braking after a failed motion |
| `MotorTiming.OtherEndCallsName` | apps/btsensor/btsensor_classic.c:430-576 | a start whose timer cannot be armed ends its own motion, braking a degrees run; aborted and dropped runs are braked |
| `MotorTiming.DelayReachesEarliest` | apps/btsensor/btsensor_classic.c:413-428 | once the armed delay has passed some run is due, unless that is more than 32 bits away, and until then no run becomes overdue |
| `MotorExpiry.SurvivesConnectExactly` | apps/btsensor/btsensor_modern_backend.c:504-521 | where nothing else touches the port, ownership survives a connect of its link if and only if it was taken under generation 0 or under the connecting one |
| `MotorExpiry.FirstConnectKeepsOwnership` | apps/btsensor/btsensor_modern_backend.c:509-516 | a run in which ownership taken at generation 0 survives the first connect |
| `MotorOwnership.TouchedExactly` | apps/btsensor/btsensor_modern_backend.c:408-551 | a token in force survives a step if and only if the step does not touch its port |
| `MotorOwnership.OwnershipStep` | apps/btsensor/btsensor_modern_backend.c:408-551 | every step keeps one owner per port and only genuine tokens in force |
| `MotorFates.FatesStep` | apps/btsensor/btsensor_classic.c:439-666 | every step keeps the account of where each answer is |
| `MotorEncoder.DisplacementExact` | apps/btsensor/btsensor_classic.c:593-609 | for any unbounded path whose successive fresh samples are less than 2^31 apart, the accumulated displacement is final minus baseline |
| `MotorEncoder.SampleExactOnlyBelowHalf` | apps/btsensor/btsensor_classic.c:598-608 | a sample is accounted for exactly if and only if it is less than half the counter range away; exactly half is refused |
| `MotorEncoder.SucceedsExactlyWhenReached` | apps/btsensor/btsensor_classic.c:610-617 | a due poll ends with success if and only if the motor has truly gone the requested way |
| `MotorEncoder.ContinuesExactlyWhileProgressing` | apps/btsensor/btsensor_classic.c:593-617 | a due poll lets the run go on if and only if it is not there yet, its 60 s are not over, and it moved in the last second |
| `MotorEncoder.PollsBounded` | apps/btsensor/btsensor_classic.c:550-617 | for any encoder behaviour a degrees run is continued by fewer than 3000 polls |
| `MotorObjects.OwnershipTable.SetMotorOwner` | apps/btsensor/btsensor_modern_backend.c:408-426 | in place, exactly the ownership change, and the token granted |
| `MotorObjects.OwnershipTable.EndMotorIfOwned` | apps/btsensor/btsensor_modern_backend.c:450-486 | in place, result and new state for every device answer |
| `MotorObjects.OwnershipTable.StopOwned` | apps/btsensor/btsensor_modern_backend.c:488-502 | the loop frees and stops exactly the link's ports |
| `MotorObjects.OwnershipTable.LinkState` | apps/btsensor/btsensor_modern_backend.c:504-521 | in place, exactly the link report |
| `MotorObjects.OwnershipTable.ShutDown` | apps/btsensor/btsensor_modern_backend.c:523-551 | in place, exactly the shutdown |
| `MotorObjects.PendingRuns.Admit` | apps/btsensor/btsensor_classic.c:509-517 | the record of an accepted run, written field by field |
| `MotorObjects.PendingRuns.Visit` | apps/btsensor/btsensor_classic.c:584-618 | in place, the timer's look at one port |
| `MotorObjects.PendingRuns.Claim` | apps/btsensor/btsensor_classic.c:626-634 | a run is taken only if it is still active and of the same generation |
| `MotorObjects.PendingRuns.TakeAll` | apps/btsensor/btsensor_classic.c:641-644 | every record is handed out and cleared |
| `MotorObjects.PendingRuns.NextDelay` | apps/btsensor/btsensor_classic.c:413-428 | the delay is up to the earliest active deadline, at least 1, at most 2^32-1 |
| `MotorModel.Earliest` | apps/btsensor/btsensor_classic.c:417-423 | no active run has an earlier deadline, and some active run has this one |
| `SchedulerProofs.StoppedForGood` | apps/btsensor/btsensor_scheduler.c:312-337 | in every run, after watch_stop returns and until the watch is started again, its descriptor is in no poll round, its callback is not running and no call of it begins |
| `SchedulerProofs.StopWaitsAtMostOneRound` | apps/btsensor/btsensor_scheduler.c:60-165 | a watch being stopped enters no new round and is out of the current one when that ends |
| `SchedulerService.StartServes` | apps/btsensor/btsensor_scheduler.c:282-310 | in every run watch_start registers the watch, active, on the caller's descriptor with both flags clear, if and only if the table has a NULL slot, and changes no other watch |
| `SchedulerService.ServedInEveryRound` | apps/btsensor/btsensor_scheduler.c:60-94 | in every run, from such a start until its stop begins or the table is released, every round polls the watch on that descriptor |
| `SchedulerService.CalledExactlyWhenReadable` | apps/btsensor/btsensor_scheduler.c:131-154 | a callback begins if and only if the worker comes to a watch of its round that is readable and still active |
| `SchedulerService.RoundVisitedInOrder` | apps/btsensor/btsensor_scheduler.c:131-165 | between a poll's return and the end of its round every watch of the round is visited once, in table order |
| `SchedulerService.WorkerLeavesExactly` | apps/btsensor/btsensor_scheduler.c:64-80 | the worker leaves instead of building a round if and only if a stop was requested since it was started; releasing unregisters every watch |
| `SchedulerProofs.QuietStopReturns` | apps/btsensor/btsensor_scheduler.c:319-325 | a waiting stop can return if and only if its watch is in no round |
| `SchedulerProofs.InvStep` | apps/btsensor/btsensor_scheduler.c:60-337 | every step keeps: one slot per watch, distinct registered watches in a round, flags that say exactly what the worker does |
| `SchedulerProofs.RemovedExactly` | apps/btsensor/btsensor_scheduler.c:327-334 | clearing the first matching slot unregisters that watch and no other |
| `SchedulerProofs.FullRound` | apps/btsensor/btsensor_scheduler.c:82-94 | a round holds exactly the active registered watches, once each |
| `SchedulerTable.Table.StartWatch` | apps/btsensor/btsensor_scheduler.c:282-310 | in place: the first NULL slot is taken, or nothing changes |
| `SchedulerTable.Table.RemoveWatch` | apps/btsensor/btsensor_scheduler.c:327-334 | in place: the first matching slot is cleared |
| `SchedulerTable.Table.BuildRound` | apps/btsensor/btsensor_scheduler.c:82-94 | in place: the round and the polling flags |
| `SchedulerTable.Table.EndRound` | apps/btsensor/btsensor_scheduler.c:159-165 | in place: the polling flags of the round are cleared |
| `DriveAngle.MmRoundTrip` | apps/drivebase/drivebase_angle.h:73-98 | for every distance and every wheel below 72 m, millimetres to millidegrees and back is the identity |
| `DriveAngle.NoOverflow` | apps/drivebase/drivebase_angle.h:73-98 | for every 32-bit distance and every wheel of 10 um to 10 m no intermediate value leaves 64 bits |
| `DriveAngle.SmallWheelsOverflow` | apps/drivebase/drivebase_angle.h:89-98 | for every smaller wheel the longest distance does overflow |
| `DriveAngle.RoundTripNeedsABound` | apps/drivebase/drivebase_angle.h:73-98 | on every wheel of 180 m or more one millimetre does not come back |
| `DriveAngle.DivRound` | apps/drivebase/drivebase_angle.h:73-80 | the rounded quotient is within half a divisor of the exact one, for either sign |
| `DriveAngle.AngleAccurate` | apps/drivebase/drivebase_angle.h:89-98 | the angle is the distance over the circumference, with pi as 355/113, to within two thirds of a millidegree |
| `DriveAngle.DistanceAccurate` | apps/drivebase/drivebase_angle.h:82-87 | the distance is the angle's share of the circumference, to within half a millimetre and the rounding of pi |
| `DriveControl.PassiveMeansLatched` | apps/drivebase/drivebase_control.c:144-348 | an axis asks for a passive action exactly when it is latched, and then with zero duty and done |
| `DriveControl.LatchStays` | apps/drivebase/drivebase_control.c:157-163 | a latched axis repeats its action and changes nothing, whatever the inputs |
| `DriveControl.IntegratorNeverSaturates` | apps/drivebase/drivebase_control.c:210-234 | in every run from a reset the integrator's contribution never exceeds full output |
| `DrivePid.DutyIsSumOfTerms` | apps/drivebase/drivebase_control.c:165-215 | over two successive updates: the duty is the limited sum of the position term, the change of the position error over the time step, the speed term, the integrator and the feed-forward, and the saturation flags say which limit was passed |
| `DrivePid.IntegratesExactly` | apps/drivebase/drivebase_control.c:67-234 | the integrator takes in both errors over the time step, limited to full output, if and only if not paused, outside the dead band and not winding up |
| `DrivePid.DoneExactly` | apps/drivebase/drivebase_control.c:236-258 | for any inputs from a reset, done means settled (both tolerances, trajectory over) now and without interruption for the whole window |
| `DrivePid.PassiveExactlyWhenDue` | apps/drivebase/drivebase_control.c:260-348 | for any inputs from a reset, the controller goes passive exactly in the first done update, for SMART completions once done for the hold time in all, for HOLD and CONTINUE never, and with the action of its completion |
| `DriveControl.AxisReports` | apps/drivebase/drivebase_aggregate.c:261-415 | what an axis reports: one of three actions, passive only with zero duty, BRAKE only when latched in it |
| `DrivePid.AxisFeedsForward` | apps/drivebase/drivebase_aggregate.c:261-415 | an axis in flight drives its controller against the trajectory's reference, with feed-forward from the reference's speed and acceleration, and reports that reference |
| `DrivePid.PausesExactly` | apps/drivebase/drivebase_aggregate.c:380-415 | the trajectory stands still after an update if and only if the output is saturated the way the error points and neither the speed error nor the reference's acceleration points the other way |
| `DrivePause.ReferenceTime` | apps/drivebase/drivebase_aggregate.c:55-90 | for every sequence of commands and ticks on a nondecreasing clock, trajectory time is clock time minus total paused time, never before the trajectory's start, and an inactive axis is never paused |
| `DrivePause.FrozenOrRunning` | apps/drivebase/drivebase_aggregate.c:55-68 | trajectory time stands still while paused and runs with the clock otherwise |
| `DrivePause.ContinuousAtEvents` | apps/drivebase/drivebase_aggregate.c:394-414 | pausing, resuming and retargeting leave trajectory time where it was |
| `DrivePause.NeverDecreases` | apps/drivebase/drivebase_aggregate.c:55-90 | over any stretch with one trajectory in flight trajectory time never decreases |
| `DriveTick.PassiveExactly` | apps/drivebase/drivebase_drivebase.c:1072-1114 | a tick without fault makes both wheels passive and latches both axes if and only if some axis asks for BRAKE and none for COAST |
| `DriveTick.BrakeLasts` | apps/drivebase/drivebase_drivebase.c:1100-1114 | from such a tick on, for any number of later ticks without fault or command, both wheels are braked with zero duty |
| `DriveMoves.FirstCompletionDecides` | apps/drivebase/drivebase_drivebase.c:1053-1114 | after a move command and any ticks without fault, the first passive completion decides for all later ticks: both wheels braked and both axes latched for good if and only if no axis completing in that tick was told to coast, wheels driven in every later tick otherwise |
| `DriveMoves.MoveEndsAtRestExactly` | apps/drivebase/drivebase_drivebase.c:625-685 | for the drivebase's commands, once an axis completes, both wheels come to rest for good if and only if the requested completion is not COAST or COAST_SMART |
| `DriveMoves.MovingUpdate` | apps/drivebase/drivebase_aggregate.c:261-415 | an axis under way holds and stays under way, or completes and latches with its own passive action |
| `DriveMoves.CoastDoesNotPropagate` | apps/drivebase/drivebase_drivebase.c:1072-1100 | from the initial state, a straight with COAST and one tick: the distance axis is latched in COAST, the heading axis is not, and the wheels are driven against each other |
| `DriveTick.CoastStopDrivesZero` | apps/drivebase/drivebase_drivebase.c:1115-1225 | after a COAST stop of both axes, for any number of ticks without fault or command, the wheels get zero duty as an active command |
| `DriveCompose.TickDrives` | apps/drivebase/drivebase_drivebase.c:1115-1225 | in every tick without fault or brake: the left wheel gets distance minus heading duty, the right their sum, each with half the friction duty along its own reference speed, the breakaway push along its own error, the battery's correction and the limits |
| `DriveCompose.SumAndDifference` | apps/drivebase/drivebase_drivebase.c:1174-1225 | without friction and at nominal voltage the recorded duties are d - h and d + h, limited to full scale |
| `DriveCompose.SignHeldExactly` | apps/drivebase/drivebase_drivebase.c:132-140 | for any speeds from rest the friction sign is that of the last entry above the entry speed, kept until the wheel slows below the exit speed or enters the other way |
| `DriveCompose.BreakawayExactly` | apps/drivebase/drivebase_drivebase.c:178-229 | exactly when a trapped wheel is pushed, which way and how hard, and when its episode is over |
| `DriveTick.PendingMeansNoDuty` | apps/drivebase/drivebase_drivebase.c:1084-1240 | at the end of every completed update a pending reclaim means both recorded duties are zero |
| `DriveTick.FaultCoastsBoth` | apps/drivebase/drivebase_drivebase.c:1084-1099 | a fault found before the decision coasts both wheels and stays pending |
| `DriveTick.DutyWithinRails` | apps/drivebase/drivebase_servo.c:230-274 | recorded duty never leaves full scale |
| `DriveTick.BreakawayRaisesOnly` | apps/drivebase/drivebase_drivebase.c:178-229 | the breakaway floor only raises a duty toward the target to exactly the floor, never against braking |
| `DriveTick.BreakawayOneWay` | apps/drivebase/drivebase_drivebase.c:178-229 | within one finished move, for any errors and duties, a wheel is never pushed both ways |
| `DriveTick.ObeyKeepsGood` | apps/drivebase/drivebase_drivebase.c:976-1017 | commands keep latches passive; a passive stop makes both wheels and axes passive at once |
| `DriveCommands.ObeyExactly` | apps/drivebase/drivebase_drivebase.c:625-1017 | what each command leaves of both axes and both wheels, for every drivebase state |
| `DriveCommands.DispatchedIsObeyed` | apps/drivebase/drivebase_daemon.c:190-215 | in every run of the daemon a dispatched command takes that effect at once |
| `DriveCommands.FaultsRecordedExactly` | apps/drivebase/drivebase_drivebase.c:1024-1240 | for every tick: a side awaits reclaim afterwards if and only if it did before, its encoder was found lost, or its port refused a request of the tick |
| `DriveFreeze.MutualExclusion` | apps/drivebase/drivebase_daemon.c:286-382 | in every run recovery touches motors and drivebase only while the real-time thread is outside its tick body, and no body starts before the freeze is released |
| `DriveFreeze.PendingMeansNoDutyInRuns` | apps/drivebase/drivebase_daemon.c:168-215 | the fault rule holds after every update of every run, with commands, watchdog and recovery interleaved |
| `DriveFreeze.RecoveryEnds` | apps/drivebase/drivebase_daemon.c:353-382 | recovery resets the drivebase exactly when nothing is pending any more, leaving both wheels at rest and both axes inactive and unlatched; a reclaim is pending again exactly when the drain of the reset found a port lost |
| `DriveFreeze.ReclaimsExactly` | apps/drivebase/drivebase_daemon.c:333-352 | in every run a visit of the recovery thread clears the request of the side whose turn it is if and only if its port was acquired, and touches nothing else |
| `DriveFreeze.AcknowledgedExactly` | apps/drivebase/drivebase_daemon.c:168-331 | in every run recovery gets its acknowledgement at the first look after the real-time thread has come to the gate since this freeze, not before, and then reads the requests of that moment |
| `DriveFreeze.RunsUntilStopped` | apps/drivebase/drivebase_daemon.c:254-275 | in every run the daemon runs until it is asked to stop or the watchdog stops it |
| `DriveFreeze.GivesUpAfterTwelvePolls` | apps/drivebase/drivebase_daemon.c:299-325 | in every run recovery looks for the acknowledgement of a freeze at most twelve times and gives up exactly then, or when the daemon is stopping |
| `DriveFreeze.WatchdogExactly` | apps/drivebase/drivebase_daemon.c:254-275 | the watchdog stops the daemon and arms a reclaim exactly for a side whose port refuses to coast |
| `DriveFreeze.HandshakeStep` | apps/drivebase/drivebase_daemon.c:168-382 | every step of both threads keeps the handshake invariant |
| `DriveFreeze.SplitGateFails` | apps/drivebase/drivebase_daemon.c:168-189 | with the gate's read and acknowledgement taken apart, a run that ends with both threads inside |
| `DriveObjects.PidState.Update` | apps/drivebase/drivebase_control.c:144-348 | in place, exactly the PID update |
| `DriveObjects.AxisControl.Update` | apps/drivebase/drivebase_aggregate.c:261-415 | in place, exactly the axis update |
| `DriveObjects.AxisControl.Arm` | apps/drivebase/drivebase_aggregate.c:119-221 | in place, arming and retargeting |
| `DriveObjects.AxisControl.Halt` | apps/drivebase/drivebase_aggregate.c:223-259 | in place, stopping an axis |
| `DriveObjects.AxisControl.ChangePause` | apps/drivebase/drivebase_aggregate.c:70-83 | in place, pausing and resuming |
| `DriveObjects.Servo.Apply` | apps/drivebase/drivebase_servo.c:230-274 | in place, what a wheel records for each action and device answer |
| `DriveObjects.FrictionMemory.Floor` | apps/drivebase/drivebase_drivebase.c:178-229 | in place, exactly the breakaway floor |
| `DriveObjects.DriveBase.Update` | apps/drivebase/drivebase_drivebase.c:1024-1240 | in place, exactly the two-axis tick |
| `RomfsTheorems.RoundTrip` | tools/make_romfs.py:65-101 | for every directory tree that is accepted, a reader following next and special-info pointers from either starting point recovers the volume name and exactly the sorted tree (see ReadsTheFiles): names, modes, data and link targets |
| `RomfsFaithful.ReadsTheFiles` | tools/make_romfs.py:36-101 | what is read back, said of the host's files directly: every entry with its name, mode, data or link target, once, in byte order of names at every depth |
| `RomfsFaithful.RefusesExactly` | tools/make_romfs.py:36-101 | of any host tree: which error it gets, exactly, and how long its image is otherwise |
| `RomfsFaithful.RootIsDot` | tools/make_romfs.py:71-98 | the root's two records come right after the volume name and are named . and .. |
| `RomfsTheorems.RefusedExactly` | tools/make_romfs.py:66-86 | exactly which inputs are refused, and with which error |
| `RomfsTheorems.Deterministic` | tools/make_romfs.py:41-43 | the image depends on the files only, not on the order in which the host lists any directory |
| `RomfsTheorems.ImageIdentifiesTree` | tools/make_romfs.py:65-101 | different volumes never share an image |
| `RomfsTheorems.VolumeSumsToZero` | tools/make_romfs.py:99-101 | the first 512 bytes of the image sum to 0 mod 2^32, padding included |
| `RomfsTheorems.ImageStarts` | tools/make_romfs.py:75-101 | every image starts with the bytes -rom1fs-, its unpadded size most significant byte first, and at byte 16 the volume name and a NUL; it is whole kilobytes, zero after that size |
| `RomfsRecords.HeaderSumsToZero` | tools/make_romfs.py:94-96 | every file header sums to 0 mod 2^32 |
| `RomfsRecords.ParseRecord` | tools/make_romfs.py:88-98 | a written record parses back field by field, with its data where the header says |
| `RomfsRoundTrip.ReadBack` | tools/make_romfs.py:36-98 | a written list of siblings, with everything below it, reads back as exactly those trees |
| `RomfsImage.RootEmits` | tools/make_romfs.py:71-98 | the two passes over flattened nodes write what recursion on the tree would |
| `RomfsOrder.SortByNameSorts` | tools/make_romfs.py:42-43 | entries come out in byte order of their names, none lost, added or duplicated |
| `RomfsFaithful.LexLessIsBefore` | tools/make_romfs.py:42-43 | the order is that of the first byte in which two names differ, a name before its extensions |
| `RomfsOrder.HostOrderIrrelevant` | tools/make_romfs.py:41-43 | trees that differ only in host listing order, at any depth, are written alike |
| `RomfsWriter.MakeImage` | tools/make_romfs.py:65-101 | the script's result or its first error |
| `RomfsWriter.PlaceNodes` | tools/make_romfs.py:79-84 | names are checked and every node gets the sum of the lengths before it as its offset |
| `RomfsWriter.WriteNodes` | tools/make_romfs.py:87-98 | the body is the records of all nodes in order, with the placed offsets in them |
| `RollingHash.RollIsDirect` | tools/check_ti_free_image.py:128-130 | one rolling update equals hashing the next window directly, for any base and modulus |
| `RollingHash.Fold` | tools/check_ti_free_image.py:69-73 | the loop computes the polynomial hash |
| `ImageScan.RollAppends` | tools/check_ti_free_image.py:69-73 | one more byte multiplies the hash by 257 and adds the byte, mod 2^61 - 1 |
| `ImageScan.Scan` | tools/check_ti_free_image.py:107-130 | the scan returns exactly the chunk indices and offsets that hashing every window directly would |
| `ImageScan.EmbeddedIsReported` | tools/check_ti_free_image.py:59-130 | any image with 511 or more consecutive service-pack bytes, at any alignment, is reported, at the right chunk and offset |
| `ImageScan.ShorterMayGoUnreported` | tools/check_ti_free_image.py:59-130 | 511 cannot be lowered: a service pack and an image with 510 of its consecutive bytes about which every scan reports nothing |
| `ImageScan.ReportedIsEmbedded` | tools/check_ti_free_image.py:107-130 | unless a window of the image collides with the chunk, what is reported for it is exactly where it lies |
| `ImageScan.HitsExactly` | tools/check_ti_free_image.py:119-130 | the naive scan lists every matching offset once, in order |
| `ImageScan.Chunks` | tools/check_ti_free_image.py:59-66 | the 256-byte grid, plus the last 256 bytes when the length is no multiple |
| `ImageScan.Index` | tools/check_ti_free_image.py:109-111 | entries are grouped by rolling hash, in order |
| `Similarity.Windows` | tools/audit_source_similarity.py:82-94 | the rolled digest of every window is the direct one mod 2^64 |
| `Similarity.BuildIndex` | tools/audit_source_similarity.py:99-108 | the index holds all occurrences of a key, or nothing when there are more than 80 |
| `SimilaritySpans.ScanFile` | tools/audit_source_similarity.py:97-139 | for every reference file exactly the reportable spans: maximal runs of verified seeds on a diagonal, long enough |
| `SimilaritySpans.SpanGenuine` | tools/audit_source_similarity.py:115-117 | a reported span is a genuine run of equal tokens |
| `SimilaritySpans.RunReported` | tools/audit_source_similarity.py:97-139 | a matching run of the minimum length, none of whose 20-token windows occurs more than 80 times, lies inside a reported span on its diagonal |
| `SimilaritySpans.MergeRuns` | tools/audit_source_similarity.py:125-134 | merging ordered positions yields exactly the maximal runs that are long enough |
| `SimilaritySpans.Pairs` | tools/audit_source_similarity.py:112-117 | exactly the verified seeds are collected |
| `SimilaritySpans.Spans` | tools/audit_source_similarity.py:118-134 | exactly the long enough maximal runs, over all diagonals |

## Left out

- Device I/O, ioctls, Bluetooth host calls and the bodies of callbacks: their results are arbitrary inputs of the steps.
- Counter widths: tickets and registration ids keep their 64-bit limits; lifetimes, run generations, ownership tokens and pump counts are unbounded; controller arithmetic is on integers, with the source's clamps.
- `TxTheorems.QuietMeansSynchronised`: not claimed while `g_pumping` is still set, which a deinit with a pump in flight leaves behind until the next init (`TxDeinit.DeinitLeavesTimer`).
- The transmit statistics read-out and the RFCOMM channel id, which only copy fields.
- `MotorTheorems.DeferredAnsweredOnce`: assumes that the adapter is configured with all its callbacks, that arming the timer answers 0 or a negative error, and leaves parsing and immediate answers out.
- `MotorEncoder.DisplacementExact`: takes the encoder callback to leave its output alone on EAGAIN, as `apps/btsensor/btsensor_classic.c:594-598` relies on; `apps/btsensor/btsensor_modern_backend.c:153` writes 0 first.
- `SchedulerProofs.StoppedForGood`: a watch is started again only after its stop has returned, and stops run off the worker.
- Scheduler timers: a re-armed timer can sit in two slots, so the natural stop guarantee does not hold for them.
- Trajectories, settings, the observer, IMU fusion and origins of the drivebase: a tick takes arbitrary references, states, gains and battery readings; a battery floor of 0 is given duty 0.
- Position errors of exactly -2^31, whose absolute value overflows in the source, are not singled out.
- `SimilaritySpans.ScanFile`: requires fewer than 10^12 tokens, because of the sentinel of that value; tokenising, the order of the report and its summary fields are not modelled.
- `DriveAngle.RoundTripNeedsABound`: wheels between 72 m and 180 m are not decided; what happens there depends on the divisibility of each diameter.
- SHA-256 and BLAKE2 are arbitrary functions.
- ROMFS: reading the host file system is the input; node objects that point to each other are positions in the flattened list; device nodes, FIFOs and sockets are one refused kind.
- Parsers, command-line mains, configuration loaders, fonts and policy scripts: they would only add easy members.
