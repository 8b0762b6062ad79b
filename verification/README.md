# CineBook in Dafny

A model of the parts of CineBook where several processes, stores or runs have to work together, and
proofs of what every run keeps:

- the **seat-reservation protocol** of the booking service: `createBooking`, `cancelBooking` and the
  expiry worker as concurrent processes over the show document, the bookings collection and the Redis
  lease table;
- the **circuit breaker** of the API gateway, as a function of the calls it has seen;
- **screens and shows**: seat-id generation, the overlap query, deactivation;
- **refresh tokens** and the account operations that revoke them;
- **payments** as a status machine, with what they refund and what they publish.

Check everything with `dafny verify dfyconfig.toml` (Dafny 4.11).

## How it is built

**Reservation protocol.** `seats.dfy` has the show document, its two writes, the checks of
`createBooking` and the prices; `lockkey.dfy` the lock key. `history.dfy` is the simple machine: a
document changed only by whole reservations and whole releases, whose runs are logs. `protocol.dfy` is
the machine the code runs: one step per store call (lookup, `SET NX EX`, show read, checks, versioned
update, insert, unlock script; cancel's read, flip and release; the worker's find, guarded flip and
release), plus clock ticks, show deactivation, failing calls and crashes between any two steps. An
action that is not enabled leaves the state alone, so *every* list of actions is a run, and theorems
about `Exec(s, acts)` with `Init(s)` are about all interleavings. The reservation and the booking
document are separate writes, as in the code (the transactions there are commented out).

`refinement.dfy` proves the invariant that ties the two machines; `safety.dfy`, `exclusive.dfy`,
`exposure.dfy`, `ledger.dfy`, `recovery.dfy`, `idempotency.dfy` and `requests.dfy` hold the theorems;
`witnesses.dfy` the short runs that show which conditions are needed; `expiry.dfy` the worker's
progress; `filtered.dfy` the same machine with one filter added to its releases. `service.dfy` and
`worker.dfy` are the mutable service, stores and worker; each of their methods is proved to leave the
stores exactly as the corresponding run of the protocol machine, and besides to have the outcome that
`outcomes.dfy` writes down over the documents before and after, without the machine's functions: who is
refused with which error, which seats, amounts and times are written, and what stays.

**The others** are one file each: `breaker.dfy`, `layout.dfy`, `schedule.dfy`, `tokens.dfy`,
`payments.dfy`. Each has a pure step function, theorems over all lists of steps, and a class whose
methods are proved against the step function and against outcomes stated over the stored documents.
`rotation.dfy`, `refunds.dfy`, `checkout.dfy` and the end of `schedule.dfy` take refreshes and logins,
refunds, orders and verifications, and creates of shows apart into their store calls.

## Where the code does not keep what is intended

For each of these there is a theorem saying exactly when it fails, by a condition on the input or on the
state before a step, and a run in which it does.

- *One pending, unlapsed booking per seat*: releases select seats by `seatId` only. After a run that
  respected every hold, and as long as no later release takes another booking's seats, the property
  holds for ever exactly when the step at hand is not a release that covers a seat in another booking's
  live hold while the show is still open (`Exposure.ExposureExactly`). The proviso: for some such seat
  some request can be put in before the hold is over, that is, none of its seats blocks by then and its
  lock is not taken by then or is in the hands of a call still under way. A free lock on one of the
  seats alone is enough, and so is one held by the very call whose hold it is
  (`Exposure.OneSeatExposes`). The release by itself does not put two
  bookings on a seat; what it breaks at once, and exactly then, is that every live hold is what the
  seat map shows (`Exclusive.ExclusiveStep`). Run: a hold lapses, a second booking takes the seat over,
  the worker expires the first and frees the seat, a third books it (`Witnesses.TheftSharesSeat`). With
  a `reservedBy` filter on both releases the property holds in every run
  (`Filtered.FilteredIsExclusive`).
- *The counter is the room less what is reserved*: in every run it is at least that, with equality
  exactly when no booking's seats were released twice (`Ledger.BalancedExactly`, step by step
  `Ledger.BalanceStep`). A second release needs a booking that left pending twice, and a step makes one
  exactly when it is a cancel flip, which has no status filter, of a booking no longer pending
  (`Ledger.LedgerStep`). Run: two interleaved cancels (`Witnesses.CancelsOverfill`).
- *The counter equals the number of available seats*: a write breaks it exactly when it reserves a
  seat that is not available, as a takeover of a lapsed hold does, or frees one that is
  (`History.CounterStep`, for steps of the protocol `Ledger.AgreesStep`, over runs
  `Ledger.CounterAlways`). Run: one takeover gives -1
  (`Witnesses.TakeoverBelowZero`).
- *Windows of shows on a screen never overlap*: the query knows the new show's length but not the
  stored ones' (`Schedule.QueryVersusWindows`, `Schedule.RunOverlaps`). Runs in
  `Schedule.LongerShowMissed`: one overlap missed, and one refusal without overlap. With query and
  insert as separate calls even the spacing the query does enforce is broken, exactly by an insert
  that the query would refuse by then (`Schedule.TurnSpacing`, `Schedule.BothInserted`).
- *Seat ids are unique* fails exactly for clashing row labels, such as an eleven-seat row `A` beside a
  row `A1` (`Layout.SeatIdsUnique`, `Layout.ElevenSeatsClash`).
- *A refresh token works once*: a call breaks it exactly when it is about to issue a token accepted
  before, or is a refresh in the second its own token was issued (`Tokens.SpentStep`, over runs
  `Tokens.SpentRun`). *A revoked token stays revoked* for a run exactly when no call of the run is
  about to issue it again (`Tokens.DeadStep`, `Tokens.DeadRun`, `Tokens.RevokedForGood`). Two tokens of
  one user and second are the same string, so both can happen (`Tokens.SameSecondReuse`); with issues
  in distinct seconds neither does. Call by call, and with distinct seconds, a token is accepted twice
  exactly when a refresh looks it up after another has and before that one deletes it
  (`Rotation.OnceStep`, `Rotation.BothAccepted`), and a password change ends every session exactly when
  no refresh or login of that user is in flight (`Rotation.RevocationComplete`).
- *Refunds never exceed the payment*: a run keeps it exactly when no accepted refund call asks for more
  than is left of the order, which `refund` does not check (`Payments.BoundedStep`,
  `Payments.RefundsWithinOrder`; call by call `Refunds.BoundedCallStep`). Runs: a capture notice
  delivered again after the refund (`Payments.RedeliveredCapture`), and two refunds that read the
  payment before either writes it (`Refunds.BothSent`). Never taking a refunded payment into success
  again is enough (`Payments.NeverOverRefunded`), not necessary.
- *One active order per booking*: a call breaks it exactly when a late capture or verification revives
  an order given up earlier (`Payments.OneActiveStep`). Run: an order fails, a second is created, the
  first is captured after all (`Payments.LateCapture`). With read and write of a create or verification
  apart, it is broken besides by an insert although the query would find an active order by then
  (`Checkout.ActiveStep`, `Checkout.BothOrdered`).
- *One `payment.success` event per entry into success* holds for whole calls (`Payments.Conserved`).
  With read and write of a verification apart there are at least as many events as entries, and more
  exactly when a verification marks a payment that has been captured since it was read
  (`Checkout.EventsExactly`, `Checkout.ToldTwice`).
- The breaker's state is the one its trace calls for exactly when the configured threshold is at
  least one (`Breaker.ModeFromTrace`); the environment schema does not demand that.

And `docs/efficiency-and-resilience.md` (section 2.C) says the worker releases seats whose booking was
never saved. It does not: it looks for bookings, and there is none. Such seats come free only by their
hold lapsing (`Idempotency.OrphanOnlyLapses`).

## Conventions

Times are integers in milliseconds, token times in seconds; the clock never runs back. In the protocol
a process number stands for the fresh values its call draws: lock token and booking id. Money is
`real` and `Math.round` is rounding half upward; binary floating point is not modelled.
`SEAT_HOLD_MINUTES` is a whole number from 1 to 30. Signature checks and the answers of the payment
gateway are parameters; a store call that takes effect and then throws leaves what the call and a
failure or crash of the next one leave, but for what the caller is told (`Recovery.LostReplyCovered`), so
the protocol has no action of its own for it. Password comparison is equality and token hashing is injective. A query value
that is undefined matches documents without the field, as the MongoDB driver sends it by default.

The step functions of `protocol.dfy` follow `services/booking-service/src/services/booking.ts`:
`StepLookup` 51-60, `StepAcquire` 62-75, `StepRead` 79-80, `StepCheck` 82-111, `StepCommit` 172-212,
`StepSave` 214-235, `StepUnlock` 288-290 and 408-418, `StepCancelRead` 299-312, `StepCancelFlip`
351-359, `StepCancelRelease` 361-379; and `services/booking-service/src/services/expiry-worker.ts`:
`StepFind` 46-51, `StepExpiryFlip` 97-104, `StepExpiryRelease` 106-124, `AfterFailure` 146-164.

## Model

| member | source | states |
|---|---|---|
| Seats.LengthTestIsFullCheck | services/booking-service/src/services/booking.ts:87-96 | on a show with unique seat ids the comparison of two lengths passes exactly when the requested ids are pairwise distinct and all exist; the selection then has exactly those ids |
| Seats.ReserveTouchesCount | services/booking-service/src/services/booking.ts:189-203 | after that test the array-filter update touches exactly as many seats as the counter loses |
| Seats.ChecksAgree | services/booking-service/src/services/booking.ts:98-111 | the in-memory availability test and the `$not/$elemMatch` filter agree on equal seats |
| Seats.PricingLaw | services/booking-service/src/services/booking.ts:113-116 | the subtotal of a seat is its price and subtotals add up over separate requests; the fee is 2% of the subtotal to the nearest unit, halves upward; the total is subtotal and fee, monotone in the set of seats and never negative |
| LockKey.SortSorts | services/booking-service/src/services/booking.ts:63 | the ids in the key are a sorted permutation of the request |
| LockKey.SortedUnique | services/booking-service/src/services/booking.ts:63 | a multiset of ids has one sorted arrangement |
| LockKey.SplitJoin | services/booking-service/src/services/booking.ts:63 | joining comma-free ids with commas loses nothing |
| LockKey.KeyCanonical | services/booking-service/src/services/booking.ts:63 | two non-empty comma-free requests on one show get the same lock key exactly when they are permutations of each other |
| LockKey.KeyExactly | services/booking-service/src/services/booking.ts:63 | with colon-free show ids and non-empty comma-free seat lists, two requests get one lock key exactly when they are for the same show and permutations of each other |
| LockKey.CommasClash | services/booking-service/src/services/booking.ts:63 | with commas in ids two different requests can share a key |
| LockKey.ColonsClash | services/booking-service/src/services/booking.ts:63 | with colons in ids requests for two shows can share a key |
| History.ReplayFrame | services/booking-service/src/services/booking.ts:189-199 | seat writes never add, drop, rename, reprice or reorder seats, and the version counts the writes |
| History.LapsedBefore | services/booking-service/src/services/booking.ts:172-204 | without a release of the seat in between, a later reservation starts only after the earlier hold's end, through any chain of takeovers |
| History.LedgerOfLog | services/booking-service/src/services/booking.ts:195-198 | the counter is never below the initial count less the sizes of the unreleased reservations, and equals it exactly when no booking was released twice |
| History.CounterStep | services/booking-service/src/services/booking.ts:361-372 | a write keeps the counter equal to the number of available seats exactly when a reservation takes only available seats and a release frees none that is free |
| History.CounterOfLog | services/booking-service/src/services/booking.ts:361-372 | without takeovers and double releases the counter is the number of available seats, within bounds, and unreleased reservations are pairwise disjoint |
| Refinement.CommitOpOk | services/booking-service/src/services/booking.ts:172-204 | a commit whose filter matches is a legal reservation of the atomic machine |
| Refinement.ReleaseOpOk | services/booking-service/src/services/booking.ts:361-379 | every release is of an earlier reservation's exact seats |
| Refinement.DoKeeps | services/booking-service/src/services/booking.ts:38-291 | every step, failure and crash keeps the invariant between stores, processes and log |
| Refinement.InvAlways | services/booking-service/src/services/booking.ts:38-395 | the invariant holds in every reachable state |
| Safety.StepRefines | services/booking-service/src/services/booking.ts:172-204 | one fine-grained step is invisible to the atomic machine or is one legal operation of it |
| Safety.RunsRefine | services/booking-service/src/services/booking.ts:172-204 | for every run the log is a legal history, its replay is the stored document, and the version counts it |
| Safety.VersionImpliesSeats | services/booking-service/src/services/booking.ts:172-204 | at every commit of every run the filter matches exactly when the version does, and then the booking lists the requested seats at the prices stored at that moment and costs their sum and the fee |
| Safety.NoDoubleHoldInRuns | services/booking-service/src/services/booking.ts:98-111 | in every interleaving two committed reservations of one seat with overlapping holds have a release of that seat between them |
| Safety.LeaseAlways | services/booking-service/src/services/booking.ts:64-75 | in every run an unexpired lease of a process in the critical section is the one in the table, and no lease reaches further than one lease time ahead |
| Safety.LeaseExclusive | services/booking-service/src/services/booking.ts:399-406 | at most one process per lock key is in the critical section with an unexpired lease |
| Safety.LateUnlockHarmless | services/booking-service/src/services/booking.ts:408-418 | an unlock, however late, leaves another process's unexpired lease in place |
| Outcomes.NewBookingCharged | services/booking-service/src/services/booking.ts:113-117 | every booking built costs the sum of its own lines' prices and the fee, and the fee is 2% of that sum rounded |
| Outcomes.TestsMean | services/booking-service/src/services/booking.ts:87-111 | the two tests of the seat list refuse exactly requests with a repeated or missing seat, and those with a seat that is booked, under maintenance or held beyond now |
| Outcomes.CommitMeets | services/booking-service/src/services/booking.ts:172-235 | refused exactly on another version or a taken seat; otherwise the seats asked for, and no others, are reserved for this booking until its end, and it is stored unless its key is used or it has no seat |
| Outcomes.CancelMeets | services/booking-service/src/services/booking.ts:299-312 | with unique booking ids: not found, of another user, or not cancellable is refused and changes nothing; the user's own cancellable booking is cancelled and its seats freed |
| Requests.TasksAlways | services/booking-service/src/services/booking.ts:42-48 | in every run every process stands at a stage of the task it was started for; a call for more than ten seats is refused and never gets further |
| Requests.BookingsAsAsked | services/booking-service/src/services/booking.ts:113-117 | in every run every stored booking belongs to the user whose call was started under its number, lists exactly the one to ten seats asked for at the show's prices, costs their sum and the fee, and ends `SEAT_HOLD_MINUTES * 60000` ms after the `now` of a commit in the log |
| Requests.OnlyOwnersCancel | services/booking-service/src/services/booking.ts:299-312 | in every run a booking reads cancelled only if a cancel of it was started by its own user, and expired only if it has run out; every flip by a cancel is of the booking it was started for, of the user it was started by |
| Requests.LockLasts | services/booking-service/src/services/booking.ts:64-75 | the lock is taken exactly when no unexpired lease stands there, for `SEAT_HOLD_MINUTES * 60 + 30` seconds, and for that long a call still under way finds it its own in every continuation |
| Requests.FinallyUnlocks | services/booking-service/src/services/booking.ts:288-290 | whatever is thrown under the lock: a call that comes to an answer, and whose unlock call does not itself throw, leaves no live lease of its own |
| Exclusive.ExclusiveStep | services/booking-service/src/services/booking.ts:361-379 | a step keeps every live hold on its seats exactly when it is not a release covering a seat in another booking's live hold |
| Exclusive.OwnSeatsDoNotSteal | services/booking-service/src/services/expiry-worker.ts:106-124 | a release whose reserved seats are all reserved by its own booking is harmless |
| Exclusive.ExclusiveAlways | services/booking-service/src/services/booking.ts:98-103 | in every run without such a release, pending unlapsed bookings are pairwise disjoint |
| Exclusive.OwnReleasesExclusive | services/booking-service/src/services/booking.ts:374-378 | in every run whose releases meet no seat reserved by another booking, the same holds |
| Exclusive.OnlyCommitsHold | services/booking-service/src/services/booking.ts:172-204 | only a versioned update that matches makes a new live hold |
| Exposure.ClosedShowSafe | services/booking-service/src/services/booking.ts:79-85 | once the show is inactive or started, a release leaves no later run with two bookings on a seat |
| Exposure.StealShared | services/booking-service/src/services/booking.ts:361-379 | a release of an open show covering a seat in another booking's live hold, for which some request can be put in before the hold is over, is followed, by a later run without such releases, by two pending unlapsed bookings on it |
| Exposure.OneSeatExposes | services/booking-service/src/services/booking.ts:63-75 | such a request exists when the lock on one of the stolen seats alone is free or held by a call under way, for instance by the call about to save the hold |
| Exposure.LockGivenBack | services/booking-service/src/services/booking.ts:288-290 | a lock held by a call under way can be given back without the call touching anything else |
| Exposure.ExposureExactly | services/booking-service/src/services/booking.ts:361-379 | after a run that respected every hold: all continuations without such releases keep one pending unlapsed booking per seat exactly when the step is not such a release of an open show |
| Filtered.FilteredIsExclusive | services/booking-service/src/services/booking.ts:374-378 | were both releases filtered by `reservedBy`, every run would keep one pending unlapsed booking per seat |
| Ledger.LedgerStep | services/booking-service/src/services/booking.ts:351-355 | a step keeps "each booking leaves pending once, each reservation is released once" exactly when it is not a cancel flip of a booking no longer pending |
| Ledger.ImmediateCancelIsFresh | services/booking-service/src/services/booking.ts:299-355 | a cancel that flips right after its read is never stale |
| Ledger.PromptCancelsFresh | services/booking-service/src/services/booking.ts:299-355 | runs whose cancels flip right after reading have no stale flip |
| Ledger.BalancedExactly | services/booking-service/src/services/booking.ts:195-198 | in every run the counter is at least the room less the reservations never released, with equality exactly when no booking's seats were released twice |
| Ledger.BalanceStep | services/booking-service/src/services/booking.ts:361-372 | a step breaks that equality exactly when it releases a booking again |
| Ledger.LedgerAlways | services/booking-service/src/services/expiry-worker.ts:95-124 | in every run without stale flips, any workers and crashes: one departure per booking, one release per reservation, counter = initial count less unreleased reservations |
| Ledger.CounterAlways | services/booking-service/src/services/expiry-worker.ts:106-124 | if moreover nothing takes over a lapsed hold: counter = number of available seats, between 0 and `totalSeats`, unreleased reservations pairwise disjoint |
| Ledger.AgreesStep | services/booking-service/src/services/booking.ts:172-204 | a step makes the counter differ from the number of available seats exactly when it takes over a lapsed hold or frees a seat that is free |
| Recovery.SoloSucceeds | services/booking-service/src/services/booking.ts:62-291 | an undisturbed call in a ready state succeeds, and its whole effect on the stores |
| Recovery.HoldsBounded | services/booking-service/src/services/booking.ts:117 | in every reachable state no hold reaches further than `SEAT_HOLD_MINUTES * 60000` ms ahead |
| Recovery.BoundedRecovery | services/booking-service/src/services/booking.ts:63-75 | from any reachable state, after `SEAT_HOLD_MINUTES*60+30` quiet seconds a call with a fresh key on 1 to 10 distinct seats, none booked or under maintenance, succeeds and holds them |
| Recovery.LostReplyCovered | services/booking-service/src/services/booking.ts:77-290 | a store call that takes effect and throws leaves the stores as a run of calls, failures and crashes does |
| Idempotency.OneBookingPerKey | services/booking-service/src/models/booking.ts:101 | at most one booking ever exists per key, and it keeps its id, seats and amounts |
| Idempotency.LaterCallsReplay | services/booking-service/src/services/booking.ts:50-60 | once a key has a booking, later calls with it can only return that booking and never touch the stores |
| Idempotency.LoserIsOrphan | services/booking-service/src/services/booking.ts:214-235 | the loser of a race on a key changes nothing by its insert and leaves a reservation without a booking |
| Idempotency.CrashLeavesOrphan | services/booking-service/src/services/booking.ts:204-214 | so does a failure or crash between the two writes |
| Idempotency.OrphanOnlyLapses | services/booking-service/src/services/expiry-worker.ts:46-51 | no later step releases such a reservation; what it still shows ends one hold time after its commit |
| Witnesses.TakeoverBelowZero | services/booking-service/src/services/booking.ts:102 | one takeover of a lapsed hold drives the counter to -1 |
| Witnesses.TheftSharesSeat | services/booking-service/src/services/expiry-worker.ts:120-122 | a run without cancels after which two pending, unlapsed bookings share a seat |
| Witnesses.CancelsOverfill | services/booking-service/src/services/booking.ts:351-372 | two interleaved cancels of one booking leave 2 available seats in a room of 1 |
| Expiry.ExpireAllBookings | services/booking-service/src/services/expiry-worker.ts:97-101 | a batch flips its own bookings and no other |
| Expiry.ExpireAllSeats | services/booking-service/src/services/expiry-worker.ts:106-124 | a batch frees every seat of its bookings and changes no other |
| Expiry.TickTakes | services/booking-service/src/services/expiry-worker.ts:46-51 | a tick takes exactly min(100, backlog) lapsed bookings, and they are what the backlog loses |
| Expiry.BacklogProgress | services/booking-service/src/services/expiry-worker.ts:34-165 | each tick reading its own clock between two times: after n ticks either all that had lapsed at the first time is expired, or 100n bookings have left what lapses by the second; no tick takes more than 100, and only bookings whose hold was over are touched |
| Expiry.BacklogCleared | services/booking-service/src/services/expiry-worker.ts:34-165 | what had lapsed at the first time is expired and its seats freed once n reaches ceil(k/100) for the k bookings lapsed by the second, and not before it reaches ceil(k/100) for those lapsed at the first |
| Expiry.SettledBacklogCleared | services/booking-service/src/services/expiry-worker.ts:34-165 | when nothing lapses meanwhile, n ticks leave max(0, k - 100n) of k bookings and clear them exactly from ceil(k/100) ticks on |
| Service.Stores.ReleaseSeats | services/booking-service/src/services/booking.ts:361-379 | frees the booking's seats, adds their number to the counter, bumps the version, nothing else |
| Service.Stores.SaveBooking | services/booking-service/src/services/booking.ts:214-235 | the insert fails exactly on a used idempotency key or an empty seat list, and otherwise adds the one document |
| Service.BookingService.AcquireLock | services/booking-service/src/services/booking.ts:399-406 | takes the lease exactly when no unexpired one is there |
| Service.BookingService.ReleaseLock | services/booking-service/src/services/booking.ts:408-418 | deletes the lease exactly when it is unexpired and carries the caller's token |
| Service.BookingService.ReserveSeats | services/booking-service/src/services/booking.ts:172-204 | the versioned update happens exactly when its filter matches, and is one reservation write |
| Service.BookingService.CheckSeats | services/booking-service/src/services/booking.ts:82-111 | the first failing test decides the error: started, seats repeated or missing, seats taken |
| Service.BookingService.BuildBooking | services/booking-service/src/services/booking.ts:113-118 | lines, sum, fee and end of the hold of the booking to be stored, seat by seat |
| Service.BookingService.CommitAndSave | services/booking-service/src/services/booking.ts:113-235 | the machine's commit and save; refused exactly on another version or a taken seat, else the seats are reserved and the booking stored costs the sum of its lines and the fee |
| Service.BookingService.ReserveAndSave | services/booking-service/src/services/booking.ts:77-235 | the machine's run from show read to insert; which test refuses, by what it means on the stored document, and what is reserved and stored otherwise |
| Service.BookingService.LockedPart | services/booking-service/src/services/booking.ts:77-291 | the same for the whole `try` block, and whatever it returns the caller's own live lease is gone |
| Service.BookingService.LockAndReserve | services/booking-service/src/services/booking.ts:62-291 | the lock is refused exactly when an unexpired lease stands there; otherwise the `try` block runs under it and the lock is gone afterwards |
| Service.BookingService.CreateWithinLimit | services/booking-service/src/services/booking.ts:50-291 | a used key replays the stored booking and changes nothing; otherwise the lock decides |
| Service.BookingService.CreateBooking | services/booking-service/src/services/booking.ts:38-291 | the machine's solo run; and in terms of the documents before and after: more than ten seats, used key, lock held, each failing test with its error, or exactly the seats asked for reserved and one booking stored, at the sum of its lines and the fee, until `SEAT_HOLD_MINUTES` later |
| Service.BookingService.FlipAndRelease | services/booking-service/src/services/booking.ts:351-379 | cancel's two writes: only this booking becomes cancelled, exactly its seats become available, the counter grows by their number |
| Service.BookingService.CancelSteps | services/booking-service/src/services/booking.ts:299-395 | of the document found: another user's is forbidden, one not pending or in payment is refused, both without any write; the user's own is cancelled and freed |
| Service.BookingService.CancelBooking | services/booking-service/src/services/booking.ts:293-395 | the machine's cancel run; and for the one booking with that id: not found, forbidden, wrong status, each changing nothing, or cancelled with its seats freed |
| Worker.ExpiryWorker.FindLapsed | services/booking-service/src/services/expiry-worker.ts:46-51 | returns distinct lapsed pending bookings, at most 100, all of them if fewer |
| Worker.IterationRun | services/booking-service/src/services/expiry-worker.ts:62-152 | one loop iteration, failing anywhere or nowhere, is a run of the machine's worker process |
| Worker.IterationMeets | services/booking-service/src/services/expiry-worker.ts:62-152 | one iteration expires and frees exactly a booking still pending, counts it by whether a call threw, and leaves undone what comes after a throw |
| Worker.CleanSweep | services/booking-service/src/services/expiry-worker.ts:62-124 | with no failing call the loop expires the whole batch and counts it |
| Worker.ExpiryWorker.ExpireNext | services/booking-service/src/services/expiry-worker.ts:63-152 | guarded flip, release and publish of one booking, and what a throw at each leaves |
| Worker.ExpiryWorker.ExpireBatch | services/booking-service/src/services/expiry-worker.ts:62-153 | the loop's stores and its `succeeded`/`failed` counts, under any pattern of failing calls |
| Worker.ExpiryWorker.RunExpiryWorker | services/booking-service/src/services/expiry-worker.ts:34-165 | a tick with the flag up does nothing; otherwise the flag is down at every exit and the stores are a run of the machine |
| Breaker.CircuitBreaker.constructor | services/api-gateway/src/config/circuit-breaker.ts:17-31 | a new breaker is closed with zero counters |
| Breaker.CircuitBreaker.IsOpen | services/api-gateway/src/config/circuit-breaker.ts:37-67 | admits or rejects, and the new fields, as one step of the trace function; who is admitted after which calls is `Breaker.AdmissionFromTrace` |
| Breaker.CircuitBreaker.RecordSuccess | services/api-gateway/src/config/circuit-breaker.ts:69-79 | closes from open or half-open, does nothing when closed |
| Breaker.CircuitBreaker.RecordFailure | services/api-gateway/src/config/circuit-breaker.ts:81-97 | counts, clears the probe, opens when half-open or at the threshold |
| Breaker.CircuitBreaker.Reset | services/api-gateway/src/config/circuit-breaker.ts:100-106 | closed, no failures, no probe, no probe time |
| Breaker.Registry.GetBreaker | services/api-gateway/src/config/circuit-breaker.ts:125-130 | one service, one breaker; two services, two |
| Breaker.Registry.ResetBreaker | services/api-gateway/src/config/circuit-breaker.ts:140-145 | resets the named breaker and no other |
| Breaker.TraceLawHolds | services/api-gateway/src/config/circuit-breaker.ts:37-106 | with threshold >= 1, after every trace: closed iff the failures since the last close or reset are below the threshold, half-open iff the probe is out, open implies a probe time |
| Breaker.ModeFromTrace | services/api-gateway/src/config/circuit-breaker.ts:89 | that law holds for all traces exactly when the threshold is at least 1 |
| Breaker.ProbeLawHolds | services/api-gateway/src/config/circuit-breaker.ts:44-94 | with threshold >= 1 the calls alone say whether a probe is out and when the next is due: one recovery time after the last failure |
| Breaker.AdmissionFromTrace | services/api-gateway/src/config/circuit-breaker.ts:37-67 | with threshold >= 1 a request is admitted exactly when the failures since the last close or reset are below the threshold, or no probe is out and the recovery time since the last failure is over; in the second case it is the probe |
| Breaker.HalfOpenRejects | services/api-gateway/src/config/circuit-breaker.ts:59-66 | half-open exactly while a probe is out, as the calls alone tell, and then nobody is admitted: the final `return false` is never reached |
| Breaker.FlagsHold | services/api-gateway/src/config/circuit-breaker.ts:44-90 | whatever the threshold, an open breaker has a probe time and a half-open one its probe out |
| Breaker.CallsAccounted | services/api-gateway/src/config/circuit-breaker.ts:38-64 | `totalRequests + totalRejected` is the number of `isOpen` calls, and `totalRequests` is never negative |
| Breaker.CountersFromTrace | services/api-gateway/src/config/circuit-breaker.ts:38-64 | with threshold >= 1 the counters are the requests so admitted, those turned away, and the failures reported |
| Breaker.ProbesApart | services/api-gateway/src/config/circuit-breaker.ts:44-90 | without success or reset, consecutive probes are at least `recoveryMs` apart |
| Breaker.ProbeSpacing | services/api-gateway/src/config/circuit-breaker.ts:44-90 | k probes span at least `(k-1)*recoveryMs`, after any trace and for any threshold |
| Layout.ValDec | services/show-service/src/services/theatre.ts:40 | decimal printing is injective |
| Layout.DecSplit | services/show-service/src/services/theatre.ts:40 | a printed number that ends in another printed number starts with a third one, and how large it must be |
| Layout.TrimLaw | services/show-service/src/models/theatre.ts:56-72 | trimming cuts off blanks only, and all of them at both ends |
| Layout.UpperLaw | services/show-service/src/services/theatre.ts:38 | upper-casing maps `a` to `z` to the capital at the same place and changes nothing else |
| Layout.GeneratedCount | services/show-service/src/services/theatre.ts:37-48 | a show on a generated screen has as many seats as its row counts add up to |
| Layout.OpensActiveSeats | services/show-service/src/services/show.ts:107-120 | a new show has exactly the active seats of the layout, in order, all available, each at the price the list has for its type: standard, premium, recliner or couple |
| Layout.SeatAt | services/show-service/src/services/show.ts:107-118 | which seat stands at which position, free, and at the price of its own type |
| Layout.ClashShares | services/show-service/src/services/theatre.ts:40 | clashing rows do share a seat id |
| Layout.SharedClashes | services/show-service/src/services/theatre.ts:40 | rows that share a seat id clash |
| Layout.SeatIdsUnique | services/show-service/src/services/theatre.ts:37-45 | the ids of a generated screen are pairwise distinct exactly when no two rows clash |
| Layout.PlainLabelsUnique | services/show-service/src/services/theatre.ts:38-40 | labels that are distinct in upper case and do not end in a digit never clash |
| Layout.ElevenSeatsClash | services/show-service/src/services/theatre.ts:40 | `A` with 11 seats and `A1` share an id; with 10 seats they do not |
| Layout.ScreensApart | services/show-service/src/services/theatre.ts:40 | screens with different ids of one length never share a seat id |
| Layout.TheatreService.Create | services/show-service/src/services/theatre.ts:33-89 | which inputs are stored, bound by bound, and which refused with which error, the first mismatching screen named; the stored layouts seat by seat; nothing changes on refusal |
| Layout.TheatreService.BuildScreens | services/show-service/src/services/theatre.ts:34-64 | screens, rows and seats as given: trimmed names and labels, ids of screen, label and number, numbers from one, all active |
| Schedule.ConflictIsCloseness | services/show-service/src/services/show.ts:78-96 | the query finds a show exactly when an active show of the screen starts closer than the new show's window |
| Schedule.StepKeepsSpacing | services/show-service/src/services/show.ts:81-104 | creating and deactivating keep the spacing |
| Schedule.RunsSpaced | services/show-service/src/services/show.ts:73-104 | in every run two active shows of a screen start at least the later-created show's window apart |
| Schedule.EqualShowsSpan | services/show-service/src/services/show.ts:73-104 | n active shows with windows of length D span at least (n-1)*D |
| Schedule.RunEqualShowsSpan | services/show-service/src/services/show.ts:73-104 | the same for every run |
| Schedule.RunOverlaps | services/show-service/src/services/show.ts:73-96 | in every run two active windows overlap exactly when the later-created show starts at least its own window after the earlier's start but before its end; never if the earlier is no longer |
| Schedule.QueryVersusWindows | services/show-service/src/services/show.ts:73-96 | exactly which stored shows the query judges differently from the windows it stands for |
| Schedule.LongerShowMissed | services/show-service/src/services/show.ts:86-94 | a missed overlap, and a refusal without overlap |
| Schedule.TogetherIsCreate | services/show-service/src/services/show.ts:81-124 | query and insert in one go are the whole create |
| Schedule.TurnSpacing | services/show-service/src/services/show.ts:81-124 | with query and insert apart, a call breaks the spacing exactly when it inserts a show that the query would refuse by then |
| Schedule.TurnsSpaced | services/show-service/src/services/show.ts:81-124 | in every interleaving without such an insert the spacing holds |
| Schedule.BothInserted | services/show-service/src/services/show.ts:81-124 | two creates that both query before either inserts are both accepted, for one time |
| Schedule.ShowService.FindOverlap | services/show-service/src/services/show.ts:73-104 | finds a show exactly when an active one of the screen starts closer than the film's minutes and thirty more |
| Schedule.ShowService.OpenOn | services/show-service/src/services/show.ts:81-147 | overlap, no active seat, not storable, in this order; otherwise one show is appended with the screen's active seats in order, each free and at its type's price, counters equal to their number, version zero |
| Schedule.ShowService.Create | services/show-service/src/services/show.ts:33-147 | the first failing check decides the error, each by what it means for movies, theatres, screens and stored shows; otherwise exactly one show is appended with the screen's active seats, each free and at its type's price, counters and version zero |
| Schedule.ShowService.Deactivate | services/show-service/src/services/show.ts:215-219 | clears one show's active flag, or reports that it does not exist |
| Schedule.OpenedShowStartsProtocol | services/show-service/src/services/show.ts:124-137 | `totalSeats = availableSeats = ` sum of row counts, all available; the show is a legal start of the reservation protocol exactly when no two rows clash |
| Tokens.SpentMeansOnce | services/user-service/src/services/auth.ts:104-120 | the invariant says that no token has been accepted twice, whatever is presented next |
| Tokens.SpentStep | services/user-service/src/services/auth.ts:119-132 | a call breaks it exactly when, in the state before, it is about to issue a token accepted before or is a refresh in the second of its token's issue |
| Tokens.SpentRun | services/user-service/src/services/auth.ts:87-133 | every state of a run keeps it exactly when no call of the run repeats a token |
| Tokens.AcceptedOnce | services/user-service/src/services/auth.ts:87-133 | with issues in distinct seconds no token is accepted twice in any run |
| Tokens.ReuseRevokesUser | services/user-service/src/services/auth.ts:109-117 | presenting an accepted token again empties exactly its user's tokens |
| Tokens.DeadStep | services/user-service/src/services/auth.ts:158-176 | a token out of the store enters it exactly when the call is about to issue it, and is not accepted |
| Tokens.DeadRun | services/user-service/src/services/auth.ts:158-176 | a token stays out of the store for a whole run exactly when no call of the run is about to issue it |
| Tokens.DeadStaysDead | services/user-service/src/services/auth.ts:104-117 | and then it is never accepted |
| Tokens.RevokedForGood | services/user-service/src/services/user.ts:65-69 | after a completed password change or deletion a token of the user stays out of the store exactly as long as no call issues it again, and is not accepted; with issues in distinct seconds that is for ever |
| Tokens.OwnersAlways | services/user-service/src/services/user.ts:85-95 | in every run stored tokens belong to active accounts, and a deleted account stays without tokens |
| Tokens.NoTokenWithoutUser | services/user-service/src/services/auth.ts:123-130 | with whole calls the missing-user branch of refresh is never taken |
| Tokens.DeletedForGood | services/user-service/src/services/user.ts:85-95 | after a deletion no refresh of that user's tokens succeeds, in whatever seconds |
| Tokens.SameSecondReuse | services/user-service/src/services/auth.ts:165-176 | within one second a refresh re-issues its own token, and a login revives a revoked one |
| Tokens.ApartAlways | services/user-service/src/services/user.ts:85-95 | user ids and e-mail addresses stay unique in every run |
| Tokens.OutcomesAlways | services/user-service/src/services/auth.ts:41-148 | in every run each call answers and leaves what its documents call for: a wrong password, a taken address, an inactive account or a bad token is refused with its error and nothing else changes; a logout removes the presented token only; a completed change or deletion rewrites one account and removes exactly its tokens |
| Tokens.AccountService.IssueTokens | services/user-service/src/services/auth.ts:158-176 | stores the new token and nothing else, or fails on a duplicate |
| Tokens.AccountService.Register | services/user-service/src/services/auth.ts:41-60 | one step of the model: refused exactly on a taken id or address, else a new account and its first token |
| Tokens.AccountService.Login | services/user-service/src/services/auth.ts:62-85 | one step of the model: a token exactly for an active account with the right password, else refused without change |
| Tokens.AccountService.Refresh | services/user-service/src/services/auth.ts:87-133 | one step of the model: which branch is taken, its answer, and exactly which tokens are left |
| Tokens.AccountService.Logout | services/user-service/src/services/auth.ts:135-148 | the presented token is gone, every other token stays |
| Tokens.AccountService.ChangePassword | services/user-service/src/services/user.ts:46-72 | without an active account or with a wrong current password nothing changes; else only this password changes and exactly the user's tokens go |
| Tokens.AccountService.DeleteAccount | services/user-service/src/services/user.ts:74-98 | without an active account or with a wrong password nothing changes; else only this account becomes inactive with its address vacated, and exactly its tokens go |
| Rotation.OnceStep | services/user-service/src/services/auth.ts:104-120 | with find and delete as separate steps, a step makes a token accepted twice exactly when it finds one that another refresh has found and not deleted |
| Rotation.AcceptedOnceInterleaved | services/user-service/src/services/auth.ts:104-120 | in every interleaving without such an overlap each token is accepted at most once |
| Rotation.BothAccepted | services/user-service/src/services/auth.ts:104-132 | two overlapping refreshes of one token are both accepted and both issue a new token |
| Rotation.StaysOut | services/user-service/src/services/auth.ts:158-176 | a user without tokens and without calls in flight gets none except by a login |
| Rotation.FlightLands | services/user-service/src/services/auth.ts:119-132 | a refresh or login in flight can still insert a token |
| Rotation.RevocationComplete | services/user-service/src/services/user.ts:65-69 | deleting all of a user's tokens signs the user out in every continuation without a login exactly when no refresh or login of that user is in flight |
| Rotation.TogetherIsRefresh | services/user-service/src/services/auth.ts:104-132 | the store calls of a refresh in one go are the whole call |
| Rotation.TogetherIsLogin | services/user-service/src/services/auth.ts:62-85 | so are those of a login |
| Payments.GrowsDistinct | services/payment-service/src/models/Payment.ts:37-55 | payment and order ids stay unique |
| Payments.TraceableStep | services/payment-service/src/services/payment.ts:393-398 | success, refund pending or refunded implies a gateway payment id; the one step that can break it is a refund notice without an id that hits an unpaid payment |
| Payments.TraceableAlways | services/payment-service/src/services/payment.ts:193-202 | with well-formed notices that holds in every run |
| Payments.BalancedStep | services/payment-service/src/services/payment.ts:239-302 | per call and payment: refunds sent plus a standing success grow only by entries into success, and each entry publishes one event |
| Payments.Conserved | services/payment-service/src/services/payment.ts:239-302 | the same over whole runs |
| Payments.CoveredAlways | services/payment-service/src/services/payment.ts:261-283 | every refund sent is for a stored payment and at most its order in paise |
| Payments.PaiseLaw | services/payment-service/src/services/payment.ts:276-278 | the paise of an amount are the one whole number nearest to a hundred times it, halves upward |
| Payments.SentAsAsked | services/payment-service/src/services/payment.ts:261-283 | in every run each refund request sent goes back to a refund call for that payment, and its paise are within half a paisa of the part named, positive and within the order, or of the order when none is named |
| Payments.RefundsConserved | services/payment-service/src/services/payment.ts:206-302 | per payment: refunds sent <= entries into success = success events published, each at most the order, together at most the order times the entries |
| Payments.EntersIsTaking | services/payment-service/src/services/payment.ts:341-347 | a payment enters success exactly by a valid verification or signed capture of a payment not standing as paid |
| Payments.BoundedStep | services/payment-service/src/services/payment.ts:260-283 | a call makes some payment send back more than its order exactly when it is an accepted refund for more than is left of the order |
| Payments.RefundsWithinOrder | services/payment-service/src/services/payment.ts:260-283 | a run keeps every payment's refunds within its order exactly when it has no such call |
| Payments.OnceStep | services/payment-service/src/services/payment.ts:342-344 | a call breaks "at most one refund sent, and none that stands as paid after it" exactly when it takes a payment whose refund was sent |
| Payments.NeverOverRefunded | services/payment-service/src/services/payment.ts:239-302 | never taking a refunded payment again is enough to stay within the order |
| Payments.RedeliveredCapture | services/payment-service/src/services/payment.ts:342-344 | a capture delivered again after the refund leads to twice the order refunded |
| Payments.OneActiveStep | services/payment-service/src/services/payment.ts:45-55 | a call breaks "one active order per booking" exactly when it revives an order given up before a newer one |
| Payments.LateCapture | services/payment-service/src/services/payment.ts:341-347 | an order that failed and was replaced is captured late: two active orders |
| Checkout.TogetherIsVerify | services/payment-service/src/services/payment.ts:134-202 | read and write of a verification in one go are the whole call |
| Checkout.TogetherIsCreate | services/payment-service/src/services/payment.ts:45-89 | so are those of an order |
| Checkout.EventsStep | services/payment-service/src/services/payment.ts:140-221 | with read and write apart, a step publishes one event per entry into success, and one more exactly when a verification marks a payment captured since it was read |
| Checkout.EventsExactly | services/payment-service/src/services/payment.ts:140-221 | in every interleaving a payment has at least as many success events as entries, and as many exactly without such a mark |
| Checkout.ToldTwice | services/payment-service/src/services/payment.ts:140-202 | a capture between read and write of a verification: two events for one entry |
| Checkout.ActiveStep | services/payment-service/src/services/payment.ts:45-89 | with read and write apart, a step makes a second active order exactly when it inserts although the query would find one by then, or revives one given up |
| Checkout.BothOrdered | services/payment-service/src/services/payment.ts:45-89 | two creates for one booking that both look before either inserts: two active orders |
| Refunds.BoundedCallStep | services/payment-service/src/services/payment.ts:276-289 | with read, gateway call and write apart, the refunds exceed the order exactly when the gateway accepts a request for more than is left of it |
| Refunds.SingleStep | services/payment-service/src/services/payment.ts:244-289 | two refunds of one payment stand side by side exactly when one reads and passes while another has read and not written |
| Refunds.RefundsBacked | services/payment-service/src/services/payment.ts:239-302 | in every interleaving without such a read, crashes and webhooks included, refunds sent are at most the entries into success |
| Refunds.BothSent | services/payment-service/src/services/payment.ts:244-289 | two refunds that both read before either writes are both sent in full |
| Refunds.TogetherIsRefund | services/payment-service/src/services/payment.ts:244-289 | read, request and write of a refund in one go are the whole call |
| Refunds.SentAsRead | services/payment-service/src/services/payment.ts:276-283 | call by call too, each request sent or about to be sent is within half a paisa of the part named, or of the order, by a refund that read the payment |
| Payments.PaymentService.CreateOrder | services/payment-service/src/services/payment.ts:36-128 | one step of the model: a standing order of the booking is returned, each refusal has its case, else one new order; the gateway is asked exactly for a new positive amount, in paise to the nearest |
| Payments.PaymentService.MarkPaid | services/payment-service/src/services/payment.ts:194-221 | this payment stands as paid under the gateway's id and one event says so, or nothing on an id another payment has |
| Payments.PaymentService.VerifyPayment | services/payment-service/src/services/payment.ts:134-234 | one step of the model: not found, already paid, failed on a wrong signature, or paid |
| Payments.PaymentService.Refund | services/payment-service/src/services/payment.ts:239-302 | one step of the model: each failing check in order, without change; else one request within half a paisa of a hundred times the part named, or the order, and then the payment is pending with the refund's id |
| Payments.PaymentService.HandleWebhook | services/payment-service/src/services/payment.ts:308-404 | one step of the model: an unsigned notice changes nothing; a capture, failure or processed refund changes the one payment it names to paid, failed or refunded |
| Payments.PaymentService.Dispatch | services/payment-service/src/services/payment.ts:340-402 | the `switch` alone, for a notice whose signature is right |

## Left out

- Express wiring, controllers, validators, rate limiting, health, metrics, logging, notification templates: plumbing without shared state. Validator bounds appear only where the services rely on them.
- Kafka and RabbitMQ: publishing is fire-and-forget; only the events counted in `Payments` are kept. Nothing starts the booking service's Kafka consumer, so seat status `booked` and booking status `confirmed` are in the types but no step writes them.
- The commented-out transactional versions of the booking writes.
- Several shows: the protocol has one show document, since every write names one show and the locks of two shows are apart (`LockKey.KeyExactly`).
- Row, number and type of a booked seat, cancel reasons, currencies, user agents: carried along, never decided on.
- Service.BookingService.CreateBooking: alone with a standing clock; its interleavings are the protocol machine's, step by step. What it does to the documents is spelled out for shows with unique seat ids (`Layout.SeatIdsUnique` says which those are); that a created booking costs its lines and the fee, for all.
- Service.BookingService.CancelBooking: alone with a standing clock; the ids of bookings are unique in every run (`Refinement.InvAlways`).
- Worker.ExpiryWorker.RunExpiryWorker: alone with a standing clock; the order in which the query returns lapsed bookings is the collection's here and arbitrary in the protocol machine. The timer that starts ticks is not modelled.
- Schedule.RunsSpaced: whole creates; `Schedule.TurnSpacing` has query and insert apart.
- Layout.PlainLabelsUnique: `toUpperCase` on ASCII letters only.
- Exposure.ExposureExactly: leaves open the states in which, until the other booking's hold is over, every request for a stolen seat meets a blocked seat or a lock left behind by a call that has ended or crashed.
- Layout.TheatreService.Create: of the collection's schema only the demands on screens and rows, with the ASCII blanks trimmed; the theatre's own name, city, address, pincode and amenities are left out.
- Listing and pagination, movie CRUD, theatre update: thin wrappers over queries.
- Tokens.AcceptedOnce: each service call is one step; `Rotation` has the interleavings, with issues in distinct seconds. The token payload's e-mail and role do not change while an account can be issued tokens, so a token is its user and second.
- Tokens.AccountService.Register: phone numbers with their unique index, and the lower-casing of e-mail addresses, are left out; so are access tokens.
- Payments.RefundsConserved: each service call is one step, and the gateway never repeats a refund id. `Refunds` has the calls of a refund apart; there a refund that asked the gateway and never wrote counts as still under way.
- Payments.PaymentService.CreateOrder: one step; `Checkout` has query and insert apart. The currency is left out.
- Payments.PaymentService.HandleWebhook: a signed event whose payment lacks its order id or its own id is not modelled.
- Payments.PaymentService.VerifyPayment: one step; `Checkout` has read and write apart.
- Breaker.CircuitBreaker.IsOpen: the `stats` snapshot, which reads the fields out, is left out.
