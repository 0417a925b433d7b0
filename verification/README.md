# Admission, lifecycle and retention: a verified model

This project models the parts of the VIRU backend that decide who may call an external hotel
provider, what a tracked offer may do, and what retention may delete, and proves their
properties with Dafny. `dafny verify dfyconfig.toml` checks everything.

How it is organised:

- **Stores and services** are classes whose methods follow the Python functions statement by
  statement. A conditional `UPDATE … WHERE` is a predicate (does the row match) and a function
  (the new row); each method is proved against them.
- **Transactions.** `Database.Session` is the caller's session: a committed and a working copy of
  the shared tables. The budget ledger only changes the working copy, the lease store commits or
  rolls back the whole of it, and the circuit breaker has sessions of its own (`Circuit`).
- **Columns.** Beside these functions the contracts state what a call does column by column, so that
  a reader can compare them with the statements without following the functions.
- **Runs.** The `…Runs` modules and `Calls` interleave any number of workers, with the read and
  the conditional write of a worker as separate steps where the code separates them.
  `Conformance` shows that calls of the stores are steps of the `…Runs` machines, and
  `CallConformance` that a whole sweep and a whole area search are runs of the `Calls` machine of
  every budget window.
- **Reading.** Statements see what is committed when they run, rows changed by an open transaction
  are locked for others, and an offer that a session has loaded stays as it was read until its
  transaction ends.
- **Time** is an integer that never decreases within a run. Tokens and ids are new values.
  Nullable columns are options, and a comparison with NULL is false.

| files | part of the backend |
|---|---|
| `Circuit`, `CircuitRuns` | circuit breaker with versions and probe tokens |
| `Budget`, `BudgetRuns`, `Calls` | budget ledger; provider calls of all sessions in one window |
| `Lease`, `LeaseRuns` | expiring lease on a stay query |
| `Admission`, `Answers`, `Sweep` | admission of one request and what its answer leaves; whole sweeps and area searches and their price observations |
| `Lifecycle`, `Tracking` | tracked offers, their event log, delivery intents: statements and functions |
| `ExpiryPass` | the expiry pass while other sessions commit |
| `LifecycleRuns`, `OfferRuns`, `DeliveryRuns` | all sessions interleaved: event log, ranks and passes, deliveries |
| `Alerts` | firing and rearming of alert rules |
| `TrendingRetention`, `FareRetention`, `Chunks` | the two retention passes |
| `Mapping`, `Matching` | hotel scores in double precision; the top-two scan |
| `Latency` | bounded latency accumulator and its upsert |
| `LiveLock` | live-refresh lock and cooldown |
| `Conformance`, `CallConformance` | the store methods and the requests are steps of the run machines |

## What the proofs found

- **The circuit breaker needs durable savepoints.** The first admission of an operation inserts
  the row in a savepoint, is a closed admission, and rolls its session back
  (hotel_provider_circuit.py:88-98, 304-345). Unless the driver makes a released savepoint
  permanent, no row ever exists, no outcome is ever accepted and every admission is granted.
  `CircuitRuns.BreakerWorksIffSavepointsDurable` states it as an if-and-only-if.
- **An open circuit can still hand out permits inside its cooldown**, to workers that read it closed
  before it opened: the closed branch decides on the row it read and returns after a rollback
  (hotel_provider_circuit.py:88-98). Exactly those workers can get one
  (`CircuitRuns.PermitWhileCoolingIff`), a run that does it is constructed in
  `CircuitRuns.ClosedReadPassesOpenCircuit`, and admissions that read the open row are refused
  (`CircuitRuns.OpenCircuitHolds`).
- **A query with a lease row is never called again.** The lease insert conflicts, the conflict
  rolls the caller's transaction back, and the reservation made just before goes with it; the lease
  is then taken over but the consumption fails (hotel_sweep_lease.py:83-125,
  hotels_service.py:1174-1217). The exact condition for a call is `Admission.Permitted`, and
  `Admission.LeasedQueryIsNeverCalled` follows from it; over all sessions each query is called at most
  once (`Calls.EachQueryIsCalledOnce`).
- **A sweep can lose a price observation it stored.** It is added with `finish(commit=False)`, so it
  is committed in the end exactly if the next request to reach its lease, if any, asks for a query
  that has no lease row (`Sweep.Worker.SweepOffers`). If it is lost, so are its finish and its
  consumption, and its query is not called again.
- **`finish(commit=False)` is only as final as its transaction**: rolled back, the token owns the
  lease again and can finish again (`LeaseRuns.OpenFinishFollowsItsTransaction`).
- **A budget transition takes its units from the handle, not from the stored reservation**, so it
  keeps the books exactly when the two agree (`Budget.TransitionConservesIffUnitsAgree`).
- **The expiry pass can leave due offers behind, and report them as expired.** It reads the due
  offers once and compares against the versions it read (hotels_service.py:2553-2562, 2796); if
  another session has moved one of them in between, that update matches no row and the session is rolled
  back (hotels_service.py:2514-2516), which discards the savepoint of that offer and with it every
  expiration before it. Afterwards the listed offers that are still due
  are exactly those up to and including the last conflict that the others left due
  (`ExpiryPass.WholePass`, `LifecycleRuns.PassCommitLeavesDueIff`). An update conflicts exactly if the
  stored version is not the one that was read (`ExpiryPass.ConflictIff`). A run that leaves two due
  offers and reports one expiration is constructed in `OfferRuns.RivalLeavesDueOffers`. If nobody else
  commits during the pass, nothing is due afterwards exactly if every due offer had a version
  (`ExpiryPass.NothingDueIsLeftIff`).
- **An archived offer can be lowered to expired.** `expire` does not look at the state it starts from;
  it is the only transition that goes back (`OfferRuns.OnlyExpiringAnArchiveLowersRank`). After a
  conflict the pass reads its remaining offers again and expires one that a user has archived
  meanwhile: `OfferRuns.ArchiveIsExpired` constructs it. Under the service's callers no rank ever falls
  exactly if no session commits such an expiry (`OfferRuns.RanksKeptIff`), and none does unless a pass
  reloads an archived offer (`OfferRuns.RankNeverDecreases`).
- **A queued delivery of an inactive offer is possible** when a pause is committed between the check
  and the insert of a delivery (hotels_service.py:2145-2179; `DeliveryRuns.PauseBetweenCheckAndInsert`,
  from the empty tables `DeliveryRuns.RaceIsReachable`), and also when check, insert and commit follow
  each other at once while a pass has expired the offer but not committed
  (`DeliveryRuns.OpenPassRaceIsReachable`). The tables stay consistent, whichever open transactions
  commit, exactly if every insert is committed while its offer is active and no open transaction takes
  it away (`DeliveryRuns.QueuedDeliveriesAreLiveIff`).
- **Fare retention with batch size 0 deletes nothing** although it reports candidates; only its
  command line checks the size (`FareRetention.Store.Run`).
- **Rounding decides some hotel matches.** In doubles 0.50 + 0.20 + 0.10 is below 0.80, so a prefix
  name in the same city within one kilometre does not reach the high threshold, and some scores
  that are 0.05 apart on paper are not within the margin. `Mapping.RoundingMissesHighIff` and
  `Mapping.RoundingMissesMarginIff` give all such cases.

## Model

| member | source | states |
|---|---|---|
| Circuit.CircuitStore.EnsureRow | backend/app/services/hotel_provider_circuit.py:304-345 | an existing row is returned unchanged; a new one is closed with version 0, no failures and the given limits, and survives a rollback only if savepoints are durable; the row of a rival that inserts first is the one read |
| Circuit.CircuitStore.ClaimProbe | backend/app/services/hotel_provider_circuit.py:252-301 | a claim commits a half-open row with its token if status, version and due time still match, and otherwise changes nothing |
| Circuit.CircuitStore.Admit | backend/app/services/hotel_provider_circuit.py:71-125 | a closed row admits; an open row past its cooldown and a half-open one past its probe are claimed, for the probe time; everything else is refused. Column by column, with the configured value wherever a parameter is none or zero |
| Circuit.CircuitStore.Record | backend/app/services/hotel_provider_circuit.py:127-250 | which outcomes are accepted, by the columns of the row; "success" and "empty" close it with no failures; any other outcome is counted, opens it at the threshold or if it is a probe's, and sets the next probe to its time plus the given cooldown, or the row's without one |
| CircuitRuns.RecordedRefinesLog | backend/app/services/hotel_provider_circuit.py:150-250 | an accepted outcome keeps every column of the row a function of the log of accepted writes |
| CircuitRuns.ClaimRefinesLog | backend/app/services/hotel_provider_circuit.py:262-301 | so does an accepted claim |
| CircuitRuns.CircuitRefinesLog | backend/app/services/hotel_provider_circuit.py:71-345 | for any interleaving: failures is the trailing run of failures, closed iff that run is below the threshold, version is the number of accepted writes |
| CircuitRuns.ProbeAcceptance | backend/app/services/hotel_provider_circuit.py:184-208 | a probe permit is acceptable iff its claim is the last accepted write and has not expired |
| CircuitRuns.AtMostOneProbe | backend/app/services/hotel_provider_circuit.py:167-174 | in every reachable state at most one probe permit is acceptable: the last accepted write's, until it expires |
| CircuitRuns.DeadProbeStaysDead | backend/app/services/hotel_provider_circuit.py:186-208 | a used, superseded or expired probe permit never changes the row again |
| CircuitRuns.ProbeWindowsDisjoint | backend/app/services/hotel_provider_circuit.py:100-122 | the validity windows of successive probes do not overlap |
| CircuitRuns.ExactlyOneClaimWins | backend/app/services/hotel_provider_circuit.py:263-301 | of several claimers of one generation exactly one gets a permit |
| CircuitRuns.LateSuccessErasesNothing | backend/app/services/hotel_provider_circuit.py:150-182 | an accepted success means no write was accepted since its permit was issued |
| CircuitRuns.PermitsNameTheirGeneration | backend/app/services/hotel_provider_circuit.py:88-98 | every permit is issued with the version of that moment, except that the worker that inserted the row gets one for version 0 |
| CircuitRuns.OpenCircuitHolds | backend/app/services/hotel_provider_circuit.py:88-125 | while the cooldown lasts the row does not move, every read of it is refused, and each permit handed out uses up one closed read that was pending; the next accepted write is a probe claim after it |
| CircuitRuns.PermitWhileCoolingIff | backend/app/services/hotel_provider_circuit.py:85-98 | a permit can be handed out inside the cooldown iff a worker that read the circuit closed has yet to finish |
| CircuitRuns.ClosedReadPassesOpenCircuit | backend/app/services/hotel_provider_circuit.py:88-98 | a run from the start in which a permit is handed out inside the cooldown |
| CircuitRuns.OpeningSetsCooldown | backend/app/services/hotel_provider_circuit.py:184-245 | a failure that opens the circuit sets that time to its own time plus the row's cooldown, or the one it is given |
| CircuitRuns.CircuitNeverStranded | backend/app/services/hotel_provider_circuit.py:88-125 | from every reachable state an admission succeeds once due, and a success recorded on it in time closes the circuit |
| CircuitRuns.RecoveryIsReachable | backend/app/services/hotel_provider_circuit.py:88-182 | from every reachable world with a row there are steps after which a permit is out and a success on it closes the circuit |
| CircuitRuns.FirstRow | backend/app/services/hotel_provider_circuit.py:304-345 | the row appears exactly with the first admission under durable savepoints |
| CircuitRuns.BreakerWorksIffSavepointsDurable | backend/app/services/hotel_provider_circuit.py:85-98 | after an admission there is a row iff savepoints are durable; without them nothing is ever recorded or refused |
| Budget.BudgetLedger.EnsureRow | backend/app/services/hotel_provider_budget.py:193-245 | the window's row is created or takes the new limit and source, except when a rival inserted it in between |
| Budget.BudgetLedger.Reserve | backend/app/services/hotel_provider_budget.py:62-115 | granted iff the units fit under the limit beside the used and the reserved ones of the policy's window; every counter of the row, the reservation added, and the limit in force |
| Budget.BudgetLedger.Transition | backend/app/services/hotel_provider_budget.py:135-191 | succeeds iff the reservation is still reserved and the counter covers it; then its units move to the used or the released ones; a failed transition changes nothing |
| Budget.BudgetLedger.Consume | backend/app/services/hotel_provider_budget.py:117-124 | moves the units from reserved to used |
| Budget.BudgetLedger.Release | backend/app/services/hotel_provider_budget.py:126-133 | moves the units from reserved to released |
| Budget.ReserveConserves | backend/app/services/hotel_provider_budget.py:78-115 | reserving keeps the three counters equal to the sums over the reservations |
| Budget.TransitionConserves | backend/app/services/hotel_provider_budget.py:150-191 | so does a transition whose handle carries the stored units |
| Budget.TransitionConservesIffUnitsAgree | backend/app/services/hotel_provider_budget.py:170-185 | an accepted transition conserves exactly if handle and reservation agree on the units |
| Budget.ReserveWithinLimit | backend/app/services/hotel_provider_budget.py:80-94 | reserving keeps used plus reserved within the largest limit configured so far, in every window |
| BudgetRuns.BudgetConserved | backend/app/services/hotel_provider_budget.py:62-191 | over any interleaving the counters are the sums, and used plus reserved stay within the largest configured limit |
| BudgetRuns.FirstRequestsSucceed | backend/app/services/hotel_provider_budget.py:62-133 | with one limit and size of request and nothing given back, a request of a window is granted iff all requests of it so far fit; with single units, the first as many as the limit |
| BudgetRuns.FinalStatusStays | backend/app/services/hotel_provider_budget.py:152-169 | a reservation leaves reserved at most once |
| Calls.ReserveLookup | backend/app/services/hotel_provider_budget.py:95-106 | reserving adds one reserved reservation and leaves all others |
| Calls.TransitionLookup | backend/app/services/hotel_provider_budget.py:152-167 | a transition changes the status of its own reservation and leaves all others |
| Calls.LiveWithinLedger | backend/app/services/hotel_provider_budget.py:50-57 | reservations that count are no more than the used and reserved units of their window |
| Calls.CallsWithinLedger | backend/app/services/hotels_service.py:1160-1235 | the calls made are no more than the committed used and reserved units |
| Calls.CallsNeverExceedLimit | backend/app/services/hotels_service.py:1160-1235 | for any number of sessions, every call has a committed reservation that stays reserved or used for good, and calls never exceed the largest limit |
| Calls.CallsNeverExceedHardLimit | backend/app/services/hotels_service.py:3385-3449 | with one limit for the window, calls never exceed it |
| Calls.EachQueryIsCalledOnce | backend/app/services/hotel_sweep_lease.py:83-125 | over all sessions each fingerprint is called at most once, and never if another window holds its lease row |
| Lease.LeaseStore.Acquire | backend/app/services/hotel_sweep_lease.py:74-125 | a fingerprint that is new, here and in what others committed, commits the caller's transaction; a conflict rolls it back and then takes over iff the row is not running or has expired; the new row runs under the new token with one attempt more and no end or error |
| Lease.LeaseStore.Renew | backend/app/services/hotel_sweep_lease.py:127-148 | extends and commits iff the token is current and unexpired, else rolls back; nothing but the expiry changes |
| Lease.LeaseStore.Finish | backend/app/services/hotel_sweep_lease.py:150-186 | succeeds iff the status is final and the token holds the running lease; the row then has the given status and error, the time and no expiry, and keeps token and attempts; what is committed or rolled back depends on the commit flag |
| Lease.LeaseStore.OwnsActiveLease | backend/app/services/hotel_sweep_lease.py:188-196 | it holds exactly if a finish at that time, with whatever final status, would close the lease |
| LeaseRuns.OwnershipNeverOverlaps | backend/app/services/hotel_sweep_lease.py:74-196 | ownership periods are disjoint and in order, the owner is the last grant, attempts count the acquisitions, at most one committed finish per token |
| LeaseRuns.RowTellsLastFinish | backend/app/services/hotel_sweep_lease.py:74-186 | in every reachable state the row has the status, error and time of the last acquisition's committed finish, or runs until its expiry with no end or error from earlier ones |
| LeaseRuns.FinishIsRecorded | backend/app/services/hotel_sweep_lease.py:150-186 | the finish so recorded is the one the owner asked for, at the time it was executed |
| LeaseRuns.AcquireSucceedsIffUnowned | backend/app/services/hotel_sweep_lease.py:101-125 | an acquisition succeeds iff nobody owns the lease and no finish is open |
| LeaseRuns.DeadLeaseStaysDead | backend/app/services/hotel_sweep_lease.py:127-186 | a token that lost the lease never owns, renews or finishes it again |
| LeaseRuns.CommittedFinishIsFinal | backend/app/services/hotel_sweep_lease.py:161-183 | a committed finish ends the ownership of its token |
| LeaseRuns.OpenFinishFollowsItsTransaction | backend/app/services/hotel_sweep_lease.py:180-186 | an uncommitted finish is final iff its transaction commits |
| Admission.ReservedCanBeConsumed | backend/app/services/hotels_service.py:1174-1204 | a reservation just granted can be consumed |
| Admission.AdmissionReserves | backend/app/services/hotels_service.py:1162-1217 | admission keeps the books; a permitted call is committed as reserved and counted as used in the open transaction, a refused one leaves no reservation |
| Admission.AdmissionKeepsBacked | backend/app/services/hotels_service.py:1194-1217 | whatever an admission commits or rolls back, the reservations of other calls stay |
| Admission.AdmissionKeepsWithin | backend/app/services/hotels_service.py:1174-1217 | and every window stays within the limit |
| Admission.LeasedQueryIsNeverCalled | backend/app/services/hotel_sweep_lease.py:83-125 | a query with a lease row keeps it and is never permitted again |
| Admission.AdmissionKeepsSound | backend/app/services/hotels_service.py:1162-1217 | admission keeps books, limits, backed calls and asked queries, and permits only queries not asked before |
| Sweep.SurvivesIffNextIsNew | backend/app/services/hotel_sweep_lease.py:83-125 | an observation survives the later rollbacks iff the next request to reach its lease finds no lease row for its query |
| Sweep.ObservedGoesOn | backend/app/services/hotels_service.py:1397-1425 | one more request keeps what is known of every earlier observation: pending, committed or lost |
| Answers.RecordedIsAnswered | backend/app/services/hotel_provider_circuit.py:127-250 | recording an answer leaves the breaker row closed without failures for rates and empty answers, and with one failure more for an error, under the permits that count |
| Answers.AdmittedCircuit | backend/app/services/hotel_provider_circuit.py:71-125 | an admission creates a row with threshold 3 and cooldown 300, claims a due one for 30 seconds, and leaves every other one |
| Answers.CalledCircuit | backend/app/services/hotels_service.py:1160-1294 | admission and answer together: the breaker row after a request, from every row it can start with |
| Sweep.Worker.LeaseAndConsume | backend/app/services/hotels_service.py:1194-1217 | which of call, conflict and failed consumption follows the lease; a call runs under a new lease of 60 seconds; a conflict undoes the reservation; a lease taken over all the same is closed as failed with "budget_consume_failed" while it is held |
| Sweep.Worker.AdmitRequest | backend/app/services/hotels_service.py:1162-1217 | a call is permitted iff the circuit does not refuse it, one more unit fits into the day's budget, and the query has no lease row; which of the refusals comes first; the breaker rows it leaves |
| Sweep.Worker.Admit | backend/app/services/hotels_service.py:3385-3449 | admission keeps the invariant of the session and backs a permitted call, whose query is new |
| Sweep.Worker.CloseSweep | backend/app/services/hotels_service.py:1245-1294 | what the answer leaves in every column of the breaker row and of the lease row; an observation is added iff there are rates, the offer is active and the lease is still held, in the transaction that closes the lease, which stays open |
| Sweep.Worker.SweepOffer | backend/app/services/hotels_service.py:1160-1406 | one offer: called iff permitted, its query never asked before; the outcome by the times, the breaker row from the first look to the answer, the lease row, and which observations are committed and pending |
| Sweep.Worker.SweepOffers | backend/app/services/hotels_service.py:1102-1504 | a request of a sweep that reaches its lease is called iff its query has no lease row, before the sweep or by an earlier request; a stored observation is committed in the end iff the next request to reach its lease, if any, is for such a new query |
| Sweep.Worker.CloseArea | backend/app/services/hotels_service.py:3514-3595 | the same for a search: the end of the lease is committed with its observations; without the lease the session is rolled back to what was committed |
| Sweep.Worker.AdmitAll | backend/app/services/hotels_service.py:3382-3454 | all requests of a search are admitted before any call; their queries are new and distinct |
| Sweep.Worker.CloseAll | backend/app/services/hotels_service.py:3503-3595 | whatever the order of the answers, exactly the stored observations end up committed |
| Sweep.Worker.AreaSearch | backend/app/services/hotels_service.py:3382-3595 | the calls made are exactly the permitted ones, answered in any order; all stay backed, and exactly the stored observations are committed |
| Sweep.Worker.CallsStayWithinLimit | backend/app/services/hotels_service.py:1160-1235 | sweeps and searches in any order never call more often in a window than its limit |
| Lifecycle.SeenWriting | backend/app/services/hotels_service.py:2493-2535 | what a session sees after an update in its open transaction is the transition of what it saw before |
| Tracking.TransitionIsWritten | backend/app/services/hotels_service.py:2493-2546 | and that is what is committed if it commits, and nothing if it does not |
| Tracking.TransitionColumns | backend/app/services/hotels_service.py:2445-2546 | the decision and the update have exactly that effect on the columns of the offer |
| Tracking.TrackingStore.SuppressPendingDeliveries | backend/app/services/hotels_service.py:2427-2442 | a queued delivery becomes suppressed iff its event belongs to a rule on the offer; nothing else changes |
| Tracking.TrackingStore.Transition | backend/app/services/hotels_service.py:2445-2546 | when each error is returned; where each action leads: only resuming a stay that is not over activates, resuming one that is over expires it; the version, the event and the suppressed deliveries, open or committed; a conflict rolls the session back |
| ExpiryPass.ConflictIff | backend/app/services/hotels_service.py:2493-2516 | an update of the pass conflicts iff the stored version is not the one that was read |
| ExpiryPass.ExpiringKeepsOk | backend/app/services/hotels_service.py:2565-2583 | one iteration keeps the invariant of the pass: the open transaction expires each kept offer once and nothing else |
| ExpiryPass.RivalsKeepOk | backend/app/services/hotels_service.py:2553-2583 | so do the commits of other sessions |
| ExpiryPass.PassLeavesDueIff | backend/app/services/hotels_service.py:2549-2584 | of the listed offers exactly those up to and including the last conflict that are due in the others' tables are due afterwards |
| ExpiryPass.WholePass | backend/app/services/hotels_service.py:2549-2584 | the same for a whole pass in any order and with any commits of others between its updates |
| ExpiryPass.NothingDueIsLeftIff | backend/app/services/hotels_service.py:2549-2584 | if nobody else commits meanwhile, nothing is due after the pass iff every due offer had a version, and then all are expired |
| ExpiryPass.QuietPassExpiresAll | backend/app/services/hotels_service.py:2549-2584 | and each moves to expired exactly once and is reported |
| Tracking.StageIsATransition | backend/app/services/hotels_service.py:2565-2583 | one iteration of the loop, a transition in the session of the pass, is the next stage of the pass |
| Tracking.TrackingStore.ExpireDueOffers | backend/app/services/hotels_service.py:2549-2584 | it lists the active and paused offers whose stay is over, goes through them in some order and ends at the last stage of the pass, with its count, whatever the others commit between its updates; undisturbed, it expires and counts all of them |
| Tracking.TrackingStore.CreateDelivery | backend/app/services/hotels_service.py:2118-2189 | a delivery is queued iff its key is new and it is an in-app intent of the event's own user, whose event is not a mere observation, whose rule, if any, is the user's, and whose tracked offer, if any, is active |
| Tracking.TrackingStore.MaterializeDeliveries | backend/app/services/hotels_service.py:2192-2225 | exactly the allowed events of the run get their delivery; counted are those that had no in-app delivery |
| LifecycleRuns.EventsReproduceOffer | backend/app/services/hotels_service.py:2421-2546 | in every reachable state of all sessions the events of an offer have consecutive versions and chained states, and reproduce its state, version and active flag |
| LifecycleRuns.ClosedStaysClosed | backend/app/services/hotels_service.py:2463-2491 | over any run versions grow and an expired or archived offer is never active or paused again |
| LifecycleRuns.PassCommitLeavesDueIff | backend/app/services/hotels_service.py:2549-2584 | in any interleaving, when a pass commits, the listed offers still due are exactly those up to its last conflict that the others left due |
| OfferRuns.OnlyExpiringAnArchiveLowersRank | backend/app/services/hotels_service.py:2463-2491 | expire on an archived offer is the only transition to a lower rank |
| OfferRuns.CommitFallsIff | backend/app/services/hotels_service.py:2493-2529 | a commit lowers the rank of some offer iff its transaction expired an archived one |
| OfferRuns.RanksKeptIff | backend/app/services/hotels_service.py:2553-2577 | under the service's callers no rank falls during a run iff no session commits the expiry of an archived offer |
| OfferRuns.RankNeverDecreases | backend/app/services/hotels_service.py:2549-2584 | from the empty tables the rank of an offer never falls between two moments of a run, unless a pass reads an archived offer again after a conflict |
| OfferRuns.RivalLeavesDueOffers | backend/app/services/hotels_service.py:2514-2516 | a reachable pass that reports an expiration and leaves both its offers due |
| OfferRuns.ArchiveIsExpired | backend/app/services/hotels_service.py:2565-2583 | a reachable pass that expires an offer archived meanwhile |
| DeliveryRuns.DeliveriesStayUnique | backend/app/services/hotels_service.py:2154-2188 | in every reachable state at most one delivery per event, user, channel and template |
| DeliveryRuns.SuppressedStaysSuppressed | backend/app/services/hotels_service.py:2427-2442 | a suppressed delivery is never queued again |
| DeliveryRuns.WritingStaysLive | backend/app/services/hotels_service.py:2427-2442 | an update and its suppression leave no stored delivery of the offer queued, if their transaction commits |
| DeliveryRuns.CommitTidyIff | backend/app/services/hotels_service.py:2118-2189 | a commit keeps queued deliveries on active offers, now and after any open transaction, iff its inserts are for offers that are active and that no open transaction takes away |
| DeliveryRuns.QueuedDeliveriesAreLiveIff | backend/app/services/hotels_service.py:2118-2189 | over any run of all sessions no queued delivery descends from an inactive offer, nor will by an open transaction, iff every insert is committed in time in that sense |
| DeliveryRuns.CheckedAtOnceIff | backend/app/services/hotels_service.py:2136-2188 | check, insert and commit back to back are in time iff no open transaction takes the offer away |
| DeliveryRuns.PauseBetweenCheckAndInsert | backend/app/services/hotels_service.py:2427-2442 | a pause between check and insert always ends in a queued delivery of a paused offer |
| DeliveryRuns.RaceIsReachable | backend/app/services/hotels_service.py:2145-2179 | from the empty tables a run reaches a queued delivery of an inactive offer |
| DeliveryRuns.OpenPassRaceIsReachable | backend/app/worker/hotels_sweep.py:89-90 | so does a run in which check, insert and commit follow each other at once while a pass is open |
| Alerts.AlertRule.Rearm | backend/app/services/hotels_service.py:1570-1574 | the rule forgets firing and fingerprint, and is rearmed iff it had fired |
| Alerts.AlertRule.FinalizeCandidates | backend/app/services/hotels_service.py:1577-1666 | only the first candidate can become an event: iff the rule is not fired or suppressed, the fingerprint is new and the cooldown has passed; what the rule remembers then |
| Alerts.AlertRule.Evaluate | backend/app/services/hotels_service.py:1707-1718 | one evaluation rearms without candidates and finalizes with them |
| Alerts.OnlyFirstCandidateCounts | backend/app/services/hotels_service.py:1649-1665 | after the first candidate the rule is fired or suppressed, so later ones create nothing |
| Alerts.MemoryReflectsTrace | backend/app/services/hotels_service.py:1570-1574 | state and firing time are functions of the evaluations so far |
| Alerts.EventsAtFreshRisingEdges | backend/app/services/hotels_service.py:1649-1665 | events are created exactly at rising edges with a new fingerprint; the cooldown never decides |
| Alerts.ClearBetweenEvents | backend/app/services/hotels_service.py:1649-1653 | two events have a clear evaluation between them |
| TrendingRetention.AntiJoinSurvivesDeletion | backend/app/services/community_trending_retention.py:378-430 | the anti-join over non-candidates before the deletion equals the one over survivors after it |
| TrendingRetention.StateDeletedIffNoLongerShown | backend/app/services/community_trending_retention.py:182-192 | a read state is deleted iff a deleted snapshot shows its source and no survivor does |
| TrendingRetention.PrunedHasNoCandidates | backend/app/services/community_trending_retention.py:108-208 | a second run finds nothing to delete |
| TrendingRetention.PrunedColumns | backend/app/services/community_trending_retention.py:157-192 | pruning does exactly that to the routes and the read states |
| TrendingRetention.KeysetStep | backend/app/services/community_trending_retention.py:309-328 | a page of smallest ids extends the visited ids in order and skips none |
| TrendingRetention.KeysetSelects | backend/app/services/community_trending_retention.py:311-322 | while batches are deleted the next page ranges over exactly the unvisited candidates |
| TrendingRetention.Store.SelectPage | backend/app/services/community_trending_retention.py:317-322 | the smallest candidates beyond the last id, at most a page of them |
| TrendingRetention.Store.DeleteRoutesForSnapshots | backend/app/services/community_trending_retention.py:484-489 | removes and counts exactly the routes of the snapshots |
| TrendingRetention.Store.DeleteBatch | backend/app/services/community_trending_retention.py:169-175 | removes a batch with its routes and counts both |
| TrendingRetention.Store.DeleteCandidates | backend/app/services/community_trending_retention.py:157-180 | every candidate is visited once in id order, nothing else is touched, batches are non-empty, within the limit and as few as possible |
| TrendingRetention.Store.CandidateIds | backend/app/services/community_trending_retention.py:263-294 | the keyset iteration yields exactly the candidates in id order |
| TrendingRetention.Store.CollectMetadata | backend/app/services/community_trending_retention.py:331-357 | the slices give the sources and the number of routes of all candidates |
| TrendingRetention.Store.FindRetained | backend/app/services/community_trending_retention.py:378-430 | the chunks find exactly the given sources that are still shown |
| TrendingRetention.Store.CountStates | backend/app/services/community_trending_retention.py:451-463 | the chunks count every read state of the sources once |
| TrendingRetention.Store.DeleteStates | backend/app/services/community_trending_retention.py:466-475 | the chunks delete and count exactly those read states |
| TrendingRetention.Store.Prune | backend/app/services/community_trending_retention.py:157-192 | the deleting part leaves exactly the pruned tables and the counts the prediction gives |
| TrendingRetention.Store.Run | backend/app/services/community_trending_retention.py:108-208 | a real run removes exactly the published snapshots calculated before the day cutoff and the building ones created before the hour cutoff, their routes, and the read states of the trending feed that no surviving snapshot displays; a dry run changes nothing and predicts all counts; the number of batches |
| FareRetention.OffersPredictedBeforehand | backend/app/services/fare_memory_retention.py:108-129 | pruning observations does not change which offers are dead |
| FareRetention.OfferBatchIsSafeIff | backend/app/services/fare_memory_retention.py:52-58 | deleting dead offers leaves no orphan iff none of them is observed, which pruning observations first ensures |
| FareRetention.PrunedIsClean | backend/app/services/fare_memory_retention.py:52-129 | afterwards every observation has its offer and no offer is past or without observations |
| FareRetention.Store.DeleteEntries | backend/app/services/fare_memory_retention.py:177-194 | the batches delete exactly the candidates, in as few batches as possible, or nothing for batch size 0 |
| FareRetention.Store.PruneTable | backend/app/services/fare_memory_retention.py:85-129 | one table's report equals its candidates and deletions |
| FareRetention.Store.Run | backend/app/services/fare_memory_retention.py:52-61 | both modes count the observations of departed offers and the offers departed or unobserved; a real run deletes exactly them in the least batches, a dry run or batch size 0 nothing |
| Mapping.HighConfidenceIff | backend/app/hotels/mapping.py:101-119 | exactly which evidence reaches the high threshold |
| Mapping.MediumConfidenceIff | backend/app/hotels/mapping.py:101-119 | exactly which evidence reaches the medium threshold |
| Mapping.RoundingMissesHighIff | backend/app/hotels/mapping.py:101-119 | the one combination that rounding keeps below the high threshold |
| Mapping.RoundingMissesMarginIff | backend/app/hotels/mapping.py:54-57 | the pairs of scores for which rounding decides the ambiguity margin |
| Mapping.TokensAreWords | backend/app/hotels/mapping.py:123-130 | the tokens compared are the words between blanks |
| Mapping.ScoreIsAboutPoints | backend/app/hotels/mapping.py:101-121 | every score is the sum of its points between 0 and 1, up to the rounding of the sums |
| Matching.Matcher.ScoreCandidate | backend/app/hotels/mapping.py:91-119 | the accumulated score is that of the candidate's evidence: 0.65, 0.50 or 0.40 for the name, 0.20 for the city, 0.15, 0.10, nothing or -0.20 for the distance, up to rounding |
| Matching.ScanStep | backend/app/hotels/mapping.py:43-52 | one comparison keeps the two largest scores and the owner of the largest |
| Matching.ScanDecides | backend/app/hotels/mapping.py:54-63 | the two largest scores decide like all of them |
| Matching.Matcher.ScanCandidates | backend/app/hotels/mapping.py:40-52 | scanning the candidates in any order ends with the two largest scores |
| Matching.MatchIsUniqueMaximum | backend/app/hotels/mapping.py:54-70 | a match is strictly above every other candidate, and no other candidate qualifies |
| Matching.DecisionIsUnique | backend/app/hotels/mapping.py:35-89 | the scores leave one decision, so the row order does not matter |
| Matching.Matcher.MapOrCreate | backend/app/hotels/mapping.py:30-89 | matches iff a hotel of the country scores 0.80 while all others are below 0.55 or more than 0.05 behind, and then that one; otherwise creates the hotel, ambiguous iff a candidate has 0.55 |
| Latency.MeanBetweenExtremes | backend/app/services/hotel_provider_latency.py:235-238 | count times minimum ≤ sum ≤ count times maximum |
| Latency.TotalLimitNeverDecides | backend/app/services/hotel_provider_latency.py:233-234 | below the sample limit the total limit cannot be exceeded |
| Latency.ExactIsOrderFree | backend/app/services/hotel_provider_latency.py:235-238 | the figures do not depend on the order of the samples |
| Latency.LimitsDecide | backend/app/services/hotel_provider_latency.py:227-234 | the tests on groups, samples and totals amount to counting groups and samples, and never reject a new group for its size |
| Latency.GroupsSeparateLabels | backend/app/services/hotel_provider_latency.py:209-238 | accepted samples share a group iff they agree on provider, operation, outcome and error code |
| Latency.Accumulator.Add | backend/app/services/hotel_provider_latency.py:209-238 | which test rejects a sample; an accepted one enters count, sum, minimum and maximum of its own group, and the figures of every key are the exact ones of the accepted samples |
| Latency.AggregateTable.Persist | backend/app/services/hotel_provider_latency.py:275-327 | upserts exactly the run's groups, keeps other rows and creation times |
| Latency.PersistingAgainOverwrites | backend/app/services/hotel_provider_latency.py:303-326 | persisting twice equals persisting the later groups once, except for creation times |
| LiveLock.LockStore.Acquire | backend/app/services/live_flight_refresh_lock.py:22-62 | inserts or takes over iff there is no row or it has expired; the new row has the token, no outcome, and expires after the given seconds |
| LiveLock.LockStore.CooldownOutcome | backend/app/services/live_flight_refresh_lock.py:65-77 | an outcome is reported only while an acquisition would fail |
| LiveLock.LockStore.Hold | backend/app/services/live_flight_refresh_lock.py:80-103 | succeeds iff exactly one row has the token, expired or not, and changes its outcome and expiry only |
| LiveLock.LockStore.Release | backend/app/services/live_flight_refresh_lock.py:106-119 | succeeds iff exactly one row has the token, expired or not, and removes it |
| LiveLockRuns.TokenActsIffCurrent | backend/app/services/live_flight_refresh_lock.py:80-119 | in every run a token acts iff it was not released and nobody took the flight over; one such token per flight |
| LiveLockRuns.SupersededForever | backend/app/services/live_flight_refresh_lock.py:80-119 | a superseded or released token never acts again |
| LiveLockRuns.LockedUntilExpiry | backend/app/services/live_flight_refresh_lock.py:46-62 | a lease or held cooldown is untouched by others until it expires, and acquirable afterwards |
| LiveLockRuns.LateHolderAndSuccessor | backend/app/services/live_flight_refresh_lock.py:86-103 | after expiry whoever comes first, late holder or successor, excludes the other |
| Conformance.AdmitIsTwoSteps | backend/app/services/hotel_provider_circuit.py:71-125 | an admission is a read step and a closing step of the circuit machine |
| Conformance.RecordIsAStep | backend/app/services/hotel_provider_circuit.py:127-250 | recording is one step of it |
| Conformance.LeaseStep | backend/app/services/hotel_sweep_lease.py:74-186 | every lease call is a step of the lease machine |
| Conformance.ReserveIsAStep | backend/app/services/hotel_provider_budget.py:62-115 | reserving is a step of the budget machine |
| Conformance.MoveIsAStep | backend/app/services/hotel_provider_budget.py:117-133 | so are consuming and releasing |
| Conformance.TransitionIsThreeSteps | backend/app/services/hotels_service.py:2445-2546 | a committed transition is a read, an update and a commit of the lifecycle machine |
| Conformance.DeliveryIsThreeSteps | backend/app/services/hotels_service.py:2118-2189 | a delivery intent is a check, an insert and a commit of it |
| Conformance.ExpireOneIsTwoSteps | backend/app/services/hotels_service.py:2565-2583 | one iteration of the expiry loop is a load and an update of a pass of it |
| Conformance.LockStep | backend/app/services/live_flight_refresh_lock.py:22-119 | every lock call is a step of the lock machine |
| CallConformance.ReserveOn | backend/app/services/hotel_provider_budget.py:72-106 | reserving commutes with looking at one budget window |
| CallConformance.AdmissionTakesSteps | backend/app/services/hotels_service.py:1162-1217 | an admission is the reserve, acquire and consume steps of its window, and only ends the transaction and adds a lease row for other windows; the call becomes ready iff permitted |
| CallConformance.ClosingTakesSteps | backend/app/services/hotel_sweep_lease.py:180-186 | closing a request is at most one end of the transaction |
| CallConformance.RequestTakesSteps | backend/app/services/hotels_service.py:1160-1406 | admission, call and closing of a request are a run of the call machine |
| CallConformance.SweepOfferIsARun | backend/app/services/hotels_service.py:1160-1406 | so is what the sweep does for one offer |
| CallConformance.AdmitIsARun | backend/app/services/hotels_service.py:3385-3449 | so is each admission of an area search |
| CallConformance.CloseOneIsARun | backend/app/services/hotels_service.py:3514-3595 | and each closing |
| CallConformance.SweepIsARun | backend/app/services/hotels_service.py:1102-1504 | a whole sweep is one run of the call machine of any window, with exactly the sweep's calls of that window |
| CallConformance.AreaSearchIsARun | backend/app/services/hotels_service.py:3382-3595 | so is a whole search: its admissions, then exactly the permitted calls of the window, then its closings |

## Left out

- Tracking.TrackingStore.ExpireDueOffers: promises nothing of a session that begins the pass with something open or cached; its callers begin it in a new one.
- Tracking.TrackingStore.Transition: what other sessions do between its own read and its update is in the run modules; an offer deleted meanwhile is not modelled.
- LifecycleRuns.EventsReproduceOffer: two transitions of one offer in one transaction are not modelled; no caller makes them.
- Calls.CallsNeverExceedLimit: a session's write waits for the lock on the budget row; databases that would instead let the statement fail are not modelled.
- Sweep.Worker.AreaSearch: a ledger or snapshot exception in the middle of a search, and the closing of its pending leases afterwards, are steps of `Calls` only; rates that are already stored are not told apart from new ones.
- LeaseRuns.OwnershipNeverOverlaps: an operation uses the clock at the moment it runs; the delay between reading the clock and the statement is not modelled.
- LeaseRuns.OpenFinishFollowsItsTransaction: further lease calls in the same session while its finish is open are not modelled.
- TrendingRetention.Store.Run: other writers during the run, and a crash between two batches, are not modelled.
- TrendingRetention.Store.CollectMetadata: the text of a source id is replaced by its parsed form; dates have four-digit years.
- FareRetention.Store.Run: the search-cache and negative-cache passes repeat the same loop over unrelated tables.
- Mapping.HighConfidenceIff: distances are exact numbers given by a function; the haversine formula is not modelled.
- Matching.Matcher.MapOrCreate: normalisation, stripping and country codes are functions of the text; addresses and stars are not modelled.
- Latency.AggregateTable.Persist: the order in which a snapshot lists its groups.
- LiveLock.LockStore.Acquire: other changes in the caller's session, which these functions commit or roll back with the lock.
- Provider adapters, timeouts, parallel fetching and the contents of price snapshots: a call is one step that returns rates, nothing or an error.
- Offers of providers that are not external, alias checks, and the counters and warnings of a sweep.
- Budget use during ingestion, which does not commit between reservation and call.
- Conditions of alert rules, fingerprint text and price baselines: an evaluation is given its candidates.
- Deletion of tracked offers, delivery dispatch and retries, and foreign-key cascades.
- Columns that only record when or by whom a row changed.
