# Taxi platform: a verified model

This project models the parts of the taxi platform in which a mistake costs an order, a driver's day or money, and
proves what they are for. `dafny verify dfyconfig.toml` checks the whole project.

- **Reservations.** Orders, drivers and tariffs are tables; each SQL transaction is one guarded step (`Database`), and a
  class runs the statements in place (`OrderTables`). `Reservations` proves what every run keeps. Each order carries a log
  of its events, and an automaton says which logs are legal lives; that the log replays to what the columns show is an
  invariant, and the statements about single resolution and one driver per search are read off the automaton. `Edges`
  gives the six ways in which a transaction changes one order.
- **The accept race** (`AcceptRace`). Any number of concurrent acceptances, one command at a time, over locks that may
  expire while held, with tariffs edited between the read of a fare and the assignment.
- **Offers in Redis** (`OfferStore`). Keys and index sets with their own lifetimes.
- **Dispatch.** The service is a state machine over tables, offers, the task queue and the timeout set (`Dispatch`);
  `DispatchService` and `DispatchWorker` are its methods and worker loops as they run, each proved to be a step, or a run,
  of the machine. `DispatchSafety` proves that a released driver never meets the order again, `DispatchProgress` that
  timers spare unexpired reservations and that no searching order is forgotten, `DispatchTermination` that dispatch ends,
  `Recovery` exactly when the recovery worker, its queries and calls interleaved with everything else, stops for good,
  `RecoveryDrain` how soon it resolves a lapsed reservation while it does not. `City` builds runs from the opening of the
  service; `MixedLifetimes`, `LostConfirmations` and `RecoveryStops` use them to show where the guarantees end.
- **Invitations** (`Invites`, `InviteService`). Their life, the transfer of a driver between parks, his chain of stays.
- **Money.** Fares (`TripPricing`), price estimates over parks (`Estimate`), the split of a fare in wrapping 64-bit
  arithmetic (`Commission`), amounts as column text (`Numeric`), ledgers with running balances (`Ledger`), and the finance
  transactions (`Finance`, `FinanceRepository`) with what every run keeps (`DriverMoney`, `ParkFees`).
- **Vector tiles** (`VectorTile`). The protobuf wire reader against an encoder written as the specification ("Base 128
  Varints" and "Message Structure" of the Protocol Buffers encoding guide; section 4.1 of the Mapbox Vector Tile
  Specification 2.1).

Beside the invariants over runs, `OrderOutcomes`, `DispatchOutcomes`, `Settlements`, `ParkMoney` and `InviteOutcomes` say of
each call, in the columns alone, when it succeeds and what it leaves; `Prices` and `DispatchPrices` that the price of a
reservation is the documented fare.

Time is one logical clock in microseconds that never runs back; a step happens at an instant. Choices of the outside world are
parameters of a step: which drivers are near, whether location and car let a driver take an order, lock tokens, ids.

## What the proofs found

Where a promise fails, the code is kept as it is and the exact condition is proved.

- A due confirmation task of an order cancelled while its price was pending always fails and is never removed from the
  timeout set (`DueTaskIsStuckIff`, `CancelledConfirmationNeverLeaves`).
- Saving an offer shortens the lifetime of both indexes. When a park configures a longer offer than the service, a driver
  who also gets a passenger's offer can lose the park's live offer from his list (`SaveKeepsDriverIff`,
  `DriverListMissesAnOffer`, a run with the program's own callers).
- Two lifetimes for one order that asks its passenger for the price would let a declined driver take the order again
  without end. No caller in the program requests such an order with a configuration, so dispatch ends and released drivers
  stay away (`ProgramEnds`); with a caller that did, they would exactly when its lifetime is the service's own
  (`DispatchAlwaysEndsIff`, `DriversStayAwayIff`).
- The time of a confirmation task is cut to whole milliseconds, the reservation's is not. A task handled within the
  millisecond of the expiry but before it is removed, and the reservation stays pending without a task (`TimerLostIff`,
  `EarlyIsTheSameMillisecond`, `LostConfirmationIsReached`).
- The recovery worker resolves such a reservation after k / 500 + 1 rounds that do not fail, when k others lapsed no later
  (`LapsedReservationsDrain`, `RoundsDrain`). But its loop ends for good on the first call that fails, and a cancellation is enough: of a
  listed lapsed reservation before its turn, or of a listed searching order, which an acceptance or giving up ends as well
  (`WorkerStopsIff`, `ListedExpiryFailsIff`, `EndsSearchIff`, `CancellationStopsTheWorker`). After that, and until the
  program starts anew, a reservation whose task was lost waits until its passenger or driver acts
  (`ReservationWaitsForGood`).
- Lock tokens are clock readings; a late release deletes a successor's lock exactly when two readings coincide
  (`LateReleaseDeletesIffTokensEqual`). The guarded update, not the lock, keeps orders safe (`SectionsMayOverlap`).
- A fare's commission is rounded right exactly when its product fits 64 bits (`ShareIsRoundedIffNoOverflow`,
  `SplitCanLoseCommission`). No price of a column gets that far, so every settlement is rounded right
  (`EverySettlementIsRounded`).
- Paying an invoice twice is possible and hides open debt (`PaymentKeepsDebtIff`, `DoublePaymentHidesDebt`).
- The lowest 64-bit amount is rendered with two signs (`LowestAmountIsMalformed`).

## Model

| member | source | states |
|---|---|---|
| OrderTables.OrderTables.MarkOrderSearching | internal/repository/dispatch_order_repository.go:69-87 | a created or searching order without a driver becomes searching; anything else is refused and unchanged |
| OrderTables.OrderTables.FailOrder | internal/repository/dispatch_order_repository.go:415-435 | a searching order without a driver fails; anything else is refused and unchanged |
| OrderTables.OrderTables.BestTariff | internal/repository/dispatch_order_repository.go:100-105 | the scan finds the one tariff that no matching tariff beats by priority and then by id, and finds none only if none matches |
| OrderTables.OrderTables.GetCandidateFare | internal/repository/dispatch_order_repository.go:89-125 | the fare offered to a driver is his park's top tariff of the order's class and mode on the order's route, only while it searches |
| OrderTables.OrderTables.AssignDriver | internal/repository/dispatch_order_repository.go:127-297 | the guarded assignment: whole new row and events when every guard holds, nothing otherwise; the priced tariff must still be on top and unedited |
| OrderTables.OrderTables.ConfirmDriverPrice | internal/repository/dispatch_order_repository.go:299-318 | only the order's own passenger confirms, only before expiry; a fixed quote is agreed at the proposed price |
| OrderTables.OrderTables.ReleaseDriverReservation | internal/repository/dispatch_order_repository.go:320-355 | a pending reservation goes back to searching without driver, park, tariff or prices, the driver is declined and, if busy, online |
| OrderTables.OrderTables.TransitionOrder | internal/repository/driver_mobile_repository.go:339-370 | an order moves only from the status and version it was read at, and while its price is pending only to cancelled |
| OrderTables.OrderTables.TransitionOrderByUser | internal/repository/driver_mobile_repository.go:435-475 | the driver's transaction finds the order through its driver's user, moves it along the table and frees the driver at the end |
| OrderTables.OrderTables.CompleteOrderByUser | internal/repository/driver_mobile_repository.go:477-542 | completion by the driver's user, with its success reported exactly; the final price is then the one it had, or else the estimate |
| OrderTables.OrderTables.CancelPassengerOrder | internal/repository/passenger_order_repository.go:492-524 | the order's own passenger cancels before the trip starts; a busy driver becomes online |
| OrderTables.OrderTables.MarkDriverBusy | internal/repository/driver_state_repository.go:20-37 | only an online driver becomes busy |
| OrderTables.OrderTables.MarkOnline | internal/repository/driver_mobile_repository.go:801-858 | a verified driver with a park comes online from offline, paused or online, if his park is active and his car verified, which is the parameter `eligible`; anything else is refused and unchanged |
| OrderTables.OrderTables.MarkOffline | internal/repository/driver_mobile_repository.go:860-883 | a driver goes offline unless he has an active order |
| OrderOutcomes.StatusTable | internal/domain/order.go:151-251 | the transition table pair by pair, and which statuses are final and which occupy the driver |
| OrderOutcomes.BeginSearchOutcome | internal/repository/dispatch_order_repository.go:69-87 | in its columns: who is searched for, and that only status, version and history change |
| OrderOutcomes.FailOutcome | internal/repository/dispatch_order_repository.go:415-435 | in its columns: which order fails, and that only status, version and history change |
| OrderOutcomes.ReserveOutcome | internal/repository/dispatch_order_repository.go:127-297 | in its columns: exactly when an assignment goes through, and the row that the driver, the best tariff and the price make of it |
| OrderOutcomes.ConfirmOutcome | internal/repository/dispatch_order_repository.go:299-318 | in its columns: only the own passenger, in time, a price there is; and what is agreed |
| OrderOutcomes.FreeOutcome | internal/repository/dispatch_order_repository.go:320-355 | in its columns: whose reservation is let go, that nothing of it is left, and that a busy driver is online |
| OrderOutcomes.DriveOutcome | internal/repository/driver_mobile_repository.go:435-475 | in its columns: who may move an order where, that a final price comes with a completion alone, and that the driver is online at the end |
| OrderOutcomes.TransitionOutcome | internal/repository/driver_mobile_repository.go:339-370 | a transition built from an earlier read is applied exactly if status and version are still those read |
| OrderOutcomes.CompletionOutcome | internal/repository/driver_mobile_repository.go:477-542 | a completion succeeds exactly when the driver may complete the order and it has a final price or an estimate; afterwards it has the final price it had, or else the estimate |
| OrderOutcomes.OnlyCompletionsCharge | internal/repository/driver_mobile_repository.go:339-542 | no transaction but a completion of the order touches its final price |
| OrderOutcomes.PassengerCancelOutcome | internal/repository/passenger_order_repository.go:492-524 | in its columns: which orders their passenger may cancel, and that a busy driver is online then |
| OrderOutcomes.CancelFreesDriverIff | internal/repository/passenger_order_repository.go:492-524 | a driver busy with a cancelled order under way has no order under way any more |
| OrderOutcomes.OfflineOutcome | internal/repository/driver_mobile_repository.go:860-883 | a driver goes off line exactly without an order under way |
| OrderOutcomes.ChangeParkOutcome | internal/repository/driver_park_invite_repository.go:138-165 | a driver changes his park exactly off line and without any order that is not over |
| Database.TopIsUnique | internal/repository/dispatch_order_repository.go:253-261 | a tariff with no higher one is the one that the ordered query selects |
| OrderTables.OrderTables.ListExpiredPriceConfirmations | internal/repository/dispatch_order_repository.go:445-467 | of the assigned orders whose pending price has lapsed the earliest, each once, at most so many, and all of them if they are fewer |
| OrderTables.OrderTables.ListSearchingOrders | internal/repository/dispatch_order_repository.go:469-497 | orders that search without a driver, each once, at most so many, and all of them if they are fewer |
| Edges.ActionEdge | internal/repository/dispatch_order_repository.go:69-435 | every transaction takes every order along one of six edges or leaves it as it was: searched for, given up, reserved, confirmed, released or moved, each with its guard, its event and one version more |
| Edges.ActionAdds | internal/repository/dispatch_order_repository.go:69-435 | an order that a transaction adds is fresh: created, without driver or price |
| Reservations.AssignKeeps | internal/repository/dispatch_order_repository.go:127-297 | an assignment keeps the tables consistent: histories legal, one active order per driver, order park equals driver park, where no order was inserted with its driver |
| Reservations.ReleaseKeeps | internal/repository/dispatch_order_repository.go:320-355 | a release keeps the tables consistent |
| Reservations.MoveKeeps | internal/repository/driver_mobile_repository.go:339-475 | a driver's transition keeps the tables consistent |
| Reservations.TransferKeeps | internal/repository/driver_park_invite_repository.go:138-165 | a park transfer keeps every running order in its driver's park, because it needs an offline driver without open orders |
| Reservations.ApplyKeeps | internal/repository/dispatch_order_repository.go:69-435 | every transaction on the order, driver and tariff tables keeps them consistent |
| Reservations.ReachableIsConsistent | internal/repository/dispatch_order_repository.go:127-435 | in every reachable database each order's event history is a legal life, nobody drives two orders, a running order belongs to its driver's current park; orders inserted with a preassigned driver are not among them |
| Reservations.ReservationResolvedOnce | internal/repository/dispatch_order_repository.go:299-355 | the event after a pending reservation is its own passenger's confirmation before expiry, its driver's release, or a cancellation; after the first and last nobody is released or reserved again |
| Reservations.ResolutionFollowsReservation | internal/repository/dispatch_order_repository.go:299-355 | every confirmation or release directly follows the pending reservation it resolves, a release names its driver |
| Reservations.SettledOnlyMoves | internal/repository/driver_mobile_repository.go:351 | once the price is settled or the order over, the history only moves along the trip |
| Reservations.OneDriverPerSearch | internal/repository/dispatch_order_repository.go:206-237 | between two reservations of an order the first driver was released |
| Reservations.StatusFollowsTable | internal/domain/order.go:157-251 | a transaction changes a status along the domain table, except a release from assigned to searching, and never leaves a terminal status |
| Reservations.TerminalForever | internal/domain/order.go:151-167 | a terminal status never changes over any run |
| Reservations.ChangeRaisesVersion | internal/repository/dispatch_order_repository.go:72-76 | a transaction that changes a row raises its version by one and appends one event to its history |
| Reservations.VersionsOnlyGrow | internal/repository/dispatch_order_repository.go:72-76 | versions never fall over any run |
| Reservations.EndFreesDriverIff | internal/repository/driver_mobile_repository.go:399-475 | ending an order puts a working driver online; he is free then exactly when the order was under way or he had none |
| Reservations.OneTransitionPerRead | internal/domain/order.go:267-285 | of all transitions built from one read of an order at most one is ever applied, whatever happens in between |
| AcceptRace.LockManager.Acquire | internal/redis/lock.go:21-32 | sets the key with a lifetime unless an unexpired one is there |
| AcceptRace.LockManager.Release | internal/redis/lock.go:40-52 | deletes the key only while it is unexpired and carries the caller's token |
| AcceptRace.AcquiringLocks | internal/redis/lock.go:21-32 | whoever finds no live lock holds it until its lifetime is over; a live one and all other keys are left alone |
| Prices.AssignStoresThePricedTariff | internal/repository/dispatch_order_repository.go:158-198 | when an assignment succeeds, the stored tariff and snapshot are the ones priced, though tariffs were edited since the read, and the price is theirs on the stored route |
| AcceptRace.ReleaseUndoesAcceptance | internal/repository/dispatch_order_repository.go:127-355 | a release undoes an acceptance: all rows are as before except two versions, two events and one declined driver on the order |
| Prices.RowStaysPriced | internal/repository/dispatch_order_repository.go:299-355 | no transaction but an assignment breaks the agreement of snapshot, park, route, proposed and agreed price of a row with a driver |
| DispatchPrices.EveryReservationIsPriced | internal/dispatch/service.go:219-297 | over every run of dispatch each order with a driver has the tariff it was priced with, and its proposed price is the documented fare of that tariff on the order's own distance and duration |
| DispatchPrices.EveryPassengerIsAsked | internal/dispatch/service.go:262-280 | over every run of dispatch the passenger is asked at each reservation of his own order, and at none of a park's |
| AcceptRace.AdvanceKeepsSafe | internal/dispatch/service.go:219-297 | each single step of any number of concurrent calls keeps tables consistent and prices coherent |
| AcceptRace.AcceptRaceIsSafe | internal/dispatch/service.go:219-297 | in every interleaving, with locks that may expire mid-call: one active order per driver, a second driver only after the first was released, every row with a driver priced by its own snapshot, fixed quotes agreed at the proposed price; preassigned orders are not covered |
| AcceptRace.PassengersAreAsked | internal/dispatch/service.go:262-280 | in every interleaving a passenger is asked for the price of each reservation of his order, and of a park's order nobody is |
| AcceptRace.StepSparesLock | internal/redis/lock.go:40-52 | with distinct tokens a live lock is lost only by its holder's release or by time |
| AcceptRace.LockIsKept | internal/redis/lock.go:21-52 | over whole runs with fresh tokens a holder keeps its lock until its own release or expiry |
| AcceptRace.LateReleaseDeletesIffTokensEqual | internal/redis/lock.go:22-52 | a late release deletes the successor's lock exactly when both tokens, clock readings, are equal |
| AcceptRace.SectionsMayOverlap | internal/dispatch/service.go:239-250 | an expired lock lets a second call into its critical section beside the first |
| OfferStore.OfferStore.SaveOffer | internal/redis/offer_store.go:23-47 | five commands: the offer and both index entries, all with the new lifetime |
| OfferStore.OfferStore.GetOffer | internal/redis/offer_store.go:49-64 | finds exactly the unexpired offer of the order and driver |
| OfferStore.OfferStore.ListDriverOffers | internal/redis/offer_store.go:66-87 | returns live offers of the driver, each once, and all of them when his index lists them |
| OfferStore.OfferStore.ListOfferedDriverIDs | internal/redis/offer_store.go:89-105 | returns the members of the order's index, each once |
| OfferStore.OfferStore.RemoveDriverOffer | internal/redis/offer_store.go:107-118 | removes one offer and its two index entries |
| OfferStore.OfferStore.RemoveOffers | internal/redis/offer_store.go:120-140 | removes the offers of all indexed drivers, their index entries and the order's index |
| OfferStore.SaveOutcome | internal/redis/offer_store.go:23-47 | a saved offer is found, and listed under its order and driver, until its lifetime is over; every other offer and entry is as before |
| OfferStore.IndexOutcomes | internal/redis/offer_store.go:107-140 | a removal takes the offer's two index entries, a clearing the order's index and its entry with each driver it listed, and no other |
| OfferStore.SaveKeepsOrderIff | internal/redis/offer_store.go:33-44 | a save keeps its order's live offers listed exactly when no other offer of the order outlives the new lifetime |
| OfferStore.SaveKeepsDriverIff | internal/redis/offer_store.go:33-44 | a save keeps its driver's live offers listed exactly when no other offer to him outlives the new lifetime |
| OfferStore.ClearTakesTheListed | internal/redis/offer_store.go:120-140 | a clearing leaves every offer of other orders and exactly the unlisted live ones of its own: none if the order is listed |
| OfferStore.OneLifetimeListsTheOrder | internal/redis/offer_store.go:23-140 | in every store whose saves for an order used one lifetime its live offers are listed and a clearing leaves none, whatever other orders used |
| OfferStore.OneLifetimeListsTheDriver | internal/redis/offer_store.go:23-140 | in every store whose saves for a driver used one lifetime all his live offers are in his list |
| OfferStore.MixedLifetimesLeaveAnOffer | internal/redis/offer_store.go:39-44 | with two lifetimes for one order an offer survives the clearing of its order, out of the order's list |
| DispatchService.AppendUniqueDriverIDs | internal/dispatch/service.go:651-672 | the merged list holds every id of both lists once, in order of first occurrence |
| Dispatch.DeduplicatedIsExact | internal/dispatch/service.go:651-672 | merging keeps exactly the ids given, without duplicates, and longer inputs only extend the result |
| DispatchService.Service.FindNearestOnlineDrivers | internal/repository/driver_search_repository.go:22-138 | those found keep the order of the drivers in range, each is fit and not excluded, and whoever is fit and left out stands behind all of them, with the limit reached |
| Dispatch.CandidatesAreFit | internal/repository/driver_search_repository.go:41-94 | the candidates are exactly the online, verified drivers in range with a matching tariff, without active order and not excluded |
| DispatchService.Service.Publish | internal/redis/dispatch_queue.go:29-38 | a task joins the end of the queue |
| DispatchService.Service.Consume | internal/redis/dispatch_queue.go:40-57 | the oldest task leaves the queue |
| DispatchService.Service.Schedule | internal/redis/dispatch_queue.go:67-79 | a task enters the timeout set at its time cut to whole milliseconds, or its time there is replaced |
| DispatchService.Service.Due | internal/redis/dispatch_queue.go:81-101 | of the tasks due by the current millisecond the earliest, in order of time, at most so many, and all of them if they are fewer |
| DispatchService.Service.EnqueueOrder | internal/dispatch/service.go:81-102 | the order starts searching and its first task is published, or neither happens |
| DispatchService.Service.OfferDrivers | internal/dispatch/service.go:516-580 | each candidate without a live offer gets one |
| DispatchService.Service.ProcessTask | internal/dispatch/service.go:104-178 | a task of a settled order does nothing; otherwise the order searches, declined drivers are excluded, and it offers, waits for a wider radius or fails the order |
| DispatchService.Service.SearchDrivers | internal/dispatch/service.go:126-163 | offers and schedules the timeout, or fails the order when radii are exhausted |
| DispatchService.Service.HandleOfferTimeout | internal/dispatch/service.go:180-217 | a task expires a confirmation that has lapsed, or clears the offers and goes on with the next radius, and leaves the timeout set exactly when that goes well, even if the confirmation had not lapsed |
| DispatchService.Service.ScheduleNextAttempt | internal/dispatch/service.go:607-628 | publishes the next attempt without the drivers already asked, or fails the order, and reports which goes wrong exactly |
| DispatchService.Service.AcceptOffer | internal/dispatch/service.go:219-341 | the acceptance step, with its success reported exactly; the order is then his at the documented fare of the tariff stored with it, on its own distance and duration |
| DispatchService.Service.ConfirmOrderPrice | internal/dispatch/service.go:343-368 | reports success exactly when the order now stands confirmed and assigned for this passenger |
| DispatchService.Service.DeclineOrderPrice | internal/dispatch/service.go:370-379 | succeeds exactly when this passenger's reservation is pending and can be released; then the driver is released and a new chain starts |
| DispatchService.Service.ExpireOrderPrice | internal/dispatch/service.go:388-399 | releases exactly a lapsed reservation; fails exactly on an unknown order or a lapsed confirmation that cannot be released |
| DispatchService.Service.ReleasePriceConfirmation | internal/dispatch/service.go:401-425 | release and new task happen together or not at all |
| DispatchService.Service.RejectOffer | internal/dispatch/service.go:427-456 | an open offer is removed, any other is refused |
| DispatchService.Service.StopDispatch | internal/dispatch/service.go:495-514 | clears the offers of the order |
| DispatchService.Service.Work | internal/dispatch/worker.go:67-86 | one round of the dispatch worker takes the oldest task and processes it |
| DispatchOutcomes.EnqueueOutcome | internal/dispatch/service.go:75-102 | a request goes through exactly for an order just created or searching without a driver; its first task carries the request's own settings |
| Dispatch.NearestAreFound | internal/repository/driver_search_repository.go:22-138 | the drivers found are the nearest that are fit and not excluded, by their places among those in range |
| DispatchOutcomes.ProcessOutcome | internal/dispatch/service.go:104-178 | the oldest task asks the nearest drivers that it may ask, each with an offer of this attempt, radius and lifetime, and sets its timer; out of radii it fails the order; an order that needs no search is left alone |
| DispatchOutcomes.TimeoutOutcome | internal/dispatch/service.go:180-217 | a due task withdraws the listed offers and queues the next attempt, one radius wider, without those asked, with the chain's own settings; or fails the order; or only goes |
| DispatchOutcomes.ConfirmationTimeoutOutcome | internal/dispatch/service.go:381-425 | a due confirmation task of a lapsed reservation lets the driver go and starts a chain without him; else it only goes, or stays where the release fails |
| DispatchOutcomes.AcceptSucceedsIff | internal/dispatch/service.go:219-297 | an acceptance succeeds exactly with an open offer, an order and a driver that are available, location, car and park allowing it, and a positive fare that fits |
| DispatchOutcomes.AcceptOutcome | internal/dispatch/service.go:219-341 | then the order is his at the documented fare of his park's best tariff, he is busy, listed offers are withdrawn, and a passenger is asked, with a timer at the end of his time |
| DispatchOutcomes.RejectOutcome | internal/dispatch/service.go:427-456 | a rejection takes the driver's own open offer out of the store and changes nothing else |
| DispatchOutcomes.DeclineOutcome | internal/dispatch/service.go:370-425 | the own passenger lets the driver go, in time or not, and a chain without him starts; any other call changes nothing |
| DispatchWorker.Worker.HandleDueTimeouts | internal/dispatch/worker.go:96-106 | one tick of the timeout worker is a run of timeout steps over the earliest hundred due tasks, errors ignored |
| DispatchWorker.Worker.StartRound | internal/dispatch/worker.go:130-133 | a round begins with the listing of up to five hundred lapsed reservations, the earliest to expire first |
| DispatchWorker.Worker.ExpireOne | internal/dispatch/worker.go:134-138 | the turn of one listed lapsed order: it is expired, or the call fails and the loop ends for good |
| DispatchWorker.Worker.ListSearching | internal/dispatch/worker.go:140-143 | when all of them had their turn, up to five hundred searching orders are listed |
| DispatchWorker.Worker.AskOne | internal/dispatch/worker.go:147-151 | the turn of one listed searching order: it is requested again unless a dispatch flag passes over it, or the call fails and the loop ends for good |
| DispatchWorker.Worker.RecoverSearchingOrders | internal/dispatch/worker.go:126-154 | a round with nothing else in between: the whole loop, stopped by the first error; where prices are pending only on assigned or cancelled orders there is none then, and lapsed afterwards is exactly what was lapsed and not listed |
| Recovery.RecoveryIsARun | internal/dispatch/worker.go:111-154 | a run in which the worker's queries and calls fall among everything else is a run of the dispatch machine, so that every statement about runs holds of it |
| Recovery.WorkerStopsIff | internal/dispatch/worker.go:111-154 | over any run, whatever happens between its queries and calls, the worker has stopped exactly when at its turn a listed lapsed order had been cancelled while its price was pending, or a listed searching order was no longer searching |
| Recovery.ListedExpiryFailsIff | internal/dispatch/service.go:388-408 | whatever happens between the listing of a lapsed order and its turn, the turn fails exactly when its passenger or its driver cancelled it in the meantime while its price was pending, with an expiry that is over by then |
| Recovery.AbandonsIff | internal/repository/passenger_order_repository.go:492-524 | an order becomes cancelled with its price pending exactly through the cancellation of a pending order by its own passenger or its own driver |
| Recovery.EndsSearchIff | internal/dispatch/service.go:81-297 | a step ends the search for an order exactly if a driver takes it, its passenger cancels it, or its last radius finds nobody |
| Recovery.UndisturbedNeverStops | internal/dispatch/worker.go:126-154 | a run in which no listed lapsed order is cancelled while pending, and no listed searching order is taken, cancelled or given up before its turn, never stops the worker |
| RecoveryDrain.StepAddsNone | internal/repository/dispatch_order_repository.go:445-467 | no step of the system puts a reservation among those that lapsed no later than a time already past |
| RecoveryDrain.ListedOrBehind | internal/repository/dispatch_order_repository.go:445-453 | a lapsed reservation that a listing leaves out stands behind five hundred listed ones that expired no later |
| RecoveryDrain.LapsedReservationsDrain | internal/dispatch/worker.go:126-138 | with k other lapsed reservations that expired no later, a reservation is resolved once k / 500 + 1 lists have been worked off, whatever happens in between; one under way at the start does not count |
| RecoveryDrain.RoundsDrain | internal/dispatch/worker.go:111-138 | the same in rounds: k / 500 + 1 rounds that do not fail resolve it |
| RecoveryStops.CancellationStopsTheWorker | internal/dispatch/worker.go:134-137 | whatever the configuration, a run of the service as it is in which a passenger cancels a listed lapsed reservation before its turn stops the worker |
| RecoveryStops.LapsedRowChangesIff | internal/dispatch/service.go:370-425 | the row of a lapsed reservation changes exactly if its passenger declines, its passenger or driver cancels, its expiry is called for, or one of its confirmation tasks is handled |
| RecoveryStops.StrandedWaits | internal/dispatch/worker.go:111-124 | after the worker stopped, a lapsed reservation without a confirmation task stays as it is over every run in which neither its passenger nor its driver acts |
| RecoveryStops.ReservationWaitsForGood | internal/dispatch/worker.go:116-122 | whatever the configuration, a run of the service as it is leads to such a reservation: it waits through every further run until its passenger or its driver acts |
| DispatchSafety.OfferAllKeeps | internal/dispatch/service.go:524-552 | offering creates live offers of this order to the given drivers only, listed under the order |
| DispatchSafety.ProcessKeeps | internal/dispatch/service.go:104-178 | processing a task keeps live offers away from declined drivers and from orders with a driver |
| DispatchSafety.AcceptKeeps | internal/dispatch/service.go:219-297 | acceptance keeps it too: its driver never declined the order, and no offer of it is left |
| DispatchSafety.DoKeeps | internal/dispatch/service.go:104-605 | every service call and every outside transaction keeps offers, declined lists and tables in agreement, park orders being offered with any lifetime |
| DispatchSafety.DeclinedOnlyGrows | internal/repository/dispatch_order_repository.go:333 | over any run the declined list of an order only grows |
| DispatchSafety.ReleasedDriverNeverReturns | internal/dispatch/service.go:126-144 | over every run in which only requests of park orders bring their own lifetime, as in the program: a driver once released from an order never has a live offer for it or drives it again, and is listed as declined once |
| DispatchSafety.LiveOffersAreOpen | internal/dispatch/service.go:517-544 | in every reachable state an offer still in the store is open by its own date, and conversely |
| DispatchSafety.NobodyIsAskedTwice | internal/dispatch/service.go:607-614 | the next attempt of a chain finds nobody the chain has asked or excluded before, nor anyone who declined |
| DispatchProgress.StepIsTransactions | internal/dispatch/service.go:81-514 | every service call acts on the tables through at most two transactions, and releases only a lapsed reservation or one its passenger declines |
| DispatchProgress.PendingSurvivesTimers | internal/dispatch/service.go:381-399 | a pending reservation survives every timer, worker and stale confirmation task until its own expiry, unless its passenger answers or it is cancelled |
| DispatchProgress.EarlyIsTheSameMillisecond | internal/redis/dispatch_queue.go:67-101 | a confirmation task can be handled before its reservation expires only within the millisecond of the expiry |
| DispatchProgress.TimerLostIff | internal/dispatch/service.go:381-399 | a step leaves a pending reservation without its task exactly when it handles that task before the expiry |
| DispatchProgress.EveryPendingReservationIsTimed | internal/dispatch/service.go:266-399 | in every state of a run each pending reservation has its own confirmation task in the timeout set, at the millisecond of its expiry, exactly when the run handles no such task before the expiry |
| DispatchProgress.EarlyHandlingLosesTheTask | internal/dispatch/service.go:381-399 | one tick before an expiry that is no whole millisecond the task is due, is handled and removed, and the reservation stays pending |
| LostConfirmations.LostConfirmationIsReached | internal/dispatch/service.go:381-399 | whatever the configuration, a run of the service as it is leads to a pending reservation without its task |
| DispatchProgress.HandledExpiryReleases | internal/dispatch/service.go:381-399 | handling that task once the expiry has passed releases the reservation |
| DispatchProgress.StepRemembers | internal/dispatch/service.go:149-217 | every step leaves a searching order with a queued task or a scheduled timeout |
| DispatchProgress.RunRemembers | internal/dispatch/service.go:149-217 | over any run no searching order is without a task, and the tables stay consistent |
| DispatchProgress.DrainedMeansNobodySearches | internal/dispatch/service.go:104-217 | whenever queue and timeout set are empty no order is searching |
| DispatchProgress.DueTaskIsStuckIff | internal/dispatch/service.go:381-408 | handling a due task has no effect exactly when its order is unknown or its lapsed confirmation belongs to an order no longer in the assigned status |
| DispatchProgress.CancelledConfirmationNeverLeaves | internal/dispatch/service.go:381-408 | the confirmation task of an order cancelled while pending stays in the timeout set over any run |
| DispatchProgress.CancellationLeavesItPending | internal/repository/passenger_order_repository.go:500-510 | a passenger's cancellation of a pending reservation leads to that state once the expiry passes |
| DispatchTermination.ProcessLowers | internal/dispatch/service.go:104-178 | processing a task lowers the potential whatever comes of it |
| DispatchTermination.TimeoutLowers | internal/dispatch/service.go:180-217 | handling a due task lowers the potential unless it has no effect |
| DispatchTermination.ReleasePriceLowers | internal/dispatch/service.go:401-425 | a release pays for its new chain with one driver who cannot come back |
| DispatchTermination.AcceptLowers | internal/dispatch/service.go:219-297 | an acceptance lowers the potential though it schedules a confirmation task |
| DispatchTermination.ForeignLowers | internal/repository/driver_mobile_repository.go:339-475 | nothing outside the service raises what the orders can still cause |
| DispatchTermination.StepLowers | internal/dispatch/service.go:104-514 | every effective service call lowers the potential, every other step does not raise it |
| DispatchTermination.DispatchTerminates | internal/dispatch/service.go:104-514 | from any state in order, whatever lifetimes parks configure, with no new orders, drivers or requests, at most as many service calls of any run have an effect as the potential says, stale timeouts included |
| DispatchTermination.DeclinedOfferReturnsIffUnlisted | internal/dispatch/service.go:292-425 | after an acceptance and the passenger's refusal the driver's offer is still open exactly when the order's index did not list it |
| DispatchTermination.UnlistedOfferNeverEnds | internal/dispatch/service.go:219-425 | a driver whose offer the order's index does not list can accept again right after each refusal, in a state where the same holds, one task more in the queue each time |
| MixedLifetimes.DriverListMissesAnOffer | internal/taxipark/service.go:115 | a run with the program's own callers, a park order offered longer than the service offers, leads to an open offer that its driver's list does not show |
| MixedLifetimes.UnlistedIsReached | internal/dispatch/service.go:516-552 | an order that asks its passenger for the price, requested with two lifetimes, gets an offer that its list does not show; the program has no caller that does so |
| MixedLifetimes.UnlistedNeverEnds | internal/dispatch/service.go:219-425 | from there no bound holds on the service calls that have an effect |
| MixedLifetimes.DispatchAlwaysEndsIff | internal/dispatch/service.go:81-102 | dispatch ends from every reachable state exactly when a configuration admitted for orders that ask for the price has the service's own lifetime, whatever parks configure |
| MixedLifetimes.DriversStayAwayIff | internal/dispatch/service.go:81-102 | exactly then released drivers never have an offer of the order again, in any reachable state |
| MixedLifetimes.ProgramEnds | internal/passenger/order_service.go:250 | with the program's callers, who bring a configuration only for park orders, dispatch ends from every reachable state |
| TripPricing.CalculateMeasuredPrice | internal/domain/trip_pricing.go:47-65 | the accumulated fare is the unbounded one when it fits 64 bits, and an error exactly otherwise |
| TripPricing.CalculateTripPrice | internal/domain/trip_pricing.go:9-45 | every refusal and every mode, in the order of the checks |
| TripPricing.TripPriceIsTheFare | internal/domain/trip_pricing.go:9-65 | a price is returned exactly when the trip is billable and its documented fare fits 64 bits, and it is that fare, mode by mode: the fixed price; or the base with the distance to the nearest kopeck, the started minutes, or both; never below the minimum |
| TripPricing.TripPriceRefusals | internal/domain/trip_pricing.go:9-65 | each refusal exactly with its own reason, and the first that applies |
| TripPricing.TripPriceMonotone | internal/domain/trip_pricing.go:9-65 | a price for a longer trip implies a price, not higher, for a shorter one |
| Commission.ResolveCommissionRate | internal/domain/finance.go:92-115 | case by case the driver's rate if given, else the park's, the tariff's, the city's, or the platform's with one percent for zero; out of range it is refused |
| Commission.StrongestRateApplies | internal/domain/finance.go:92-115 | the driver's rate if given, else the park's, the tariff's, the city's, the platform's; a platform rate of zero is one percent; out of range it is refused |
| Commission.ShareIsRoundedIffNoOverflow | internal/domain/finance.go:125 | the computed share is the rounded one exactly when amount times rate plus 5000 fits 64 bits |
| Commission.FeeNeverOverflows | internal/domain/finance.go:140-149 | the fee's product always fits, because its base is a commission |
| Commission.SplitConserves | internal/finance/service.go:58-83 | every split that succeeds has gross equal to commission plus income and fee within commission within gross, fee rounded right |
| Commission.SplitSucceedsBelowBound | internal/finance/service.go:58-83 | below the bound every valid split succeeds with a correctly rounded commission |
| Commission.SplitCanLoseCommission | internal/domain/finance.go:125-137 | past the bound, which no stored price reaches, a fare can be split with a commission far below its share |
| Numeric.MoneyReadBack | internal/repository/finance_repository.go:882-890 | an amount written as text and read back times one hundred is itself exactly when it fits the column, and is refused otherwise |
| Numeric.RateReadBack | internal/repository/finance_repository.go:892-894 | a rate survives its column exactly when it fits |
| Numeric.LowestAmountIsMalformed | internal/repository/finance_repository.go:883-889 | the lowest 64-bit amount renders with two signs and is refused |
| Estimate.CollectParkPrices | internal/passenger/order_service.go:590-623 | the loop's lists, sum and extremes are those of the kept tariffs, and it fails exactly when the sum of the kept prices exceeds 64 bits |
| Estimate.BuildEstimate | internal/passenger/order_service.go:590-658 | count, minimum, maximum and half-up average of the kept prices, or unavailable with the reasons when none is kept |
| Estimate.KeptIsExact | internal/passenger/order_service.go:597-610 | kept are exactly the tariffs that are the first validly priced one of their park, in list order |
| Estimate.QuotesAreFares | internal/passenger/order_service.go:590-610 | a tariff is quoted at the documented fare of the route, exactly where there is one and it is positive |
| Estimate.ExcludedIsExact | internal/passenger/order_service.go:597-610 | excluded are exactly the tariffs without a price whose park had none yet, in list order |
| Estimate.RoundedAverage | internal/passenger/order_service.go:629 | the average expression is the mean rounded half up, without overflow |
| Estimate.RoundedMeanBetween | internal/passenger/order_service.go:629-637 | the rounded mean lies between the least and the greatest price |
| Estimate.NothingKeptIffNothingValid | internal/passenger/order_service.go:624-628 | no price is available exactly when no tariff has a valid price |
| Estimate.PrefixSumBound | internal/passenger/order_service.go:617-620 | no running sum of kept prices exceeds the final one, so the loop overflows only when the final sum does |
| VectorTile.FieldReader.Integer | infrastructure/maps/vector_tile.py:6-13 | the shift-and-or loop reads exactly the varint ahead, moves past it, and fails on a cut or an overlong one |
| VectorTile.FieldReader.Field | infrastructure/maps/vector_tile.py:15-24 | one round of the loop yields exactly the field ahead and always moves on |
| VectorTile.FieldReader.AllFields | infrastructure/maps/vector_tile.py:14-24 | the generator yields every field up to the end or the first error |
| VectorTile.DecodeInvertsEncode | infrastructure/maps/vector_tile.py:4-24 | decoding an encoded list of fields of wire types 0, 1, 2 and 5 gives exactly that list |
| VectorTile.FieldPrefixRaises | infrastructure/maps/vector_tile.py:10-22 | every non-empty proper prefix of an encoded field raises |
| VectorTile.CutFieldRaises | infrastructure/maps/vector_tile.py:14-24 | data cut inside a field yields all complete fields and then raises |
| VectorTile.UnknownWireTypeRaises | infrastructure/maps/vector_tile.py:15-24 | a field of any other wire type raises, after all the fields before it |
| VectorTile.OverlongVarintRaises | infrastructure/maps/vector_tile.py:6-13 | a varint whose first ten bytes all go on raises |
| VectorTile.InspectLayer | infrastructure/maps/vector_tile.py:31-34 | a layer's name and feature count, or the first error |
| VectorTile.LayerCounts | infrastructure/maps/vector_tile.py:26-36 | the counts of a tile, or the first error |
| VectorTile.TileCountsFeatures | infrastructure/maps/vector_tile.py:26-36 | an encoded tile counts the features of its named layers, of layers with one name the last, and nothing else |
| VectorTile.TileSucceedsIff | infrastructure/maps/vector_tile.py:26-36 | a tile is counted exactly if it decodes to its end and each of its layers is bytes that do so too, with names that are bytes; anything else raises |
| VectorTile.CutTileRaises | infrastructure/maps/vector_tile.py:14-36 | a tile cut inside a field raises, whatever comes before the cut |
| VectorTile.CutLayerRaises | infrastructure/maps/vector_tile.py:26-36 | a tile with a layer that is cut inside a field raises |
| InviteService.Service.Create | internal/driverinvite/service.go:64-122 | every refusal in order, then expiry, the pending invitation found or a new one written |
| InviteService.Service.Respond | internal/driverinvite/service.go:141-237 | the answer step, with every refusal; an answer that succeeds is stored and returned as given, dated now in its own column and otherwise as it was |
| InviteService.Service.Transfer | internal/repository/driver_park_invite_repository.go:146-165 | the seven statements: stay closed and opened, cars detached, driver moved, account opened |
| InviteService.Service.Pending | internal/repository/driver_park_invite_repository.go:107-116 | finds the one pending invitation of driver and park |
| InviteService.Service.ExpireInvites | internal/repository/driver_park_invite_repository.go:131-137 | exactly the driver's lapsed pending invitations expire |
| InviteService.Service.CancelOtherPending | internal/repository/driver_park_invite_repository.go:166-172 | the driver's other pending invitations are cancelled, or expired if their time is over |
| InviteService.Service.CloseStay | internal/repository/driver_park_invite_repository.go:151-152 | a missing stay is written before every open stay is closed |
| InviteService.EndStays | internal/repository/driver_park_invite_repository.go:152 | every open stay ends now, every other one stays as it is |
| Invites.CreateKeeps | internal/driverinvite/service.go:64-122 | creating keeps invitations and stays in order |
| Invites.RespondKeeps | internal/driverinvite/service.go:141-237 | answering keeps invitations and stays in order |
| Invites.TransferExtendsChain | internal/repository/driver_park_invite_repository.go:151-156 | a transfer extends a driver's chain of stays by one that starts where the last ends and names the new park |
| Invites.RunKeeps | internal/driverinvite/service.go:64-237 | any run of invitations, answers, registrations and everything else keeps invitations and stays in order |
| Invites.ReachableIsInOrder | internal/driverinvite/service.go:64-237 | in every reachable state a pending invitation starts at the driver's current park and ends elsewhere, one is pending per driver and park, and stays form a chain ending in his park |
| Invites.ContextNeverChanges | internal/domain/driver_park_invite.go:58-69 | the context and same-park checks of a transfer never fire |
| InviteOutcomes.AnswerIsStored | internal/driverinvite/service.go:141-237 | an answer that succeeds is stored and returned as given, dated now in its own column and otherwise as it was |
| InviteOutcomes.DeclinedIff | internal/driverinvite/service.go:141-217 | a decline succeeds exactly for the invited driver and a live invitation |
| InviteOutcomes.CancelledIff | internal/driverinvite/service.go:141-217 | a cancellation succeeds exactly for a member of the inviting park and a live invitation |
| InviteOutcomes.AcceptedExactlyIf | internal/driverinvite/service.go:141-208 | an acceptance succeeds exactly for the invited driver, a live invitation, an active park, a driver off line and without an order that is not over |
| InviteOutcomes.OnlyAcceptanceMoves | internal/driverinvite/service.go:141-237 | any answer but an acceptance touches that invitation alone, and a refused one only to close what had run out |
| InviteOutcomes.AcceptanceOutcome | internal/repository/driver_park_invite_repository.go:138-172 | an acceptance moves the driver, unverified and off line, ends his other pending invitations, takes his cars, opens his account, and touches nothing else but his stays |
| InviteOutcomes.AcceptanceStays | internal/repository/driver_park_invite_repository.go:146-156 | his last stay ends now and the new one begins; a missing one is written first; no other driver's stays change |
| InviteOutcomes.CreatedIff | internal/driverinvite/service.go:64-122 | inviting succeeds exactly for a member of an active park and a known driver of another one, with an invitation that stands or a new id |
| InviteOutcomes.CreateOutcome | internal/driverinvite/service.go:64-122 | the standing invitation is returned or a new one written, from the driver's park to the inviting one for the configured time; what had run out is marked so, and nothing else changes |
| Invites.AcceptanceIsATransfer | internal/driverinvite/service.go:187-208 | on the driver table an acceptance is the park change that keeps running orders in place |
| Invites.AcceptanceSettlesEverything | internal/repository/driver_park_invite_repository.go:153-172 | afterwards nothing of the driver is pending, no car is his, and he has an account with the new park |
| Invites.OrdersStayInTheirPark | internal/repository/driver_park_invite_repository.go:138-165 | over all interleavings of assignments, releases, trips and invitation transfers a running order with a driver belongs to his current park; preassigned orders are not covered |
| Invites.TransferredMustBeVerified | internal/repository/driver_park_invite_repository.go:155 | a driver who moved takes no order before he is verified again |
| Invites.ClosedForever | internal/domain/driver_park_invite.go:48-56 | a closed invitation never changes over any run |
| Invites.CreateIsIdempotent | internal/driverinvite/service.go:93-99 | inviting again returns the same invitation and changes nothing |
| Ledger.LatestBalance | internal/repository/finance_repository.go:770-786 | finds the newest balance of the owner |
| Ledger.LatestIsBalance | internal/repository/finance_repository.go:770-786 | in a running ledger the newest balance is the sum of the owner's lines |
| Ledger.PostedKeepsRunning | internal/repository/finance_repository.go:712-786 | posting past the newest balance keeps every line's balance the running sum |
| FinanceRepository.WriteMoney | internal/repository/finance_repository.go:882-890 | an amount goes through its text and comes out of the column as itself, or is refused |
| FinanceRepository.WritePercent | internal/repository/finance_repository.go:892-894 | a rate goes through its text and comes out as itself, or is refused above one hundred percent |
| Finance.MoneyColumn | internal/repository/finance_repository.go:882-890 | what a money column holds is what the rendered text denotes, when it fits and is not negative |
| Finance.PercentColumn | internal/repository/finance_repository.go:892-894 | what a percent column holds is what the rendered text denotes, up to one hundred percent |
| FinanceRepository.FinanceRepository.SettleCompletedOrder | internal/finance/service.go:43-122 | the settlement step, with every refusal; a first settlement splits the order's own price at the order's own rates |
| Settlements.SettlementSplitsTheFare | internal/finance/service.go:58-122 | a settlement takes the nearest share of the order's own price at the driver's rate, and of that the nearest share at the platform's, one percent where one is missing or zero |
| Settlements.SettleRefusals | internal/finance/service.go:43-83 | the reasons for which an order cannot be settled, exactly and in order |
| Settlements.SettleSucceedsIff | internal/repository/finance_repository.go:90-209 | otherwise it is settled exactly unless a balance would leave its column, and then nothing changes |
| Settlements.SettlementPosts | internal/repository/finance_repository.go:90-209 | it posts the driver's rest to his account, the commission to his park and the fee to park and platform, each with its line, and nothing else |
| Settlements.EverySettlementIsItsOrders | internal/finance/service.go:43-122 | after any run every settlement is the split of its order's own price at its own rates, as the order was when it was settled |
| FinanceRepository.FinanceRepository.CreateOrderSettlement | internal/repository/finance_repository.go:90-209 | an order already settled is read back and nothing is written; otherwise all books are written, or none |
| FinanceRepository.FinanceRepository.InsertParkLedgers | internal/repository/finance_repository.go:173-189 | park balance and the three ledgers of a park-owned order |
| FinanceRepository.FinanceRepository.InsertDriverIncome | internal/repository/finance_repository.go:159-193 | the balance is raised or opened, and the ledger line repeats it |
| FinanceRepository.FinanceRepository.CreateDriverPayout | internal/repository/finance_repository_extended.go:147-191 | a payout of a positive amount within the balance is created, nothing is debited |
| FinanceRepository.FinanceRepository.ApproveDriverPayout | internal/repository/finance_repository_extended.go:193-195 | an unpaid payout of the park is approved, again if need be |
| FinanceRepository.FinanceRepository.UpdateDriverPayoutStatus | internal/repository/finance_repository_extended.go:608-631 | only an unpaid payout of the park changes its status |
| FinanceRepository.FinanceRepository.MarkDriverPayoutPaid | internal/repository/finance_repository_extended.go:197-238 | status, balance and ledger line change together, or nothing does |
| FinanceRepository.FinanceRepository.CreateTaxiParkPlatformInvoice | internal/repository/finance_repository_extended.go:287-340 | the open accruals of the period are summed and attached to a new invoice; a period is invoiced once |
| FinanceRepository.FinanceRepository.SumAccruals | internal/repository/finance_repository_extended.go:299-308 | the sum of the billable accruals |
| FinanceRepository.FinanceRepository.MarkAdminPlatformInvoicePaid | internal/repository/finance_repository_extended.go:381-432 | whatever its status, the invoice is paid and both ledgers get a line, or nothing happens |
| FinanceRepository.FinanceRepository.GetTaxiParkPlatformFeeDebt | internal/repository/finance_repository_extended.go:579-590 | the debt is the newest balance of the fee ledger |
| DriverMoney.SettlingTwiceIsOnce | internal/repository/finance_repository.go:97-106 | settling again never changes the books, whatever price and rates have become, and returns the same amounts and rates exactly when the order as it is then could be settled |
| DriverMoney.SettledForever | internal/repository/finance_repository.go:97-106 | a settlement never changes over any run |
| DriverMoney.CreditKeeps | internal/repository/finance_repository.go:159-193 | a settlement credits its own account once and keeps every balance equal to its ledger |
| DriverMoney.DebitKeeps | internal/repository/finance_repository_extended.go:204-232 | a payment debits its own account once and keeps every balance equal to its ledger |
| DriverMoney.EntryKeepsDriverBooks | internal/repository/finance_repository_extended.go:147-238 | every transaction keeps balances, ledger, settlements and payouts in agreement |
| DriverMoney.DriverMoneyIsConserved | internal/repository/finance_repository_extended.go:147-238 | after any run every balance is non-negative, the sum of its ledger, and what was earned minus what was paid out; lines carry running balances and correspond to settlements and paid payouts one to one |
| DriverMoney.EverySettlementIsRounded | internal/finance/service.go:58-122 | after any run every settlement splits its fare without loss, commission and fee to the nearest kopeck |
| DriverMoney.SplitSucceedsIff | internal/finance/service.go:58-83 | the split of a stored price succeeds exactly when the price is not negative and both rates are within zero and one hundred percent |
| ParkFees.AttachMoves | internal/repository/finance_repository_extended.go:326-332 | invoicing moves the bill of the period from open accruals to the new invoice and nothing else |
| ParkFees.InvoiceLeavesNothingOpen | internal/repository/finance_repository_extended.go:326-332 | an invoice leaves no accrual of its park and period open |
| ParkFees.EntryKeepsFeeBooks | internal/repository/finance_repository_extended.go:287-432 | every transaction keeps invoices equal to the sums of their accruals, accruals within the period of their invoice, and the ledgers running |
| ParkFees.InvoicedOnce | internal/repository/finance_repository_extended.go:302-332 | the fee ledger is append-only, and an accrual that joined an invoice stays with it |
| ParkFees.DebtIsOwedLessOverpaid | internal/repository/finance_repository_extended.go:579-590 | whatever was paid how often, the debt is what is owed less what was paid beyond the invoices marked paid |
| ParkFees.PaymentKeepsDebtIff | internal/repository/finance_repository_extended.go:389-404 | marking an invoice paid keeps the debt equal to what is owed exactly when it was not paid before or its amount is zero |
| ParkFees.DebtIsWhatIsOwed | internal/repository/finance_repository_extended.go:287-432 | after any run that pays no invoice twice the debt is open accruals plus unpaid invoices, and not negative |
| ParkFees.DoublePaymentHidesDebt | internal/repository/finance_repository_extended.go:389-404 | a second payment takes its amount off a debt that is still owed |
| ParkFees.DoublePaymentHappens | internal/repository/finance_repository_extended.go:389-404 | the second payment goes through while other debt covers it |
| ParkMoney.ParkMoneyIsConserved | internal/repository/finance_repository.go:90-209 | after any run a park has earned the commissions of its settlements and been charged their fees, which the platform has with what was paid; each line repeats its settlement |
| ParkMoney.PayoutCreatedIff | internal/repository/finance_repository_extended.go:147-191 | a payout is created exactly for a positive amount that the account covers, and debits nothing |
| ParkMoney.PayoutApprovedIff | internal/repository/finance_repository_extended.go:193-195 | an unpaid payout of the park is approved, and only its status changes |
| ParkMoney.PayoutPaidIff | internal/repository/finance_repository_extended.go:197-238 | an unpaid payout is paid exactly if the account covers it still, and its amount leaves the account once, with a line |
| ParkMoney.InvoiceCreatedIff | internal/repository/finance_repository_extended.go:287-340 | a period is invoiced exactly once, for what is open in it; those accruals and no other line join the invoice |
| ParkMoney.InvoicePaidIff | internal/repository/finance_repository_extended.go:381-432 | an invoice is marked paid, whatever it was, exactly if both ledgers can take the payment, and each gets one line |

## Left out

- HTTP, authentication, push and WebSocket messages, logging, metrics and audit rows: sending is a no-op, and no step fails because of it.
- SQL isolation anomalies, crashes between steps, network errors and clock skew: a transaction is atomic, and a service call is one step except in `AcceptRace`, where a call is a sequence of commands.
- The look-up of the offer before the lock in `AcceptRace`: a call may begin without one, which only adds runs.
- Interleavings inside ProcessTask, timeouts and releases: the statements about offers and declined drivers hold between whole service calls.
- The dispatch state flags of internal/redis/dispatch_state_store.go: the service runs without a state store, as it may; a request refused by a flag is a step not taken, and in a recovery round `begun` says whether the flag lets the request through.
- PostGIS distance, car, document and park-activity predicates: the drivers in range, nearest first, are a parameter of a search, and `eligible` is a parameter of a bid. `eligible` likewise stands for the active park and the verified car when a driver comes online.
- Creation and editing of orders by passengers, parks and schedules: an order begins as a created row without driver or price. One that its repository inserts as searching is a created one that is enqueued at once.
- Reservations.ReachableIsConsistent: does not cover orders with a preassigned driver, which internal/repository/taxi_park_settings_repository.go:556-569 inserts and internal/repository/scheduled_order_repository.go:55-69 activates with a driver and without a park, or to which internal/repository/taxi_park_settings_repository.go:732-750 gives a driver before activation; the same holds of Reservations.ApplyKeeps, AcceptRace.AcceptRaceIsSafe and Invites.OrdersStayInTheirPark, so that park agreement and one active order per driver are proved for orders that got their driver through dispatch.
- DispatchWorker.Worker.RecoverSearchingOrders: is one piece, a round with nothing in between; what others do between the queries and calls of a round is in `Recovery`, whose beats are the worker's other methods.
- OrderTables.OrderTables.ListSearchingOrders: leaves the order of its answer, by last update, open, so that which of more than five hundred orders are listed is open too.
- Parts of a microsecond, in configured durations and in clock readings; Redis counts lifetimes in whole milliseconds, here an offer goes at its own date.
- The repository method TransitionOrderStatus of the dispatch side, which lets metered orders move while pending: its only caller, internal/order/service.go:74, is constructed nowhere in the program, and the driver's path is modelled. With it a turn of a lapsed order could fail after such a move too.
- Dispatch attempt counters, cancellation reasons, timestamps of trip stages, actual trip metrics and car ids of orders.
- ListDriverOffers of the dispatch service beyond its offer list: it adds prices that `GetCandidateFare` and `CalculateTripPrice` already give.
- Deleting rows: drivers, orders, tariffs and parks are only added and changed.
- The unique index on tariff priorities and the one on active orders: the first is not needed, the second is proved to hold for orders without a preassigned driver.
- Phone normalisation, names, cities, comments and verification details of invited drivers; the lookup of a driver by phone or user is a parameter.
- Permission checks of park owners: the park of the caller is a parameter.
- Balances from before the ledgers existed: the books open empty.
- Two ledger lines of one owner with equal timestamps: lines are in commit order.
- Currency: everything is in roubles.
- Source labels and creation times of settlements, which a repeated settlement reads back from the database.
- Refunds, adjustments, documents and reports of the finance service.
- Gzip and UTF-8 in the tile reader: it is given decompressed bytes, and names are bytes.
- Reasons for an unavailable estimate other than that no tariff is valid, and the comparison of quoted terms.
- WritePercent: does not model the text of a negative rate, because resolved rates are never negative.
- CreateOrderSettlement: asks for amounts and rates as the service computes them, its only caller.
