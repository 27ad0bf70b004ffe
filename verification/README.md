# A model of the warehouse robot fleet

The repository lets a fleet of robots work off the warehouse orders of an SAP EWM system. Several
controllers cooperate through custom resources of a Kubernetes cluster. This project models the
parts of them that decide something, and proves what their cooperation guarantees.

**The order auction.** An auctioneer asks for warehouse orders with an OrderReservation. The order
manager reserves orders in EWM for it. The auctioneer opens one OrderAuction per robot, robots bid,
the auctioneer chooses the winners, and the order manager assigns the orders and hands back the rest.

- `winners.dfy`: how the winners of an auction are chosen.
- `reservations.dfy`: the order manager's work on a reservation, over an abstract EWM in which an
  order is open, in process, assigned or done, and calls succeed, get lost, lose their answer or are refused.
- `reservation_results.dfy`: what that work comes to, said in terms of the answers of EWM.
- `auctioneer.dfy`, `auctioneer_controller.dfy`: one reconcile of an auctioneer, as a relation
  between states and as the loops of its controller.
- `reconcile_effects.dfy`: what a reconcile has to achieve, reservation by reservation.
- `protocol.dfy`, `exclusivity.dfy`, `capacity.dfy`: all of them together as a transition system;
  what holds in every reachable state.
- `first_auction.dfy`, `overload.dfy`: runs from an empty cluster that show what goes wrong without the
  conditions of these theorems.

**The robot.**

- `robot_config.dfy`: the transition table.
- `robot_machine.dfy`, `robot_controller.dfy`: handlers and trigger queue, as functions and as the
  controller object; one step is a callback from outside with every trigger it queues. Every call
  of a handler into the cluster may raise an error: then the handlers before it have had their
  effect, the others have none, and the triggers that wait are dropped.
- `robot_runs.dfy`, `robot_protocol.dfy`: what every run of a robot keeps, whichever calls raise, and
  the protocol of its confirmations.
- `robot_work.dfy`: the order of the robot's queue, what it works on next, and that it gets on with it.
- `robot_faults.dfy`: which raising calls can break that protocol, and runs in which they do.

**Bookkeeping.**

- `confirmations.dfy`: processing confirmations of warehouse tasks against EWM.
- `cr_cache.dfy`: the cache of custom resources.
- `missions.dfy`: running and resuming missions on a MiR robot.
- `travel.dfy`: the path cache, run times and bids.
- `type_strings.dfy`: printing and parsing the names of data classes.
- `retention.dfy`: what is kept of finished orders, confirmations and missions.
- `common.dfy`, `warehouse.dfy`: shared definitions, stable sorting, the custom resources.

Nondeterminism of the source is kept: orders in which maps are iterated are arbitrary, the robot
picked at random is any eligible one, and failing calls and writes are parameters. Object methods
are specified by functions on the object's fields; the lemmas are about those functions.

`dafny verify dfyconfig.toml` checks the whole project.

## Where the code differs from what one might expect

- A reservation that is refused because of its resource type is marked as failed but becomes accepted in
  the same callback when orders were found before; the return is missing
  (python-modules/robcoewmordermanager/robcoewmordermanager/manager.py:691-707).
  `FailedIff` says when a callback ends as failed.
- A callback that hands back only some orders leaves the others listed, and one whose status cannot be
  written leaves all of them listed. A callback keeps its held orders reserved exactly when it is not cut
  short between two hand-backs, or between a hand-back and writing the status (`HeldStaysReservedIff`, as a
  step `DeliverKeepsHeldIff`). `PartialReleaseHappens` and `UnwrittenReleaseHappens` are callbacks of
  either kind, and after any such callback another reservation may take an order that is still held
  (`OpenHeldReservesTwice`).
- After a robot lost a delivered order, a reservation may still list it. Taking an order from its robot
  keeps the lists apart exactly when no reservation in process lists it (`UnassignKeepsIff`);
  `LostOrderListedTwice` is a run that ends with two reservations listing one order.
- A delivered order that could not be sent to its robot is not sent again when the callback is repeated.
  A callback keeps the load of a robot exactly when every order that it assigns to it was sent, whether or
  not the status is written (`DeliverKeepsLoadIff`);
  `OneUnsentOrderOverloads` is a run in which one failing send gives a robot more orders than it may have.
- When the controller stops between launching a robot mission and recording it, the resumed mission
  launches the action again (`UnrecordedLaunchesTwice`). Over any number of restarts an action is launched
  twice exactly when such a stop is followed by another launch (`LaunchedTwiceIff`).
- The type string of an empty list can be printed but not parsed (`EmptyListFails`).
- Error counters are not reset when an order fails, so the next pickup may have fewer attempts. A state
  is left with its counter at zero exactly when it was not left for a failed mission (`LeftAtZeroIff`), and a
  pickup has all its attempts exactly when both its counters are zero (`FullBudgetIff`);
  `CounterOutlivesOrder` is a run after which an idle robot still counts a failed pickup.
- A call into the cluster that raises in a handler of the robot may leave a state that lacks its order, task
  or mission: `UnsetFinalizer`, `MissingMission`, `LoadsWithoutMission` and `FinishedStaysActive` are runs
  that show one case each. `WorkingStates` says exactly which raising calls do that. A robot left driving
  without a mission stays so whatever happens (`StuckForever`).
- The protocol of confirmations survives most raising calls. It can be broken later exactly after a
  call that raises while an order is closed, unless the robot is left driving without a mission, or
  after a confirmation was recorded although its call raised and another mission is still active, unless it
  was one more second confirmation error (`SafeRunsIff`, per callback `TaintsIffBreakable`). `EndedTwice` and
  `ConfirmedTwice` are runs of a fresh robot for either case.

## Model

| member | source | states |
|---|---|---|
| Winners.GetAuctionWinners | go/cmd/order-auctioneer/controller.go:747-872 | The assignments satisfy the complete promise of the selection: each robot and order once, only reserved orders and available robots of the auction, overdue orders served first by latest start date, every accepted bid settled |
| Winners.CollectBiddings | go/cmd/order-auctioneer/controller.go:763-790 | Collects exactly the accepted bids, in order, and the robots of the auction |
| Winners.CollectBiddingsOf | go/cmd/order-auctioneer/controller.go:769-789 | Of one auction resource the bids for reserved orders, none when its robot is unavailable |
| Winners.FindReservation | go/cmd/order-auctioneer/controller.go:775-781 | Finds whether the order of a bid is reserved |
| Winners.FindFreeBid | go/cmd/order-auctioneer/controller.go:812-831 | The first bid for an overdue order made by a robot without assignment |
| Winners.FindRandomRobot | go/cmd/order-auctioneer/controller.go:833-851 | Some available robot of the auction without assignment, unless there is none |
| Winners.AcceptedIs | go/cmd/order-auctioneer/controller.go:763-790 | A bid is accepted exactly when an available robot of the auction made it for a reserved order |
| Winners.Maximal | go/cmd/order-auctioneer/controller.go:747-872 | Every accepted bid touches an assigned robot or order |
| Winners.HalfOfOptimum | go/cmd/order-auctioneer/controller.go:747-872 | No matching of the accepted bids has more than twice as many orders |
| Winners.NoBlockingBid | go/cmd/order-auctioneer/controller.go:791-869 | A losing bid lost to the overdue phase or to a bid that was not higher |
| Winners.OverduePriority | go/cmd/order-auctioneer/controller.go:796-869 | An order that has a latest start date in the past and no robot means that all available robots are taken by such orders before it, with an earlier date or the same one |
| Winners.OverdueOnly | go/cmd/order-auctioneer/controller.go:796-831 | Only orders with a latest start date in the past are served before the bids |
| Winners.OverdueLowestBid | go/cmd/order-auctioneer/controller.go:810-831 | An overdue order goes to the lowest bid among the robots free at its turn |
| StableSorting.StableSortProps | go/cmd/order-auctioneer/controller.go:791-808 | The sorting used is sorted, a permutation, and keeps the order of equal keys |
| AuctionCycle.ClassifyAuction | go/cmd/order-auctioneer/controller.go:632-682 | The class of a reservation, also in terms of its status, its assignments, the fit of its auctions and the robots that may still bid |
| AuctionCycle.CloseKeepsInv | go/cmd/order-auctioneer/controller.go:704-740 | Closing an auction assigns orders to different robots of that auction, and touches nothing else |
| AuctionCycle.ZeroMeansFree | go/cmd/order-auctioneer/controller.go:874-913 | A robot whose counter is zero takes part in no uncompleted auction |
| AuctionCycle.CreateKeepsInv | go/cmd/order-auctioneer/controller.go:874-913 | Opening auctions invites only available robots with room and without running auction; counters do not undercount |
| AuctionCycle.RequestKeepsInv | go/cmd/order-auctioneer/controller.go:915-1001 | A request is made only when none of the same scope is pending |
| AuctionCycle.CompletionKeepsCount | go/cmd/order-auctioneer/controller.go:684-702 | Completing auctions, with any failed writes, leaves no counter below the number of uncompleted auctions |
| AuctionCycle.CleanupKeepsYoungest | go/cmd/order-auctioneer/controller.go:1003-1023 | The fifty youngest completed reservations are kept, others are left alone |
| AuctionCycle.ReconcileKeepsInv | go/cmd/order-auctioneer/controller.go:584-630 | A reconcile with any failed writes keeps one uncompleted auction per robot and one pending request per scope, requests only orders of the configured scope, invites only robots with room, and never takes back assignments |
| AuctioneerController.MapWarehouseOrders | go/cmd/order-auctioneer/controller.go:530-550 | Counts the running orders of each robot in scope |
| AuctioneerController.Auctioneer.CollectAuctions | go/cmd/order-auctioneer/controller.go:552-582 | Counts the uncompleted auctions of every robot |
| AuctioneerController.Auctioneer.ClassifyAuctions | go/cmd/order-auctioneer/controller.go:632-682 | Every reservation goes into the list of its class; the lists are also told by status, assignments, fit of auctions and robots that may still bid |
| AuctioneerController.Auctioneer.DoCompleteAuctions | go/cmd/order-auctioneer/controller.go:684-702 | Completes the auctions of finished reservations; counters move exactly with the uncompleted auctions |
| AuctioneerController.Auctioneer.DoCloseAuctions | go/cmd/order-auctioneer/controller.go:704-740 | Closes one auction after the other with its winners; without winners or after a failed write an auction stays open |
| AuctioneerController.Auctioneer.DoCreateAuctions | go/cmd/order-auctioneer/controller.go:874-913 | Opens auctions robot by robot, increasing the counters that later reservations see |
| AuctioneerController.Auctioneer.DoCreateReservations | go/cmd/order-auctioneer/controller.go:915-1001 | Requests orders or changes the quantity of a new request |
| AuctioneerController.Auctioneer.CleanupReservations | go/cmd/order-auctioneer/controller.go:1003-1023 | Deletes completed reservations beyond the fifty youngest |
| AuctioneerController.Auctioneer.DeleteReservations | go/cmd/order-auctioneer/controller.go:1025-1037 | Deletes reservations together with their auctions, except where the deletion fails |
| AuctioneerController.Auctioneer.Reconcile | go/cmd/order-auctioneer/controller.go:584-630 | The phases in their order are a reconcile in the sense of the protocol |
| ReconcileEffects.CompletesFinished | go/cmd/order-auctioneer/controller.go:684-702 | After a reconcile the auctions of a succeeded or timed-out reservation are completed, except where a write failed |
| ReconcileEffects.DeletesMismatched | go/cmd/order-auctioneer/controller.go:632-682 | A reservation without winners, one of whose auctions is for other orders than it has, is deleted together with its auctions, unless the deletion fails |
| ReconcileEffects.DecidesAuctions | go/cmd/order-auctioneer/controller.go:704-740 | When no robot may still bid, the reservation gets winners as the selection promises and its auctions are closed, except where writes fail |
| ReconcileEffects.OpensAuctions | go/cmd/order-auctioneer/controller.go:874-913 | A reservation without auctions gets one for each robot that is available, has room and takes part in no auction, with all its orders and its deadline less the buffer, except where creation fails; each robot gets one invitation |
| ReconcileEffects.RequestResult | go/cmd/order-auctioneer/controller.go:915-1001 | Without a pending request of its scope the auctioneer makes one exactly when some willing robot has fewer orders than the minimum, for three orders per willing robot or the minimum of an auction |
| ReconcileEffects.NoSecondRequest | go/cmd/order-auctioneer/controller.go:915-1001 | While a request of the scope is worked on no other one is made |
| ReconcileEffects.AdjustsQuantity | go/cmd/order-auctioneer/controller.go:915-1001 | A request that is still new gets the quantity that is needed now |
| ReconcileEffects.LeavesAlone | go/cmd/order-auctioneer/controller.go:632-682 | A reservation that is neither finished, mismatched, ready to be decided nor ready for auctions is left as it is with its auctions, but for the quantity of a request |
| ReservationManager.OrderManager.Process | python-modules/robcoewmordermanager/robcoewmordermanager/manager.py:754-879 | One callback on reserved orders: assignments, status and EWM after it |
| ReservationManager.OrderManager.ReleaseAll | python-modules/robcoewmordermanager/robcoewmordermanager/manager.py:829-846 | Hands back every order; trouble with one does not stop the others |
| ReservationResults.CallbackResult | python-modules/robcoewmordermanager/robcoewmordermanager/manager.py:754-879 | A callback with assignments succeeds exactly when no assignment and no hand-back ran into trouble; it records the assignments EWM confirmed, sends their robots all they have, hands back the rest only without trouble, and a refused or lost assignment is tried again |
| ReservationResults.TimeoutResult | python-modules/robcoewmordermanager/robcoewmordermanager/manager.py:821-879 | Without assignments nothing happens until the deadline; then every order is handed back, and the reservation times out exactly when all these calls work |
| ReservationManager.NothingReservedIsLost | python-modules/robcoewmordermanager/robcoewmordermanager/manager.py:754-879 | When a reservation succeeds each order was delivered or handed back, when it times out all were handed back, whatever failed before |
| ReservationManager.DeliveriesOnlyGrow | python-modules/robcoewmordermanager/robcoewmordermanager/manager.py:779-820 | Retries only add deliveries, taken from the assignments and in force in EWM |
| ReservationManager.HeldStaysReservedIff | python-modules/robcoewmordermanager/robcoewmordermanager/manager.py:754-879 | A callback, also one whose status cannot be written, keeps its held orders from being open exactly when it was not cut short between two hand-backs or between a hand-back and writing the status |
| ReservationManager.PartialReleaseHappens | python-modules/robcoewmordermanager/robcoewmordermanager/manager.py:829-846 | Two orders handed back, the second call lost: the reservation keeps both, one of them is open |
| ReservationManager.UnwrittenReleaseHappens | python-modules/robcoewmordermanager/robcoewmordermanager/manager.py:829-879 | An order handed back without any failing call, the timeout not written: the reservation keeps it, it is open |
| ReservationManager.GetReservedWarehouseOrders | python-modules/robcoewmordermanager/robcoewmordermanager/orderreservationcontroller.py:59-77 | The orders listed by reservations in process |
| ReservationManager.ReservedBy | python-modules/robcoewmordermanager/robcoewmordermanager/orderreservationcontroller.py:59-77 | An order is in the list exactly when a reservation in process lists it |
| ReservationManager.KeepUnreserved | python-modules/robcoewmordermanager/robcoewmordermanager/manager.py:674-681 | Keeps exactly the orders that no other reservation lists |
| ReservationManager.Reserve | python-modules/robcoewmordermanager/robcoewmordermanager/manager.py:645-717 | Reserving orders for a new request, with every answer of EWM |
| ReservationResults.ReserveResult | python-modules/robcoewmordermanager/robcoewmordermanager/manager.py:645-717 | The exact list: every order in process that no reservation lists, in their order, then every order handed out if those were too few; without a usable answer nothing changes |
| ReservationResults.FetchResult | python-modules/robcoewmordermanager/robcoewmordermanager/manager.py:719-752 | An accepted reservation goes on exactly when every order without tasks was answered; the others keep their tasks |
| ReservationManager.FailedIff | python-modules/robcoewmordermanager/robcoewmordermanager/manager.py:664-717 | Exactly when a callback ends in status failed |
| ReservationManager.FetchTasks | python-modules/robcoewmordermanager/robcoewmordermanager/manager.py:719-752 | Fetches the open tasks of orders that have none yet; all calls have to succeed |
| ReservationManager.FetchingKeepsOrders | python-modules/robcoewmordermanager/robcoewmordermanager/manager.py:719-752 | Fetching tasks does not change which orders are reserved |
| Protocol.StepKeepsStoreInv | python-modules/robcoewmordermanager/robcoewmordermanager/manager.py:625-638 | Callbacks of the order manager, bids and reconciles keep the consistency of reservations and auctions |
| Protocol.RunsKeepStoreInv | go/cmd/order-auctioneer/controller.go:584-630 | In every run with any failures: one uncompleted auction per robot, one pending request per auctioneer, assignments to different robots of the auction, deliveries only of assigned orders |
| Exclusivity.DeliverTouches | python-modules/robcoewmordermanager/robcoewmordermanager/manager.py:754-879 | A callback changes in EWM only orders that its reservation holds |
| Exclusivity.NewOrdersAreFree | python-modules/robcoewmordermanager/robcoewmordermanager/manager.py:674-707 | The orders of a request are held by nobody else |
| Exclusivity.DeliverKeepsHeldIff | python-modules/robcoewmordermanager/robcoewmordermanager/manager.py:754-879 | A step that delivers keeps held orders apart and reserved exactly when it leaves no held order open, also when its status is not written |
| Exclusivity.RunsHoldOrdersOnce | python-modules/robcoewmordermanager/robcoewmordermanager/manager.py:645-717 | In every run whose callbacks leave no held order open and in which held orders are left to their robots, no order is held by two reservations, and held orders are not open; answers of EWM may get lost and writes fail |
| Exclusivity.DeliverKeepsInProcessIff | python-modules/robcoewmordermanager/robcoewmordermanager/manager.py:779-879 | A step that delivers leaves a held order with a robot exactly when it does not record an assignment it made |
| Exclusivity.RunsHoldOrdersInProcess | python-modules/robcoewmordermanager/robcoewmordermanager/manager.py:779-820 | In every run whose callbacks leave no held order open and record every assignment made in EWM (answered and written), held orders are not with a robot either, whichever orders robots lose |
| Exclusivity.RunsListOrdersOnce | python-modules/robcoewmordermanager/robcoewmordermanager/orderreservationcontroller.py:59-77 | In every run whose callbacks leave no held order open and in which no listed order is taken from its robot, two reservations in process never list the same order |
| Exclusivity.OpenHeldReservesTwice | python-modules/robcoewmordermanager/robcoewmordermanager/manager.py:829-879 | After any callback that leaves a held order open every other new request may hold the same order |
| Exclusivity.UnassignKeepsIff | python-modules/robcoewmordermanager/robcoewmordermanager/orderreservationcontroller.py:59-77 | Taking an order from its robot keeps lists apart exactly when no reservation in process lists it |
| Exclusivity.UnassignListsTwice | python-modules/robcoewmordermanager/robcoewmordermanager/manager.py:674-707 | Otherwise any other request may list the order as well |
| Overload.LostOrderListedTwice | python-modules/robcoewmordermanager/robcoewmordermanager/manager.py:674-707 | A run from an empty cluster that ends with two reservations in process listing one order; only the step in which a robot loses it fails a condition |
| Capacity.DeliverKeepsLoadIff | python-modules/robcoewmordermanager/robcoewmordermanager/manager.py:779-820 | Whatever calls and writes fail, a callback keeps the load of a robot exactly when it sends every order that it assigns to it; otherwise the load falls |
| Capacity.ReconcileKeepsCapacity | go/cmd/order-auctioneer/controller.go:874-913 | A robot newly owed an order had room for it |
| Capacity.RunsStayWithinCapacity | go/cmd/order-auctioneer/controller.go:874-913 | In every run in which a callback sends the orders it assigns, whatever other calls and writes fail, running orders plus the one still to be won stay within the maximum of the robot |
| Overload.OneUnsentOrderOverloads | python-modules/robcoewmordermanager/robcoewmordermanager/manager.py:794-820 | A run from an empty cluster with one failing send: the order is skipped when the callback is repeated, the robot is invited again and ends with two orders although it may have one |
| RobotMachine.DrainShrinks | python-modules/robcoewmrobotcontroller/robcoewmrobotcontroller/statemachine.py:702-744 | Every trigger brings the queue closer to being empty, whatever calls raised before and whichever raises now |
| RobotMachine.Drain | python-modules/robcoewmrobotcontroller/robcoewmrobotcontroller/statemachine.py:83-134 | Working off the trigger queue always ends, in a machine whose moveTrolley states have an active order |
| RobotMachine.Callback | python-modules/robcoewmrobotcontroller/robcoewmrobotcontroller/statemachine.py:197-359 | Whatever calls raise, a callback leaves an active order in every moveTrolley state |
| RobotMachine.CallbackReadyIff | python-modules/robcoewmrobotcontroller/robcoewmrobotcontroller/statemachine.py:197-359 | From a consistent machine a callback raises no type error, and leaves a consistent one exactly when no call raised harmfully |
| RobotMachine.RaisedReadyIff | python-modules/robcoewmrobotcontroller/robcoewmrobotcontroller/statemachine.py:626-700 | A raising call leaves the machine consistent exactly when it neither adds nor removes a finalizer and no driving state is left without mission |
| RobotMachine.TriggerProceeds | python-modules/robcoewmtypes/robcoewmtypes/statemachine_config.py:92-276 | Every transition of the table leads from a consistent machine to a consistent one when its calls succeed |
| RobotController.RobotEWMMachine.MissionCb | python-modules/robcoewmrobotcontroller/robcoewmrobotcontroller/statemachine.py:197-220 | A finished mission is forgotten, then its trigger is worked off |
| RobotController.RobotEWMMachine.RobotCb | python-modules/robcoewmrobotcontroller/robcoewmrobotcontroller/statemachine.py:222-256 | Charging and taking up queued orders by battery level |
| RobotController.RobotEWMMachine.CfgRecoverCb | python-modules/robcoewmrobotcontroller/robcoewmrobotcontroller/statemachine.py:258-270 | Recovery from the error states |
| RobotController.RobotEWMMachine.CfgIdleChargeStatesCb | python-modules/robcoewmrobotcontroller/robcoewmrobotcontroller/statemachine.py:272-290 | Looking for work at the staging area, ending to charge |
| RobotController.RobotEWMMachine.WarehouseorderCb | python-modules/robcoewmrobotcontroller/robcoewmrobotcontroller/statemachine.py:292-320 | An order's resource is processed if it is the robot's, passes the precheck and is not known; a processed order ends the waiting for it, another is updated, and its spec is known from then on unless an error occurs |
| RobotController.WarehouseOrderPrecheck | python-modules/robcoewmrobotcontroller/robcoewmrobotcontroller/ordercontroller.py:47-88 | A resource passes exactly when the order manager worked off all the robot's confirmations and no warehouse task is listed as before its successful confirmation |
| RobotController.RobotEWMMachine.UpdateWarehouseorder | python-modules/robcoewmrobotcontroller/robcoewmrobotcontroller/statemachine.py:396-470 | Queueing an order, taking it up or replacing the active one, then working off what that triggers |
| RobotController.RobotEWMMachine.CheckAwaitedCompletion | python-modules/robcoewmrobotcontroller/robcoewmrobotcontroller/statemachine.py:343-350 | An order completed by others ends the waiting for it |
| RobotController.RobotEWMMachine.WarehouseorderDeletedCb | python-modules/robcoewmrobotcontroller/robcoewmrobotcontroller/statemachine.py:322-341 | A deleted order leaves the queue and is not waited for; its spec is forgotten unless an error occurs |
| RobotController.RobotEWMMachine.RunBefore | python-modules/robcoewmtypes/robcoewmtypes/statemachine_config.py:203-275 | The handlers of a transition in their order, up to the one whose call raises |
| RobotController.RobotEWMMachine.EnterState | python-modules/robcoewmrobotcontroller/robcoewmrobotcontroller/statemachine.py:906-1009 | What entering a state changes and which triggers it queues |
| RobotController.RobotEWMMachine.DecideWhatsNext | python-modules/robcoewmrobotcontroller/robcoewmrobotcontroller/statemachine.py:702-744 | Charges exactly when the battery is low, gives up after more than three failed orders in a row, and otherwise takes up the order with the least sequence of the queue, the earlier arrival among equals |
| RobotMachine.SeeksNext | python-modules/robcoewmrobotcontroller/robcoewmrobotcontroller/statemachine.py:702-744 | What a robot that looks for work does, as equivalences over battery, mode, failed orders and queue |
| RobotWork.IdleSeeksWork | python-modules/robcoewmrobotcontroller/robcoewmrobotcontroller/statemachine.py:906-917 | Whichever trigger leads to an idle state, the robot looks for work there |
| RobotWork.QueueIsSorted | python-modules/robcoewmrobotcontroller/robcoewmrobotcontroller/statemachine.py:372-378 | In every run, whichever calls raise, the queue is sorted by sequence and has every order once |
| RobotWork.FirstOrderIsTaken | python-modules/robcoewmrobotcontroller/robcoewmrobotcontroller/statemachine.py:702-744 | In every run, an order that is taken up because the robot looks for work or ends charging has the least sequence of the queue, and is the first one that has it |
| RobotWork.ArrivalOrderStays | python-modules/robcoewmrobotcontroller/robcoewmrobotcontroller/statemachine.py:396-470 | Two orders of the same sequence stay in the order in which they came |
| RobotWork.NewOrderIsTakenUp | python-modules/robcoewmrobotcontroller/robcoewmrobotcontroller/statemachine.py:396-470 | In mode Run a robot without work takes up an order as soon as it gets it |
| RobotWork.OrderCompletes | python-modules/robcoewmtypes/robcoewmtypes/statemachine_config.py:202-276 | While its missions succeed a robot brings all tasks of its order to their target bins, each with its two confirmations, and ends the order successfully |
| RobotWork.NewOrderCompletes | python-modules/robcoewmtypes/robcoewmtypes/statemachine_config.py:202-276 | So does a robot without work that gets an order |
| RobotWork.ChargedTakesUp | python-modules/robcoewmrobotcontroller/robcoewmrobotcontroller/statemachine.py:222-256 | A charging robot above the minimum of its battery takes up the first order of its queue |
| RobotWork.LowBatteryCharges | python-modules/robcoewmrobotcontroller/robcoewmrobotcontroller/statemachine.py:222-256 | A robot without work whose battery is low goes to charge |
| RobotWork.IdleGoesStaging | python-modules/robcoewmrobotcontroller/robcoewmrobotcontroller/statemachine.py:910-934 | An idle robot without work goes to the staging area after its time is up |
| RobotWork.FreedSeeksWork | python-modules/robcoewmrobotcontroller/robcoewmrobotcontroller/statemachine.py:258-290 | A robot that reached the staging area, ended charging or recovered looks for work |
| RobotWork.FailedPickup | python-modules/robcoewmtypes/robcoewmtypes/statemachine_config.py:213-252 | A failed pickup is retried while attempts are left, then its task is refused and its order ends without success |
| RobotWork.FailedReturn | python-modules/robcoewmtypes/robcoewmtypes/statemachine_config.py:213-252 | A failed return is retried while attempts are left, then its task is reported with an error and the robot waits for help |
| RobotWork.RecoveredGoesOn | python-modules/robcoewmrobotcontroller/robcoewmrobotcontroller/statemachine.py:258-270 | A robot that waited for recovery tries to bring its order to the target bin again |
| RobotWork.HelpedOrderEnds | python-modules/robcoewmrobotcontroller/robcoewmrobotcontroller/statemachine.py:322-350 | An order completed or deleted by others while the robot waits ends without success |
| RobotWork.FailuresCounted | python-modules/robcoewmrobotcontroller/robcoewmrobotcontroller/statemachine.py:884-904 | The count of failed orders grows with each failure and starts again from zero with a success or the error state of the robot |
| RobotWork.ActiveOrderRenewed | python-modules/robcoewmrobotcontroller/robcoewmrobotcontroller/statemachine.py:396-470 | An update replaces the active order, an update of another one does not touch it |
| RobotWork.IrrelevantIsIgnored | python-modules/robcoewmrobotcontroller/robcoewmrobotcontroller/statemachine.py:197-359 | Reports without an active mission, recovery without an error, and completions of other orders change nothing |
| RobotController.RobotEWMMachine.FireTrigger | python-modules/robcoewmtypes/robcoewmtypes/statemachine_config.py:92-276 | The first transition whose guard holds is executed; a rejected trigger changes nothing |
| RobotController.RobotEWMMachine.Process | python-modules/robcoewmrobotcontroller/robcoewmrobotcontroller/statemachine.py:93-97 | Triggers are worked off first in, first out, until an error empties the queue |
| RobotRuns.WorkingStates | python-modules/robcoewmrobotcontroller/robcoewmrobotcontroller/statemachine.py:526-572 | In every run: after all callbacks an order is active exactly in moveTrolley states, each with an active warehouse task, the driving ones with an active mission, if and only if no call raised harmfully; then no type error occurs |
| RobotRuns.WorkingWithoutErrors | python-modules/robcoewmrobotcontroller/robcoewmrobotcontroller/statemachine.py:526-572 | In particular in every run in which no call raises |
| RobotRuns.Reached | python-modules/robcoewmrobotcontroller/robcoewmrobotcontroller/statemachine.py:83-134 | In every run, whichever calls raise, a moveTrolley state has an active order |
| RobotRuns.UnsetFinalizer | python-modules/robcoewmrobotcontroller/robcoewmrobotcontroller/statemachine.py:600-611 | A finalizer that cannot be added leaves an idle robot with an active order |
| RobotRuns.MissingMission | python-modules/robcoewmrobotcontroller/robcoewmrobotcontroller/statemachine.py:805-813 | A mission that cannot be created leaves the robot driving without one |
| RobotRuns.UnsentConfirmation | python-modules/robcoewmrobotcontroller/robcoewmrobotcontroller/statemachine.py:197-220 | A first confirmation that cannot be sent leaves the robot loading without a mission |
| RobotRuns.KeptFinalizer | python-modules/robcoewmrobotcontroller/robcoewmrobotcontroller/statemachine.py:526-541 | A finalizer that cannot be removed leaves a finished order active, without a task |
| RobotRuns.StuckForever | python-modules/robcoewmrobotcontroller/robcoewmrobotcontroller/statemachine.py:197-359 | A robot driving without a mission never leaves its state again, whatever callbacks follow |
| RobotRuns.ErrorCountersBounded | python-modules/robcoewmrobotcontroller/robcoewmrobotcontroller/statemachine.py:750-758 | In every run, whichever calls raise, each error counter stays between zero and the maximum of retries |
| RobotRuns.TriggerCounts | python-modules/robcoewmrobotcontroller/robcoewmrobotcontroller/statemachine.py:177-183 | A failed mission raises the counter of its state up to the maximum, another trigger that leaves a state resets it |
| RobotRuns.LeftAtZeroIff | python-modules/robcoewmrobotcontroller/robcoewmrobotcontroller/statemachine.py:177-183 | A state is left with its counter at zero exactly when it was not left for a failed mission |
| RobotRuns.FullBudgetIff | python-modules/robcoewmrobotcontroller/robcoewmrobotcontroller/statemachine.py:750-758 | A pickup has all its attempts exactly when its two counters are zero |
| RobotRuns.CounterOutlivesOrder | python-modules/robcoewmrobotcontroller/robcoewmrobotcontroller/statemachine.py:750-758 | A run after which an idle robot still counts a failed pickup |
| RobotRuns.PickupStep | python-modules/robcoewmtypes/robcoewmtypes/statemachine_config.py:213-252 | During a pickup every finished mission uses up an attempt, unless something is confirmed or closed, whichever calls raise |
| RobotRuns.PickupEnds | python-modules/robcoewmtypes/robcoewmtypes/statemachine_config.py:213-252 | Whatever happens and whichever calls raise, at most the square of the maximum plus one missions finish before a pickup is confirmed or its order closed, fewer while a mission is running |
| RobotProtocol.TriggerKeeps | python-modules/robcoewmtypes/robcoewmtypes/statemachine_config.py:202-276 | Every transition follows the confirmation protocol, also when it ends with a type error |
| RobotProtocol.RaisedIsSoundIff | python-modules/robcoewmrobotcontroller/robcoewmrobotcontroller/statemachine.py:526-700 | A raising call leaves a log that follows the protocol exactly when it does not taint it: it taints when an order stays open that is logged as ended, or a confirmation is recorded that the robot does not know of, and the robot can still go on |
| RobotProtocol.StepIsSoundIff | python-modules/robcoewmrobotcontroller/robcoewmrobotcontroller/statemachine.py:197-359 | A callback leaves such a log exactly when none of its calls taints it, also in a robot that is driving without a mission |
| RobotProtocol.RunIsSoundIff | python-modules/robcoewmrobotcontroller/robcoewmrobotcontroller/statemachine.py:197-359 | In every run that leaves task lists alone, the log follows the protocol all the time exactly when no call taints it |
| RobotProtocol.SessionShape | python-modules/robcoewmrobotcontroller/robcoewmrobotcontroller/statemachine.py:626-700 | The protocol means: finished warehouse tasks in list order, each with one first success, any second errors and one second success; the current one in between or refused |
| RobotProtocol.OrdersFollowProtocol | python-modules/robcoewmrobotcontroller/robcoewmrobotcontroller/statemachine.py:884-904 | In every run that leaves task lists alone and in which no raise taints the log, the confirmations of an order have that shape, and it is logged successful exactly when all its warehouse tasks got both successes |
| RobotProtocol.ConfirmationsBelongToOrders | python-modules/robcoewmrobotcontroller/robcoewmrobotcontroller/statemachine.py:884-904 | In every such run each confirmation and each end belongs to an order that was started and not ended before |
| RobotFaults.TaintsIffBreakable | python-modules/robcoewmrobotcontroller/robcoewmrobotcontroller/statemachine.py:197-359 | Callbacks without raising calls can break the protocol after a callback exactly when a call of it tainted the log |
| RobotFaults.SafeRunsIff | python-modules/robcoewmrobotcontroller/robcoewmrobotcontroller/statemachine.py:197-359 | In every run that leaves task lists alone, such callbacks could break the protocol at no time exactly when no call tainted the log |
| RobotFaults.EndedTwice | python-modules/robcoewmrobotcontroller/robcoewmrobotcontroller/statemachine.py:526-541 | A run of a fresh robot: while removing the finalizer raises, an order completed by others is logged as ended, and again with the next callback |
| RobotFaults.ConfirmedTwice | python-modules/robcoewmrobotcontroller/robcoewmrobotcontroller/statemachine.py:626-684 | A run of a fresh robot: it recovers with its mission to the staging area active, the recorded refusal of a task raises, and the end of that mission confirms the task once more |
| RobotFaults.LoadsWithoutMission | python-modules/robcoewmrobotcontroller/robcoewmrobotcontroller/statemachine.py:197-220 | A run of a fresh robot that ends loading without a mission because a confirmation could not be sent |
| RobotFaults.FinishedStaysActive | python-modules/robcoewmrobotcontroller/robcoewmrobotcontroller/statemachine.py:526-541 | A run of a fresh robot that ends with a finished order active because its finalizer could not be removed |
| Confirmations.OrderStatus.ConfirmWht | python-modules/robcoewmrobotcontroller/robcoewmrobotcontroller/ordercontroller.py:91-107 | A confirmation is appended unless it was sent before |
| Confirmations.ConfirmationProcessor.ProcessConfirmation | python-modules/robcoewmordermanager/robcoewmordermanager/manager.py:560-590 | One confirmation: skipped, raised, or called in EWM, followed up and memorized |
| Confirmations.ConfirmationProcessor.CallEwm | python-modules/robcoewmordermanager/robcoewmordermanager/manager.py:308-368 | Which calls, of errors and successes, EWM works off and which take effect there |
| Confirmations.ConfirmationProcessor.ProcessWhoCr | python-modules/robcoewmordermanager/robcoewmordermanager/manager.py:526-590 | New confirmations in sequence up to the first one that stops the callback; everything due before it is done, nothing after it; the status counts as processed only without one |
| Confirmations.CallbackProgress | python-modules/robcoewmordermanager/robcoewmordermanager/manager.py:526-590 | A callback ends early exactly when a new confirmation has a failing read, a failing call on an open task, or a failing follow-up; all due calls and effects before that one were made, and none after it |
| Confirmations.FaultlessProgress | python-modules/robcoewmordermanager/robcoewmordermanager/manager.py:526-590 | Without faults every new confirmation is handled and settled, and every new success for an open task that is not confirmed yet takes effect |
| Confirmations.ConfirmationProcessor.GetWhoConfirmations | python-modules/robcoewmordermanager/robcoewmordermanager/manager.py:612-623 | The confirmations that are not recorded as processed |
| Confirmations.NewAre | python-modules/robcoewmordermanager/robcoewmordermanager/manager.py:612-623 | Recorded confirmations being a beginning of the log, the new ones are the rest of it |
| Confirmations.ProcessOneKeeps | python-modules/robcoewmordermanager/robcoewmordermanager/manager.py:285-404 | Processing the next confirmation or repeating one never disturbs what took effect |
| Confirmations.RunsConfirmInOrder | python-modules/robcoewmordermanager/robcoewmordermanager/manager.py:526-623 | In every run successes take effect in log order and once at most; the recorded status is a beginning of the log whose confirmations, errors and successes, EWM worked off unless their task was not open any more; none is worked off before all earlier ones are handled |
| CrCache.K8sCRHandler.RefreshCustomResourceCache | python-modules/k8scrhandler/k8scrhandler/k8scrhandler.py:306-321 | The cache is replaced by the listed resources |
| CrCache.K8sCRHandler.CacheCustomResource | python-modules/k8scrhandler/k8scrhandler/k8scrhandler.py:298-304 | A resource that was added or changed is in the cache with its new object, a deleted one is not, and the others are as before |
| CrCache.K8sCRHandler.WatchOnCrs | python-modules/k8scrhandler/k8scrhandler/k8scrhandler.py:358-411 | Every name whose changes were seen is in the cache exactly when the last of them did not delete it, with its object; other names are as before; an error of the server resets the position |
| CrCache.K8sCRHandler.InitWatcher | python-modules/k8scrhandler/k8scrhandler/k8scrhandler.py:440-467 | Starting over, cache and position are those of the list |
| CrCache.CacheConverges | python-modules/k8scrhandler/k8scrhandler/k8scrhandler.py:298-467 | However lists and events interleave, each name is in the cache as its last change up to the watcher's position left it, once that has reached the latest list; before, as its last change up to one of both did |
| CrCache.ServerAtIs | python-modules/k8scrhandler/k8scrhandler/k8scrhandler.py:298-304 | A resource is on the server exactly when it was changed and not deleted last, with the object of that change |
| Missions.MissionController.Run | python-modules/mircontroller/mircontroller/mission.py:228-340 | A mission whose resource was deleted is not started; otherwise runs the actions without queue id, watches all, ends with the first failure |
| Missions.MissionController.LaunchAction | python-modules/mircontroller/mircontroller/mission.py:342-374 | A launched action's queue id is appended and recorded |
| Missions.MissionController.WatchRunningMission | python-modules/mircontroller/mircontroller/mission.py:472-527 | The first report that is neither pending nor executing decides: success, failure or cancellation |
| Missions.WatchIs | python-modules/mircontroller/mircontroller/mission.py:472-527 | Which report decides, and which outcome each kind of report means, as equivalences |
| Missions.RunLaunchesRest | python-modules/mircontroller/mircontroller/mission.py:274-302 | From any recorded status the actions without queue id are launched in order, each once at most; all of them when the mission succeeds |
| Missions.SucceedsIff | python-modules/mircontroller/mircontroller/mission.py:228-340 | A mission succeeds exactly when it was started and the robot missions of all its actions succeeded |
| Missions.MissionEnds | python-modules/mircontroller/mircontroller/mission.py:228-340 | A started mission ends as its first action does that does not succeed, and the end is recorded |
| Missions.RestartsStayAligned | python-modules/mircontroller/mircontroller/mission.py:274-302 | After any restarts the queue id at position i is that of action i |
| Missions.RecordedIff | python-modules/mircontroller/mircontroller/mission.py:342-374 | After any restarts the robot has as many missions as queue ids are recorded exactly when no run stopped between creating a robot mission and recording it |
| Missions.LaunchedTwiceIff | python-modules/mircontroller/mircontroller/mission.py:274-470 | Over any restarts an action is launched twice exactly when a run stopped so and a later one launched something; until then all are launched in order |
| Missions.UnrecordedLaunchesTwice | python-modules/mircontroller/mircontroller/mission.py:353-372 | A launch that was not recorded is repeated |
| Travel.GetPosMaps | go/cmd/mir-travel-time-calculator/calculator.go:195-225 | The lookup tables of positions |
| Travel.PosMapsAgree | go/cmd/mir-travel-time-calculator/calculator.go:195-225 | The tables are inverse to each other up to names used twice, of which the first position counts |
| Travel.MirEstimator.CollectMirPaths | go/cmd/mir-travel-time-calculator/calculator.go:227-279 | Found paths leave the request and the queue; the request then holds the unknown paths |
| Travel.MirEstimator.PrecalculatePaths | go/cmd/mir-travel-time-calculator/calculator.go:281-374 | Exactly the paths whose precalculation was started or refused leave the queue |
| Travel.MirEstimator.ProcessCrAdded | go/cmd/mir-travel-time-calculator/calculator.go:117-193 | Requested paths with different ends are either known, before or after precalculation, or unknown; found paths and those whose precalculation was started or refused leave the queue; no final answer when the cache cannot be read |
| Travel.MirEstimator.UpdateCrWithResult | go/cmd/mir-travel-time-calculator/calculator.go:408-419 | Run times are the known paths in request order |
| Travel.RunTimesAre | go/cmd/mir-travel-time-calculator/calculator.go:408-419 | A run time is reported exactly for known requested paths |
| Travel.CachedTimeIs | go/cmd/mir-travel-time-calculator/calculator.go:227-279 | The time of a path is that of the first valid cache entry from its start to its goal |
| Travel.RequestedPaths | go/cmd/order-bid-agent/controller.go:232-252 | Each drive to the first task of an order is requested once |
| Travel.CollectEstimations | go/cmd/order-bid-agent/controller.go:192-207 | The run times by path |
| Travel.CloseBid | go/cmd/order-bid-agent/controller.go:359-390 | A bid is made for exactly the orders with tasks whose drive has a reported time, or no length, and has the value of that time |
| Travel.BidsAre | go/cmd/order-bid-agent/controller.go:359-390 | Every bid belongs to an order of the auction, in the order of the list, and has the value of its drive |
| Travel.BidsExactlyWhereKnown | go/cmd/order-bid-agent/controller.go:359-390 | End to end: a robot bids for an order exactly when the path cache has a valid entry for the drive to it, at first or after precalculation, or it stands at the source bin; the bid is the time of the first such entry, or one |
| TypeStrings.CreateRobcoewmtypeStr | python-modules/robcoewmtypes/robcoewmtypes/helper.py:27-73 | Printing one class or a list of distinct classes |
| TypeStrings.GetRobcoewmtype | python-modules/robcoewmtypes/robcoewmtypes/helper.py:76-174 | Parsing line by line between brackets |
| TypeStrings.ParseClassList | python-modules/robcoewmtypes/robcoewmtypes/helper.py:127-157 | Parsing a list of class names |
| TypeStrings.FirstOccurrences | python-modules/robcoewmtypes/robcoewmtypes/helper.py:38-47 | Printed classes are in the order of their first occurrence |
| TypeStrings.RoundTrip | python-modules/robcoewmtypes/robcoewmtypes/helper.py:27-174 | Parsing what was printed yields the list flag and the distinct classes in first-occurrence order |
| TypeStrings.ParsedIsNamed | python-modules/robcoewmtypes/robcoewmtypes/helper.py:76-174 | Whatever is parsed names exactly the parsed classes in their order; all are known ones of the package, a list begins with its keyword, several classes need a union |
| TypeStrings.EmptyListFails | python-modules/robcoewmtypes/robcoewmtypes/helper.py:49-59 | An empty list is printed as a string that cannot be parsed |
| Retention.OrderController.CleanupOrdersCb | python-modules/robcoewmordermanager/robcoewmordermanager/ordercontroller.py:64-120 | After a completed cleanup the latest fifty processed orders remain, no order is both processed and deleted |
| Retention.OrderController.OrderDeletedCb | python-modules/robcoewmordermanager/robcoewmordermanager/ordercontroller.py:240-246 | A deleted order is not processed any more |
| Retention.OrderController.CheckDeletedOrders | python-modules/robcoewmordermanager/robcoewmordermanager/ordercontroller.py:141-163 | Exactly the processed orders without resource become deleted ones |
| Retention.ProcessedMessageMemory.DeleteWhoFromMemory | python-modules/robcoewmordermanager/robcoewmordermanager/helper.py:61-70 | Only the oldest deleted orders beyond five hundred are forgotten |
| Retention.MissionController.UpdateMissionStatusCb | python-modules/robcoewmrobotcontroller/robcoewmrobotcontroller/missioncontroller.py:100-154 | At most nineteen finished missions remain, the youngest ones; unfinished missions are never touched; a failing deletion leaves the rest for the next call |
| Retention.MarkedCount | python-modules/robcoewmrobotcontroller/robcoewmrobotcontroller/missioncontroller.py:116-152 | Marking superfluous missions leaves nineteen finished ones |
| Retention.UpdatedIs | python-modules/robcoewmrobotcontroller/robcoewmrobotcontroller/missioncontroller.py:100-112 | A status update changes the status of its mission only, and no mission's place |

## Left out

- HTTP, OData and Kubernetes clients, authentication, metrics, logging and the user interface: the modelled calls succeed or fail as parameters say.
- A callback of the robot ends with its first error, and what the dispatcher does with the error is not modelled.
- Wall clock, sleeps, threads and locks: every callback or reconcile is one atomic step with a supplied time.
- Deleting a reservation removes its auctions in the same step; the background deletion of dependents is not modelled.
- Names of reservations: a name that still exists is not used again, as the cluster refuses it.
- Restarting the watcher at a newer version after "too old resource version", which skips changes.
- Which robots are in scope and available (`getRobotStates`) is an input of a reconcile.
- Orders requested by robots without an auction: orders reach robots only through auctions.
- Orders cancelled in EWM vanish as done orders; EWM never forgets an order.
- pickPackPass orders and their sub orders: their states are kept in the table without transitions leading there.
- The active order and its entry in the robot's queue are separate values; in the source they may be one object until the order is closed.
- Resuming a robot's state machine after a restart of its controller.
- The warehouse number of orders and tasks is part of their identifiers; a confirmation names its resource, warehouse task, number and type.
- Auctioneers do not share robots (`Scoped` in `ValidSetup`), and the names of robots are in lower case, as Kubernetes demands.
- Estimating a robot's start position, shuffling the orders before requesting paths, and the precalculation of paths on the robot: their results are inputs.
- Fetch and dummy mission controllers.
- Exceptions of the type string parser are one error, whatever their class.
- Changing the configuration of an auctioneer while it runs: its scope and limits are fixed during a run.
- ReservationResults.CallbackResult: assumes that a reservation lists each order once and assigns it once, which every step of the protocol keeps (`StepKeepsWellListed`, `RunsKeepStoreInv`).
- RobotProtocol.OrdersFollowProtocol: assumes that the warehouse tasks of an order have different numbers and that an update of the order in process keeps the numbers of its tasks, because the robot takes over any list; and that no call taints the log, because the protocol can be broken after every call that does (`SafeRunsIff`).
- Capacity.RunsStayWithinCapacity: assumes that an order which a callback assigns in EWM is sent to its robot by the same callback, because `OneUnsentOrderOverloads` exceeds the maximum otherwise.
