/**
 * No robot gets more orders than its auctioneer allows: the orders running on a robot, plus
 * one while an auction it takes part in may still bring it one, stay within the maximum.
 */
module Capacity {
  import opened Common
  import opened Warehouse
  import opened AuctionCycle
  import opened Protocol
  import M = ReservationManager

  /** EWM has assigned an order to the robot as the auctioneer decided, recorded as delivered or not. */
  ghost predicate Stands(todo: seq<OrderAssignment>, ewm: M.Ewm, r: Robot) {
    exists a :: a in todo && a.rsrc == Upper(r) && M.Holds(ewm, a)
  }

  /** The reservation may still bring the robot an order. */
  ghost predicate WaitsFor(delivered: seq<OrderAssignment>, todo: seq<OrderAssignment>, ewm: M.Ewm, r: Robot) {
    (forall a :: a in delivered ==> a.rsrc != Upper(r)) && !Stands(todo, ewm, r)
  }

  ghost predicate StillWaits(res: Reservation, ewm: M.Ewm, r: Robot) {
    WaitsFor(res.delivered, res.assignments, ewm, r)
  }

  /** The robot takes part in an uncompleted auction that may still bring it an order. */
  ghost predicate Owed(s: State, r: Robot) {
    exists k :: k in s.store.auctions && k.robot == r && s.store.auctions[k].status != AuctionCompleted
                && k.res in s.store.reservations && StillWaits(s.store.reservations[k.res], s.ewm, r)
  }

  ghost function Load(s: State, r: Robot): nat {
    |RunningOn(s.running, r)| + if Owed(s, r) then 1 else 0
  }

  /** Exactly the orders assigned in EWM are running, on the robot that EWM assigned them to. */
  ghost predicate Synced(ewm: M.Ewm, running: map<Ident, Robot>) {
    && (forall id :: id in running ==>
        LowerName(running[id]) && id in ewm && ewm[id] == M.AssignedTo(Upper(running[id])))
    && (forall id :: id in ewm && ewm[id].AssignedTo? ==> id in running)
  }

  ghost predicate WithinCapacity(setup: Setup, s: State) {
    forall o, r :: o in setup.fleet && o in setup.configs && r in setup.fleet[o] ==>
        Load(s, r) <= setup.configs[o].maxOrders
  }

  ghost predicate CapacityInv(setup: Setup, s: State) {
    StoreInv(setup, s) && Synced(s.ewm, s.running) && WithinCapacity(setup, s)
  }

  /** Every order that a callback assigns in EWM is sent to its robot by the same callback. */
  ghost predicate AtomicSend(s: State, step: Step) {
    step.Deliver? && step.name in s.store.reservations ==>
      var res := s.store.reservations[step.name];
      SendsAll(M.TraceOf(res, s.ewm, s.running, step.faults), res.assignments, step.faults)
  }

  ghost predicate SendsAll(trace: seq<M.Work>, todo: seq<OrderAssignment>, faults: M.CallbackFaults) {
    forall j: nat :: M.AssignsAt(trace, todo, faults, j) ==>
      M.FaultAt(faults.assign, j) == M.Fine && M.FaultAt(faults.send, j) == M.Fine
  }

  lemma UpperInjective(q: Robot, r: Robot)
    requires LowerName(q) && LowerName(r) && Upper(q) == Upper(r)
    ensures q == r
  {
    LowerUpper(q);
    LowerUpper(r);
  }

  /* ---------- Delivering ---------- */

  function Count(b: bool): nat {
    if b then 1 else 0
  }

  /** The orders running on the robot, and the one it waits for, as far as deliveries were recorded at the start. */
  ghost function WorkLoad(w: M.Work, delivered: seq<OrderAssignment>, todo: seq<OrderAssignment>, r: Robot): nat {
    |RunningOn(w.running, r)| + Count(WaitsFor(delivered, todo, w.ewm, r))
  }

  /** The assignments go to resources of robots. */
  ghost predicate ForRobots(todo: seq<OrderAssignment>) {
    forall a :: a in todo ==> LowerName(Lower(a.rsrc)) && Upper(Lower(a.rsrc)) == a.rsrc
  }

  /** Running orders are where EWM assigned them; orders of the first i assignments may be missing. */
  ghost predicate PartSynced(w: M.Work, todo: seq<OrderAssignment>, i: nat)
    requires i <= |todo|
  {
    && (forall id :: id in w.running ==>
          LowerName(w.running[id]) && id in w.ewm && w.ewm[id] == M.AssignedTo(Upper(w.running[id])))
    && (forall id :: id in w.ewm && w.ewm[id].AssignedTo? && id !in w.running ==>
          exists j :: 0 <= j < i && todo[j] == OrderAssignment(id, w.ewm[id].rsrc))
    && (forall a :: a in w.delivered ==> a in todo)
  }

  /** Sending a robot all its orders only adds the new one to those it has already. */
  lemma SentAddsOne(w: M.Work, todo: seq<OrderAssignment>, i: nat, q: Robot)
    requires i < |todo| && PartSynced(w, todo, i) && DifferentResources(todo)
    requires LowerName(q) && todo[i].rsrc == Upper(q) && M.Assignable(w.ewm, todo[i].id)
    ensures M.Sent(w.ewm[todo[i].id := M.AssignedTo(Upper(q))], w.running, Upper(q)) == w.running[todo[i].id := q]
    ensures todo[i].id !in w.running
  {
    assert forall j :: 0 <= j < i ==> todo[j].rsrc != todo[i].rsrc;
    forall x | x in w.ewm && w.ewm[x] == M.AssignedTo(Upper(q)) ensures x in w.running && w.running[x] == q {
      if x in w.running {
        UpperInjective(w.running[x], q);
      }
    }
    LowerUpper(q);
    SentAgain(w.ewm, w.running, todo[i].id, Upper(q), q);
  }

  lemma SentAgain(ewm: M.Ewm, running: map<Ident, Robot>, id: Ident, rsrc: string, q: Robot)
    requires Lower(rsrc) == q && forall x :: x in ewm && ewm[x] == M.AssignedTo(rsrc) ==>
               x in running && running[x] == q
    ensures M.Sent(ewm[id := M.AssignedTo(rsrc)], running, rsrc) == running[id := q]
  {
  }

  lemma RunningAppend(running: map<Ident, Robot>, id: Ident, q: Robot, r: Robot)
    requires id !in running
    ensures |RunningOn(running[id := q], r)| == |RunningOn(running, r)| + Count(r == q)
  {
    assert RunningOn(running[id := q], r) == RunningOn(running, r) + if r == q then {id} else {};
  }

  /** A robot waits until its order is assigned; then it does not wait any more. */
  lemma AssignmentWaits(delivered: seq<OrderAssignment>, todo: seq<OrderAssignment>, i: nat, ewm: M.Ewm, r: Robot)
    requires i < |todo| && DifferentResources(todo) && M.Assignable(ewm, todo[i].id) && todo[i] !in delivered
    requires forall a :: a in delivered ==> a in todo
    ensures var after := ewm[todo[i].id := M.AssignedTo(todo[i].rsrc)];
      && (todo[i].rsrc == Upper(r) ==> WaitsFor(delivered, todo, ewm, r) && !WaitsFor(delivered, todo, after, r))
      && (todo[i].rsrc != Upper(r) ==> (WaitsFor(delivered, todo, after, r) <==> WaitsFor(delivered, todo, ewm, r)))
  {
    var after, a := ewm[todo[i].id := M.AssignedTo(todo[i].rsrc)], todo[i];
    assert a in todo && M.Holds(after, a) && !M.Holds(ewm, a);
    forall b | b in todo && b != a ensures b.id != a.id && b.rsrc != a.rsrc {
      var j :| 0 <= j < |todo| && todo[j] == b;
    }
  }

  /** The assignment gives the robot an order that does not reach it. */
  predicate NotSent(w: M.Work, a: OrderAssignment, f: M.Fault, g: M.Fault, r: Robot) {
    M.Assigns(w, a, f) && !(f == M.Fine && g == M.Fine) && a.rsrc == Upper(r)
  }

  /** An assigned order is missing among the running ones until it was sent. */
  lemma AssignedPartSynced(w: M.Work, todo: seq<OrderAssignment>, i: nat, delivered: seq<OrderAssignment>,
                           reserved: seq<Ident>, retry: bool)
    requires i < |todo| && PartSynced(w, todo, i) && M.Assignable(w.ewm, todo[i].id)
    requires forall a :: a in delivered ==> a in todo
    ensures PartSynced(M.Work(w.ewm[todo[i].id := M.AssignedTo(todo[i].rsrc)], w.running, reserved, delivered, retry),
                       todo, i + 1)
    ensures todo[i].id !in w.running
  {
    assert todo[i] == OrderAssignment(todo[i].id, todo[i].rsrc);
  }

  lemma SentPartSynced(w: M.Work, running: map<Ident, Robot>, todo: seq<OrderAssignment>, i: nat, a: OrderAssignment,
                       q: Robot)
    requires i <= |todo| && PartSynced(w, todo, i) && a.id in w.ewm && w.ewm[a.id] == M.AssignedTo(Upper(q))
    requires LowerName(q) && running == w.running[a.id := q]
    ensures PartSynced(w.(running := running), todo, i)
  {
  }

  /** What making an assignment changes; only a sent order is running. */
  lemma AssignmentIs(w: M.Work, v: M.Work, todo: seq<OrderAssignment>, i: nat, f: M.Fault, g: M.Fault, q: Robot)
    requires i < |todo| && PartSynced(w, todo, i) && DifferentResources(todo)
    requires M.Assigns(w, todo[i], f) && v == M.AssignStep(w, todo[i], f, g)
    requires LowerName(q) && todo[i].rsrc == Upper(q)
    ensures v.ewm == w.ewm[todo[i].id := M.AssignedTo(todo[i].rsrc)] && todo[i].id !in w.running
    ensures v.running == if f == M.Fine && g == M.Fine then w.running[todo[i].id := q] else w.running
    ensures forall a :: a in v.delivered ==> a in todo
  {
    SentAddsOne(w, todo, i, q);
  }

  lemma AssignmentLoad(w: M.Work, v: M.Work, delivered: seq<OrderAssignment>, todo: seq<OrderAssignment>, i: nat,
                       f: M.Fault, g: M.Fault, r: Robot)
    requires i < |todo| && PartSynced(w, todo, i) && ForRobots(todo) && DifferentResources(todo) && LowerName(r)
    requires v == M.AssignStep(w, todo[i], f, g) && M.Assigns(w, todo[i], f)
    requires forall a :: a in delivered ==> a in w.delivered
    ensures PartSynced(v, todo, i + 1)
    ensures WorkLoad(v, delivered, todo, r) + Count(NotSent(w, todo[i], f, g, r)) == WorkLoad(w, delivered, todo, r)
  {
    var a := todo[i];
    var q := Lower(a.rsrc);
    assert a in todo;
    AssignmentIs(w, v, todo, i, f, g, q);
    AssignedPartSynced(w, todo, i, v.delivered, v.reserved, v.retry);
    if f == M.Fine && g == M.Fine {
      SentPartSynced(v.(running := w.running), v.running, todo, i + 1, a, q);
    }
    AssignmentWaits(delivered, todo, i, w.ewm, r);
    RunningAppend(w.running, a.id, q, r);
    if a.rsrc == Upper(r) {
      UpperInjective(q, r);
    }
  }

  /** One assignment: the load of its robot falls by one when the order is assigned but not sent. */
  lemma AssignStepLoad(w: M.Work, v: M.Work, delivered: seq<OrderAssignment>, todo: seq<OrderAssignment>, i: nat,
                       f: M.Fault, g: M.Fault, r: Robot)
    requires i < |todo| && PartSynced(w, todo, i) && ForRobots(todo) && DifferentResources(todo) && LowerName(r)
    requires v == M.AssignStep(w, todo[i], f, g) && forall a :: a in delivered ==> a in w.delivered
    ensures PartSynced(v, todo, i + 1) && forall a :: a in delivered ==> a in v.delivered
    ensures WorkLoad(v, delivered, todo, r) + Count(NotSent(w, todo[i], f, g, r)) == WorkLoad(w, delivered, todo, r)
  {
    if M.Assigns(w, todo[i], f) {
      AssignmentLoad(w, v, delivered, todo, i, f, g, r);
    } else {
      NothingAssigned(w, v, todo[i], f, g);
      LaterPartSynced(w, todo, i, v.reserved, v.retry);
    }
  }

  lemma NothingAssigned(w: M.Work, v: M.Work, a: OrderAssignment, f: M.Fault, g: M.Fault)
    requires !M.Assigns(w, a, f) && v == M.AssignStep(w, a, f, g)
    ensures v == w.(reserved := v.reserved, retry := v.retry)
  {
  }

  lemma LaterPartSynced(w: M.Work, todo: seq<OrderAssignment>, i: nat, reserved: seq<Ident>, retry: bool)
    requires i < |todo| && PartSynced(w, todo, i)
    ensures PartSynced(w.(reserved := reserved, retry := retry), todo, i + 1)
  {
  }

  function CountOf(p: nat -> bool, i: nat): nat {
    if i == 0 then 0 else CountOf(p, i - 1) + Count(p(i - 1))
  }

  lemma {:induction false} CountOfIff(p: nat -> bool, i: nat)
    ensures CountOf(p, i) == 0 <==> forall j :: 0 <= j < i ==> !p(j)
  {
    if i > 0 {
      CountOfIff(p, i - 1);
    }
  }

  /** Assignment j gives the robot an order that does not reach it. */
  predicate Unsent(trace: seq<M.Work>, todo: seq<OrderAssignment>, faults: M.CallbackFaults, r: Robot, j: nat) {
    j < |todo| && j < |trace| && NotSent(trace[j], todo[j], M.FaultAt(faults.assign, j), M.FaultAt(faults.send, j), r)
  }

  function UnsentAt(trace: seq<M.Work>, todo: seq<OrderAssignment>, faults: M.CallbackFaults, r: Robot): nat -> bool {
    (j: nat) => Unsent(trace, todo, faults, r, j)
  }

  lemma NextLoad(trace: seq<M.Work>, todo: seq<OrderAssignment>, faults: M.CallbackFaults, i: nat, r: Robot)
    requires i < |todo| && M.Traces(trace, todo, faults) && PartSynced(trace[i], todo, i)
    requires ForRobots(todo) && DifferentResources(todo) && LowerName(r)
    requires forall a :: a in trace[0].delivered ==> a in trace[i].delivered
    ensures PartSynced(trace[i + 1], todo, i + 1) && forall a :: a in trace[0].delivered ==> a in trace[i + 1].delivered
    ensures WorkLoad(trace[i + 1], trace[0].delivered, todo, r) + Count(UnsentAt(trace, todo, faults, r)(i))
            == WorkLoad(trace[i], trace[0].delivered, todo, r)
  {
    AssignStepLoad(trace[i], trace[i + 1], trace[0].delivered, todo, i, M.FaultAt(faults.assign, i),
                   M.FaultAt(faults.send, i), r);
  }

  lemma {:induction false} PartSyncedAt(trace: seq<M.Work>, todo: seq<OrderAssignment>, faults: M.CallbackFaults,
                                        i: nat)
    requires i <= |todo| && M.Traces(trace, todo, faults) && PartSynced(trace[0], todo, 0)
    requires ForRobots(todo) && DifferentResources(todo)
    ensures PartSynced(trace[i], todo, i) && forall a :: a in trace[0].delivered ==> a in trace[i].delivered
  {
    if i > 0 {
      PartSyncedAt(trace, todo, faults, i - 1);
      LowerUpper("");
      NextLoad(trace, todo, faults, i - 1, "");
    }
  }

  lemma {:induction false} CountsDown(loads: seq<nat>, p: nat -> bool, i: nat)
    requires i < |loads| && forall j :: 0 <= j < i ==> loads[j + 1] + Count(p(j)) == loads[j]
    ensures loads[i] + CountOf(p, i) == loads[0]
  {
    if i > 0 {
      CountsDown(loads, p, i - 1);
    }
  }

  /** The load of the robot after all assignments is lower by the orders that were not sent. */
  lemma AssignLoad(trace: seq<M.Work>, todo: seq<OrderAssignment>, faults: M.CallbackFaults, r: Robot)
    requires M.Traces(trace, todo, faults) && PartSynced(trace[0], todo, 0)
    requires ForRobots(todo) && DifferentResources(todo) && LowerName(r)
    ensures PartSynced(trace[|todo|], todo, |todo|)
    ensures WorkLoad(trace[|todo|], trace[0].delivered, todo, r) + CountOf(UnsentAt(trace, todo, faults, r), |todo|)
            == WorkLoad(trace[0], trace[0].delivered, todo, r)
  {
    PartSyncedAt(trace, todo, faults, |todo|);
    var loads := seq(|trace|, i requires 0 <= i < |trace| => WorkLoad(trace[i], trace[0].delivered, todo, r));
    var p := UnsentAt(trace, todo, faults, r);
    forall j | 0 <= j < |todo| ensures loads[j + 1] + Count(p(j)) == loads[j] {
      PartSyncedAt(trace, todo, faults, j);
      NextLoad(trace, todo, faults, j, r);
    }
    CountsDown(loads, p, |todo|);
  }

  lemma {:induction false} AssignSyncs(trace: seq<M.Work>, todo: seq<OrderAssignment>, faults: M.CallbackFaults, i: nat)
    requires i <= |todo| && M.Traces(trace, todo, faults) && PartSynced(trace[0], todo, 0) && ForRobots(todo)
    requires DifferentResources(todo) && SendsAll(trace, todo, faults) && Synced(trace[0].ewm, trace[0].running)
    ensures Synced(trace[i].ewm, trace[i].running)
  {
    if i > 0 {
      AssignSyncs(trace, todo, faults, i - 1);
      PartSyncedAt(trace, todo, faults, i - 1);
      assert M.Assigns(trace[i - 1], todo[i - 1], M.FaultAt(faults.assign, i - 1)) ==>
        M.AssignsAt(trace, todo, faults, i - 1);
      NextSyncs(trace[i - 1], trace[i], todo, i - 1, M.FaultAt(faults.assign, i - 1), M.FaultAt(faults.send, i - 1));
    }
  }

  lemma NextSyncs(v: M.Work, u: M.Work, todo: seq<OrderAssignment>, i: nat, f: M.Fault, g: M.Fault)
    requires i < |todo| && PartSynced(v, todo, i) && ForRobots(todo) && DifferentResources(todo)
    requires M.Assigns(v, todo[i], f) ==> f == M.Fine && g == M.Fine
    requires u == M.AssignStep(v, todo[i], f, g) && Synced(v.ewm, v.running)
    ensures Synced(u.ewm, u.running)
  {
    if M.Assigns(v, todo[i], f) {
      assert todo[i] in todo;
      AssignmentIs(v, u, todo, i, f, g, Lower(todo[i].rsrc));
    }
  }

  /** Handing back orders concerns none that is assigned. */
  lemma {:induction false} ReleaseKeepsSynced(ewm: M.Ewm, running: map<Ident, Robot>, ids: seq<Ident>,
                                              faults: seq<M.Fault>, i: nat)
    requires i <= |ids| && Synced(ewm, running)
    ensures Synced(M.ReleaseUpTo(ewm, ids, faults, i), running)
  {
    if i > 0 {
      ReleaseKeepsSynced(ewm, running, ids, faults, i - 1);
    }
  }

  lemma {:induction false} ReleaseKeepsHolds(ewm: M.Ewm, ids: seq<Ident>, faults: seq<M.Fault>, i: nat,
                                             a: OrderAssignment)
    requires i <= |ids|
    ensures M.Holds(M.ReleaseUpTo(ewm, ids, faults, i), a) <==> M.Holds(ewm, a)
  {
    if i > 0 {
      ReleaseKeepsHolds(ewm, ids, faults, i - 1, a);
    }
  }

  /** What the callback assigned stands when it is over. */
  lemma HoldsAfterLoop(res: Reservation, ewm: M.Ewm, running: map<Ident, Robot>, now: int, faults: M.CallbackFaults)
    requires res.status == Reservations
    ensures var o := M.ProcessReservations(res, ewm, running, now, faults);
      var v := M.TraceOf(res, ewm, running, faults)[|res.assignments|];
      o.running == v.running && forall a :: M.Holds(o.ewm, a) <==> M.Holds(v.ewm, a)
  {
    var o := M.ProcessReservations(res, ewm, running, now, faults);
    var v := M.TraceOf(res, ewm, running, faults)[|res.assignments|];
    forall a ensures M.Holds(o.ewm, a) <==> M.Holds(v.ewm, a) {
      ReleaseKeepsHolds(v.ewm, v.reserved, faults.release, |v.reserved|, a);
      ReleaseKeepsHolds(ewm, M.Idents(res.whos), faults.release, |res.whos|, a);
    }
  }

  /** How many orders the callback assigns to the robot without sending them. */
  function UnsentOf(res: Reservation, ewm: M.Ewm, running: map<Ident, Robot>, faults: M.CallbackFaults, r: Robot): nat {
    CountOf(UnsentAt(M.TraceOf(res, ewm, running, faults), res.assignments, faults, r), |res.assignments|)
  }

  lemma DeliverLoad(res: Reservation, ewm: M.Ewm, running: map<Ident, Robot>, now: int, faults: M.CallbackFaults,
                    r: Robot)
    requires res.status == Reservations && Synced(ewm, running) && LowerName(r)
    requires ForRobots(res.assignments) && DifferentResources(res.assignments)
    requires forall a :: a in res.delivered ==> a in res.assignments
    ensures var o := M.ProcessReservations(res, ewm, running, now, faults);
      |RunningOn(o.running, r)| + Count(StillWaits(res, o.ewm, r)) + UnsentOf(res, ewm, running, faults, r)
      == |RunningOn(running, r)| + Count(StillWaits(res, ewm, r))
  {
    var trace, n := M.TraceOf(res, ewm, running, faults), |res.assignments|;
    AssignLoad(trace, res.assignments, faults, r);
    HoldsAfterLoop(res, ewm, running, now, faults);
    var o := M.ProcessReservations(res, ewm, running, now, faults);
    SameWaits(res.delivered, res.assignments, o.ewm, trace[n].ewm, r);
  }

  lemma SameWaits(delivered: seq<OrderAssignment>, todo: seq<OrderAssignment>, e: M.Ewm, f: M.Ewm, r: Robot)
    requires forall a :: a in todo && a.rsrc == Upper(r) ==> (M.Holds(e, a) <==> M.Holds(f, a))
    ensures WaitsFor(delivered, todo, e, r) <==> WaitsFor(delivered, todo, f, r)
  {
  }

  /** Whether the status is written does not matter to the robot: a new delivery stands in EWM. */
  lemma WritingKeepsWaits(res: Reservation, ewm: M.Ewm, running: map<Ident, Robot>, now: int, faults: M.CallbackFaults,
                          r: Robot)
    requires res.status == Reservations
    ensures var o := M.ProcessReservations(res, ewm, running, now, faults);
      StillWaits(o.res, o.ewm, r) <==> StillWaits(res, o.ewm, r)
  {
    var o := M.ProcessReservations(res, ewm, running, now, faults);
    M.DeliveriesOnlyGrow(res, ewm, running, now, faults);
    if StillWaits(res, o.ewm, r) {
      forall a | a in o.res.delivered ensures a.rsrc != Upper(r) {
        var k :| 0 <= k < |o.res.delivered| && o.res.delivered[k] == a;
        if k < |res.delivered| {
          assert a in res.delivered;
        } else {
          assert M.Holds(o.ewm, a);
        }
      }
    }
  }

  lemma DeliverSyncs(res: Reservation, ewm: M.Ewm, running: map<Ident, Robot>, now: int, faults: M.CallbackFaults)
    requires res.status == Reservations && Synced(ewm, running)
    requires ForRobots(res.assignments) && DifferentResources(res.assignments)
    requires forall a :: a in res.delivered ==> a in res.assignments
    requires SendsAll(M.TraceOf(res, ewm, running, faults), res.assignments, faults)
    ensures var o := M.ProcessReservations(res, ewm, running, now, faults);
      Synced(o.ewm, o.running)
  {
    var trace := M.TraceOf(res, ewm, running, faults);
    AssignSyncs(trace, res.assignments, faults, |res.assignments|);
    var v := trace[|res.assignments|];
    ReleaseKeepsSynced(v.ewm, v.running, v.reserved, faults.release, |v.reserved|);
    ReleaseKeepsSynced(ewm, running, M.Idents(res.whos), faults.release, |res.whos|);
  }

  /** The only uncompleted auction of a robot decides whether it is owed an order. */
  lemma OwedBy(s: State, k: Key)
    requires OneAuctionPerRobot(s.store) && k in s.store.auctions && s.store.auctions[k].status != AuctionCompleted
    requires k.res in s.store.reservations
    ensures Owed(s, k.robot) <==> StillWaits(s.store.reservations[k.res], s.ewm, k.robot)
  {
  }

  lemma AssignmentsForRobots(s: Store, fleet: Fleet, n: string)
    requires Inv(s, fleet) && n in s.reservations
    ensures ForRobots(s.reservations[n].assignments)
  {
    forall a | a in s.reservations[n].assignments ensures LowerName(Lower(a.rsrc)) && Upper(Lower(a.rsrc)) == a.rsrc {
      assert ForParticipant(s, n, a);
      var k :| k in s.auctions && k.res == n && Upper(k.robot) == a.rsrc;
      LowerUpper(k.robot);
    }
  }

  /** Robots outside the auction of a reservation get nothing from it. */
  lemma OthersGetNothing(s: Store, fleet: Fleet, n: string, r: Robot, a: OrderAssignment)
    requires Inv(s, fleet) && n in s.reservations && LowerName(r) && a in s.reservations[n].assignments
    requires a.rsrc == Upper(r)
    ensures Key(n, r) in s.auctions
  {
    assert ForParticipant(s, n, a);
    var k :| k in s.auctions && k.res == n && Upper(k.robot) == a.rsrc;
    UpperInjective(k.robot, r);
  }

  /** The callback sends the robot every order that it assigns to it. */
  ghost predicate SendsTo(s: State, step: Step, r: Robot)
    requires step.Deliver? && step.name in s.store.reservations
  {
    var res := s.store.reservations[step.name];
    var trace := M.TraceOf(res, s.ewm, s.running, step.faults);
    forall j :: 0 <= j < |res.assignments| ==> !Unsent(trace, res.assignments, step.faults, r, j)
  }

  lemma SendsToIff(s: State, step: Step, r: Robot)
    requires step.Deliver? && step.name in s.store.reservations
    ensures SendsTo(s, step, r) <==> UnsentOf(s.store.reservations[step.name], s.ewm, s.running, step.faults, r) == 0
  {
    var res := s.store.reservations[step.name];
    var p := UnsentAt(M.TraceOf(res, s.ewm, s.running, step.faults), res.assignments, step.faults, r);
    CountOfIff(p, |res.assignments|);
    assert forall j: nat ::
        p(j) == Unsent(M.TraceOf(res, s.ewm, s.running, step.faults), res.assignments, step.faults, r, j);
  }

  /**
   * Whatever calls and writes fail, a callback keeps the load of a robot exactly when it sends every
   * order that it assigns to it; otherwise the load falls.
   */
  lemma DeliverKeepsLoadIff(setup: Setup, s: State, t: State, step: Step, r: Robot)
    requires StoreInv(setup, s) && Synced(s.ewm, s.running) && step.Deliver? && Delivers(s, t, step) && LowerName(r)
    ensures Load(t, r) <= Load(s, r) && (Load(t, r) == Load(s, r) <==> SendsTo(s, step, r))
  {
    AssignmentsForRobots(s.store, setup.fleet, step.name);
    DeliverLoad(s.store.reservations[step.name], s.ewm, s.running, step.now, step.faults, r);
    SendsToIff(s, step, r);
    DeliverChangesLoad(setup, s, t, step, r);
  }

  /** The load changes as running orders and assignments do. */
  lemma DeliverChangesLoad(setup: Setup, s: State, t: State, step: Step, r: Robot)
    requires StoreInv(setup, s) && step.Deliver? && Delivers(s, t, step) && LowerName(r)
    ensures var res := s.store.reservations[step.name];
      Load(t, r) - Load(s, r) ==
      |RunningOn(t.running, r)| + Count(StillWaits(res, t.ewm, r))
      - |RunningOn(s.running, r)| - Count(StillWaits(res, s.ewm, r))
  {
    var n, res := step.name, s.store.reservations[step.name];
    WritingKeepsWaits(res, s.ewm, s.running, step.now, step.faults, r);
    if Key(n, r) in s.store.auctions {
      OwedBy(s, Key(n, r));
      OwedBy(t, Key(n, r));
    } else {
      OutsiderNotOwed(setup, s, t, step, r);
    }
  }

  /** Sent orders keep EWM and the running orders in agreement. */
  lemma DeliverKeepsSynced(setup: Setup, s: State, t: State, step: Step)
    requires StoreInv(setup, s) && Synced(s.ewm, s.running) && step.Deliver? && Delivers(s, t, step)
    requires AtomicSend(s, step)
    ensures Synced(t.ewm, t.running)
  {
    AssignmentsForRobots(s.store, setup.fleet, step.name);
    DeliverSyncs(s.store.reservations[step.name], s.ewm, s.running, step.now, step.faults);
  }

  /** The loop neither makes nor ends assignments to other resources. */
  lemma {:induction false} LoopKeepsOthers(trace: seq<M.Work>, todo: seq<OrderAssignment>, faults: M.CallbackFaults,
                                           i: nat, a: OrderAssignment)
    requires i <= |todo| && M.Traces(trace, todo, faults) && forall b :: b in todo ==> b.rsrc != a.rsrc
    ensures M.Holds(trace[i].ewm, a) <==> M.Holds(trace[0].ewm, a)
  {
    if i > 0 {
      LoopKeepsOthers(trace, todo, faults, i - 1, a);
      assert todo[i - 1] in todo;
    }
  }

  /** Without an assignment for the robot the callback changes no assignment to it. */
  lemma OthersStand(res: Reservation, ewm: M.Ewm, running: map<Ident, Robot>, now: int, faults: M.CallbackFaults,
                    a: OrderAssignment)
    requires res.status == Reservations && forall b :: b in res.assignments ==> b.rsrc != a.rsrc
    ensures M.Holds(M.ProcessReservations(res, ewm, running, now, faults).ewm, a) <==> M.Holds(ewm, a)
  {
    HoldsAfterLoop(res, ewm, running, now, faults);
    LoopKeepsOthers(M.TraceOf(res, ewm, running, faults), res.assignments, faults, |res.assignments|, a);
  }

  /** A robot outside the auction is not touched by its deliveries. */
  lemma OutsiderNotOwed(setup: Setup, s: State, t: State, step: Step, r: Robot)
    requires StoreInv(setup, s) && step.Deliver? && Delivers(s, t, step) && LowerName(r)
    requires Key(step.name, r) !in s.store.auctions
    ensures var res := s.store.reservations[step.name];
      StillWaits(res, t.ewm, r) <==> StillWaits(res, s.ewm, r)
    ensures Owed(t, r) <==> Owed(s, r)
  {
    var n, res := step.name, s.store.reservations[step.name];
    forall a | a in res.assignments ensures a.rsrc != Upper(r) {
      if a.rsrc == Upper(r) {
        OthersGetNothing(s.store, setup.fleet, n, r, a);
      }
    }
    forall a: OrderAssignment | a.rsrc == Upper(r) ensures M.Holds(t.ewm, a) <==> M.Holds(s.ewm, a) {
      OthersStand(res, s.ewm, s.running, step.now, step.faults, a);
    }
    SameWaits(res.delivered, res.assignments, t.ewm, s.ewm, r);
    SameOwed(s, t, n, r);
  }

  /** Only reservation n changed, in whose auction the robot takes no part, and no assignment to the robot. */
  lemma SameOwed(s: State, t: State, n: string, r: Robot)
    requires t.store.auctions == s.store.auctions && t.store.reservations.Keys == s.store.reservations.Keys
    requires forall m :: m in s.store.reservations && m != n ==> t.store.reservations[m] == s.store.reservations[m]
    requires forall a: OrderAssignment :: a.rsrc == Upper(r) ==> (M.Holds(t.ewm, a) <==> M.Holds(s.ewm, a))
    requires forall k :: k in s.store.auctions && k.robot == r ==> k.res != n
    ensures Owed(t, r) <==> Owed(s, r)
  {
    forall m | m in s.store.reservations && m != n
      ensures StillWaits(t.store.reservations[m], t.ewm, r) <==> StillWaits(s.store.reservations[m], s.ewm, r)
    {
      SameWaits(s.store.reservations[m].delivered, s.store.reservations[m].assignments, t.ewm, s.ewm, r);
    }
  }

  /* ---------- The other steps ---------- */

  /** What is owed after a reconcile was owed before, or the robot was invited with room for an order. */
  lemma OwedAfterReconcile(setup: Setup, s: State, t: State, step: Step, r: Robot)
    requires ValidSetup(setup) && StoreInv(setup, s) && step.Reconcile? && Next(setup, s, t, step) && Owed(t, r)
    ensures Owed(s, r)
            || (r in step.round.rs.available && At(step.round.opr, r) < setup.configs[step.owner].maxOrders)
  {
    ReconcileKeepsInv(setup.configs[step.owner], s.store, t.store, setup.fleet, step.round, step.course);
    var k :| k in t.store.auctions && k.robot == r && t.store.auctions[k].status != AuctionCompleted
             && k.res in t.store.reservations && StillWaits(t.store.reservations[k.res], t.ewm, r);
    ContinuesWaiting(s.store, t.store, k.res, s.ewm, r);
  }

  /** First assignments at most make the robot stop waiting. */
  lemma ContinuesWaiting(s: Store, t: Store, n: string, ewm: M.Ewm, r: Robot)
    requires Continues(s, t, n) && StillWaits(t.reservations[n], ewm, r)
    ensures StillWaits(s.reservations[n], ewm, r)
  {
  }

  lemma ReconcileKeepsCapacity(setup: Setup, s: State, t: State, step: Step)
    requires ValidSetup(setup) && CapacityInv(setup, s) && step.Reconcile? && Next(setup, s, t, step)
    ensures WithinCapacity(setup, t)
  {
    forall o, r | o in setup.fleet && o in setup.configs && r in setup.fleet[o]
      ensures Load(t, r) <= setup.configs[o].maxOrders
    {
      assert Load(s, r) <= setup.configs[o].maxOrders;
      if Owed(t, r) && !Owed(s, r) {
        OwedAfterReconcile(setup, s, t, step, r);
        assert r in setup.fleet[o] * setup.fleet[step.owner];
      }
    }
  }

  lemma DeliverKeepsCapacity(setup: Setup, s: State, t: State, step: Step)
    requires ValidSetup(setup) && CapacityInv(setup, s) && step.Deliver? && Delivers(s, t, step)
    requires AtomicSend(s, step)
    ensures Synced(t.ewm, t.running) && WithinCapacity(setup, t)
  {
    DeliverKeepsSynced(setup, s, t, step);
    forall o, r | o in setup.fleet && o in setup.configs && r in setup.fleet[o]
      ensures Load(t, r) <= setup.configs[o].maxOrders
    {
      DeliverKeepsLoadIff(setup, s, t, step, r);
    }
  }

  /** The same orders have robots, and no order was given one. */
  ghost predicate SameRobots(e: M.Ewm, f: M.Ewm) {
    forall a :: M.Holds(e, a) <==> M.Holds(f, a)
  }

  /** A callback before delivery changes nothing that counts. */
  lemma UpdateKeepsCapacity(setup: Setup, s: State, t: State, n: string, updated: Reservation)
    requires ValidSetup(setup) && CapacityInv(setup, s) && n in s.store.reservations && SameRobots(t.ewm, s.ewm)
    requires updated.delivered == s.store.reservations[n].delivered
    requires updated.assignments == s.store.reservations[n].assignments && t.running == s.running
    requires t.store == WithReservation(s.store, n, updated) || t.store == s.store
    ensures WithinCapacity(setup, t)
  {
    forall r ensures Owed(t, r) ==> Owed(s, r) {
      forall m | m in s.store.reservations
        ensures StillWaits(t.store.reservations[m], t.ewm, r) <==> StillWaits(s.store.reservations[m], s.ewm, r)
      {
        SameWaits(s.store.reservations[m].delivered, s.store.reservations[m].assignments, t.ewm, s.ewm, r);
      }
    }
    forall o, r | o in setup.fleet && o in setup.configs && r in setup.fleet[o]
      ensures Load(t, r) <= setup.configs[o].maxOrders
    {
      assert Load(s, r) <= setup.configs[o].maxOrders;
    }
  }

  lemma ReserveKeepsCapacity(setup: Setup, s: State, t: State, step: Step)
    requires ValidSetup(setup) && CapacityInv(setup, s) && step.ReserveOrders? && ReservesOrders(s, t, step)
    ensures Synced(t.ewm, t.running) && WithinCapacity(setup, t)
  {
    ReserveKeepsRobots(s, t, step);
    UpdateKeepsCapacity(setup, s, t, step.name,
                        M.ProcessNew(s.store.reservations[step.name], step.existing, step.further.answer,
                                     M.ReservedBy(step.cache)));
  }

  lemma ReserveKeepsRobots(s: State, t: State, step: Step)
    requires step.ReserveOrders? && ReservesOrders(s, t, step)
    ensures SameRobots(t.ewm, s.ewm) && (Synced(s.ewm, s.running) ==> Synced(t.ewm, t.running))
  {
  }

  lemma FetchKeepsCapacity(setup: Setup, s: State, t: State, step: Step)
    requires ValidSetup(setup) && CapacityInv(setup, s) && step.FetchTasks? && FetchesTasks(s, t, step)
    ensures Synced(t.ewm, t.running) && WithinCapacity(setup, t)
  {
    UpdateKeepsCapacity(setup, s, t, step.name,
                        M.ProcessAccepted(s.store.reservations[step.name], step.answers, step.validUntil));
  }

  /** A robot that is owed an order again lost one that was running. */
  lemma RemovalLoad(s: State, t: State, id: Ident, r: Robot)
    requires Synced(s.ewm, s.running) && LowerName(r) && t.store == s.store && t.running == s.running - {id}
    requires forall a: OrderAssignment :: a.id != id ==> (M.Holds(t.ewm, a) <==> M.Holds(s.ewm, a))
    ensures Load(t, r) <= Load(s, r)
  {
    assert RunningOn(t.running, r) == RunningOn(s.running, r) - {id};
    if Owed(t, r) && !Owed(s, r) {
      var k :| k in s.store.auctions && k.robot == r && s.store.auctions[k].status != AuctionCompleted
               && k.res in s.store.reservations && StillWaits(s.store.reservations[k.res], t.ewm, r);
      var a :| a in s.store.reservations[k.res].assignments && a.rsrc == Upper(r) && M.Holds(s.ewm, a);
      assert a.id == id && id in s.running && Upper(s.running[id]) == Upper(r);
      UpperInjective(s.running[id], r);
      assert id in RunningOn(s.running, r);
    } else {
      SubsetCard(RunningOn(t.running, r), RunningOn(s.running, r));
    }
  }

  /** Orders that leave the robots make room. */
  lemma RemovalKeepsCapacity(setup: Setup, s: State, t: State, id: Ident)
    requires ValidSetup(setup) && CapacityInv(setup, s) && t.store == s.store && t.running == s.running - {id}
    requires forall a: OrderAssignment :: a.id != id ==> (M.Holds(t.ewm, a) <==> M.Holds(s.ewm, a))
    ensures WithinCapacity(setup, t)
  {
    forall o, r | o in setup.fleet && o in setup.configs && r in setup.fleet[o]
      ensures Load(t, r) <= setup.configs[o].maxOrders
    {
      assert Load(s, r) <= setup.configs[o].maxOrders;
      RemovalLoad(s, t, id, r);
    }
  }

  lemma BidKeepsCapacity(setup: Setup, s: State, t: State, step: Step)
    requires WithinCapacity(setup, s) && step.Bid? && Next(setup, s, t, step)
    ensures WithinCapacity(setup, t)
  {
    forall r ensures Owed(t, r) ==> Owed(s, r) {
    }
    forall o, r | o in setup.fleet && o in setup.configs && r in setup.fleet[o]
      ensures Load(t, r) <= setup.configs[o].maxOrders
    {
      assert Load(s, r) <= setup.configs[o].maxOrders;
    }
  }

  lemma StepKeepsCapacity(setup: Setup, s: State, t: State, step: Step)
    requires ValidSetup(setup) && CapacityInv(setup, s) && Next(setup, s, t, step) && AtomicSend(s, step)
    ensures CapacityInv(setup, t)
  {
    StepKeepsStoreInv(setup, s, t, step);
    match step
    case Reconcile(_, _, _) => ReconcileKeepsCapacity(setup, s, t, step);
    case ReserveOrders(_, _, _, _, _) => ReserveKeepsCapacity(setup, s, t, step);
    case FetchTasks(_, _, _, _) => FetchKeepsCapacity(setup, s, t, step);
    case Deliver(_, _, _, _) => DeliverKeepsCapacity(setup, s, t, step);
    case Bid(_, _, _) => BidKeepsCapacity(setup, s, t, step);
    case _ => OrderKeepsCapacity(setup, s, t, step);
  }

  /** Orders that are new, done or taken back. */
  lemma OrderKeepsCapacity(setup: Setup, s: State, t: State, step: Step)
    requires ValidSetup(setup) && CapacityInv(setup, s) && Next(setup, s, t, step)
    requires step.Finish? || step.Unassign? || step.NewOrder?
    ensures Synced(t.ewm, t.running) && WithinCapacity(setup, t)
  {
    match step
    case Finish(id) => RemovalKeepsCapacity(setup, s, t, id);
    case Unassign(id) => RemovalKeepsCapacity(setup, s, t, id);
    case NewOrder(id) => RemovalKeepsCapacity(setup, s, t, id);
  }

  /**
   * In every run in which an order that EWM assigned also reaches its robot, whatever other calls
   * and writes fail, no robot ever works on more orders than its auctioneer allows, not even with
   * the one it may still win.
   */
  lemma {:induction false} RunsStayWithinCapacity(setup: Setup, states: seq<State>, steps: seq<Step>, i: nat)
    requires ValidSetup(setup) && Run(setup, states, steps) && Initial(states[0]) && i < |states|
    requires forall o :: o in setup.configs ==> setup.configs[o].maxOrders >= 0
    requires forall j :: 0 <= j < |steps| ==> AtomicSend(states[j], steps[j])
    ensures CapacityInv(setup, states[i])
    ensures forall o, r :: o in setup.fleet && o in setup.configs && r in setup.fleet[o] ==>
              |RunningOn(states[i].running, r)| <= Load(states[i], r) <= setup.configs[o].maxOrders
  {
    if i == 0 {
      assert forall r :: RunningOn(states[0].running, r) == {};
    } else {
      RunsStayWithinCapacity(setup, states, steps, i - 1);
      StepKeepsCapacity(setup, states[i - 1], states[i], steps[i - 1]);
    }
  }
}
