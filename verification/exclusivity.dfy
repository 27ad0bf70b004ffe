/**
 * No warehouse order is reserved twice: in every run without interrupted callbacks the
 * orders that reservations still have to deliver or to hand back are different ones.
 */
module Exclusivity {
  import opened Common
  import opened Warehouse
  import opened AuctionCycle
  import opened Protocol
  import M = ReservationManager

  /** The orders in EWM that a callback changes are those its reservation holds. */
  ghost predicate TouchesOnly(before: M.Ewm, after: M.Ewm, ids: set<Ident>) {
    forall id :: M.SameAt(after, before, id) || id in ids
  }

  /** The callback leaves no order open that its reservation still holds. */
  ghost predicate Uninterrupted(s: State, step: Step) {
    step.Deliver? && step.name in s.store.reservations && s.store.reservations[step.name].status == Reservations ==>
      !M.LeavesOpen(s.store.reservations[step.name], s.ewm, s.running, step.now, step.faults, step.written)
  }

  /* ---------- What the assignment loop touches ---------- */

  lemma {:induction false} RemoveFirstRemoves(s: seq<Ident>, id: Ident)
    requires NoDuplicates(s)
    ensures NoDuplicates(M.RemoveFirst(s, id)) && id !in M.RemoveFirst(s, id)
  {
    if s != [] && s[0] != id {
      RemoveFirstRemoves(s[1..], id);
      var r := M.RemoveFirst(s[1..], id);
      assert M.RemoveFirst(s, id) == [s[0]] + r;
      assert s[0] !in s[1..] && s[0] !in r;
    }
  }

  /** The assignment was made by this callback; it is delivered unless EWM's answer got lost. */
  predicate Taken(w: M.Work, v: M.Work, a: OrderAssignment, f: M.Fault) {
    && a.id in w.reserved && !M.IsDelivered(w.delivered, a.id) && M.Holds(v.ewm, a)
    && (M.IsDelivered(v.delivered, a.id) <==> f == M.Fine) && (f == M.AnswerLost ==> v.retry)
  }

  /**
   * After the first i assignments: no delivered one of them is listed as reserved any more, and
   * the orders changed in EWM are exactly those that were assigned.
   */
  ghost predicate Touched(trace: seq<M.Work>, todo: seq<OrderAssignment>, faults: M.CallbackFaults, i: nat)
    requires i < |trace| && i <= |todo|
  {
    var w, v := trace[0], trace[i];
    && NoDuplicates(v.reserved) && w.delivered <= v.delivered
    && (forall id :: id in v.reserved ==> id in w.reserved)
    && (forall a :: a in v.delivered ==> a in todo)
    && (forall j :: 0 <= j < i && todo[j] in v.delivered ==> todo[j].id !in v.reserved)
    && (forall id :: !M.SameAt(v.ewm, w.ewm, id) ==>
          exists j :: 0 <= j < i && M.AssignsAt(trace, todo, faults, j) && todo[j].id == id)
    && (forall j :: 0 <= j < i && M.AssignsAt(trace, todo, faults, j) ==>
          Taken(w, v, todo[j], M.FaultAt(faults.assign, j)))
  }

  lemma {:induction false} AssignTouches(trace: seq<M.Work>, todo: seq<OrderAssignment>, faults: M.CallbackFaults,
                                         i: nat)
    requires M.Traces(trace, todo, faults) && i <= |todo| && NoDuplicates(trace[0].reserved)
    requires DifferentResources(todo) && forall a :: a in trace[0].delivered ==> a in todo
    ensures Touched(trace, todo, faults, i)
  {
    if i > 0 {
      AssignTouches(trace, todo, faults, i - 1);
      AssignNextTouches(trace, todo, faults, i - 1);
    }
  }

  lemma AssignNextTouches(trace: seq<M.Work>, todo: seq<OrderAssignment>, faults: M.CallbackFaults, i: nat)
    requires M.Traces(trace, todo, faults) && i < |todo| && DifferentResources(todo) && Touched(trace, todo, faults, i)
    ensures Touched(trace, todo, faults, i + 1)
  {
    var v, u, a, f := trace[i], trace[i + 1], todo[i], M.FaultAt(faults.assign, i);
    if M.AssignsAt(trace, todo, faults, i) {
      AssignmentTouches(trace, todo, faults, i, v, u);
    } else {
      if a.id in v.reserved && a in v.delivered {
        RemoveFirstRemoves(v.reserved, a.id);
      }
      assert u == v.(reserved := u.reserved, retry := u.retry);
      StillTouched(trace, todo, faults, i, v, u);
    }
  }

  /** A step without assignment at most takes a delivered order from the list. */
  lemma StillTouched(trace: seq<M.Work>, todo: seq<OrderAssignment>, faults: M.CallbackFaults, i: nat, v: M.Work,
                     u: M.Work)
    requires i + 1 < |trace| && v == trace[i] && u == trace[i + 1] && i < |todo| && Touched(trace, todo, faults, i)
    requires !M.AssignsAt(trace, todo, faults, i) && u == v.(reserved := u.reserved, retry := u.retry)
    requires NoDuplicates(u.reserved) && (forall id :: id in u.reserved ==> id in v.reserved) && (v.retry ==> u.retry)
    requires todo[i] in u.delivered ==> todo[i].id !in u.reserved
    ensures Touched(trace, todo, faults, i + 1)
  {
    forall j | 0 <= j < i + 1 && M.AssignsAt(trace, todo, faults, j)
      ensures Taken(trace[0], u, todo[j], M.FaultAt(faults.assign, j))
    {
      assert Taken(trace[0], v, todo[j], M.FaultAt(faults.assign, j));
    }
  }

  /** What making an assignment changes. */
  lemma AssignmentStep(v: M.Work, u: M.Work, a: OrderAssignment, f: M.Fault, g: M.Fault)
    requires M.Assigns(v, a, f) && u == M.AssignStep(v, a, f, g) && NoDuplicates(v.reserved)
    ensures u.ewm == v.ewm[a.id := M.AssignedTo(a.rsrc)] && NoDuplicates(u.reserved) && (v.retry ==> u.retry)
    ensures forall id :: id in u.reserved ==> id in v.reserved
    ensures f == M.Fine ==> u.delivered == v.delivered + [a] && a.id !in u.reserved
    ensures f == M.AnswerLost ==> u.delivered == v.delivered && u.retry && u.reserved == v.reserved
  {
    RemoveFirstRemoves(v.reserved, a.id);
  }

  lemma StaysTaken(w: M.Work, v: M.Work, u: M.Work, b: OrderAssignment, a: OrderAssignment, f: M.Fault, answered: bool)
    requires Taken(w, v, b, f) && b.id != a.id && u.ewm == v.ewm[a.id := M.AssignedTo(a.rsrc)] && (v.retry ==> u.retry)
    requires u.delivered == v.delivered + if answered then [a] else []
    ensures Taken(w, u, b, f)
  {
    AssignmentDelivers(v, u, a, answered);
  }

  lemma AssignmentDelivers(v: M.Work, u: M.Work, a: OrderAssignment, answered: bool)
    requires u.delivered == v.delivered + if answered then [a] else []
    ensures forall id ::
        M.IsDelivered(u.delivered, id) <==> M.IsDelivered(v.delivered, id) || (answered && id == a.id)
  {
    forall id
      ensures M.IsDelivered(u.delivered, id) <==> M.IsDelivered(v.delivered, id) || (answered && id == a.id)
    {
      if answered {
        M.DeliveredAppend(v.delivered, a, id);
      }
    }
  }

  lemma AssignmentTouches(trace: seq<M.Work>, todo: seq<OrderAssignment>, faults: M.CallbackFaults, i: nat, v: M.Work,
                          u: M.Work)
    requires M.Traces(trace, todo, faults) && i < |todo| && DifferentResources(todo) && Touched(trace, todo, faults, i)
    requires M.AssignsAt(trace, todo, faults, i) && v == trace[i] && u == trace[i + 1]
    ensures Touched(trace, todo, faults, i + 1)
  {
    var w, a, f := trace[0], todo[i], M.FaultAt(faults.assign, i);
    AssignmentStep(v, u, a, f, M.FaultAt(faults.send, i));
    NotDeliveredBefore(v.delivered, todo, i);
    AssignmentDelivers(v, u, a, f == M.Fine);
    assert !M.IsDelivered(w.delivered, a.id) by {
      assert forall b :: b in w.delivered ==> b in v.delivered;
    }
    forall j | 0 <= j < i + 1 && M.AssignsAt(trace, todo, faults, j)
      ensures Taken(w, u, todo[j], M.FaultAt(faults.assign, j))
    {
      if j < i {
        StaysTaken(w, v, u, todo[j], a, M.FaultAt(faults.assign, j), f == M.Fine);
      }
    }
    MoreChanged(trace, todo, faults, i, u.ewm);
  }

  lemma MoreChanged(trace: seq<M.Work>, todo: seq<OrderAssignment>, faults: M.CallbackFaults, i: nat, ewm: M.Ewm)
    requires i < |todo| && i < |trace| && M.AssignsAt(trace, todo, faults, i)
    requires ewm == trace[i].ewm[todo[i].id := M.AssignedTo(todo[i].rsrc)]
    requires forall id :: !M.SameAt(trace[i].ewm, trace[0].ewm, id) ==>
               exists j :: 0 <= j < i && M.AssignsAt(trace, todo, faults, j) && todo[j].id == id
    ensures forall id :: !M.SameAt(ewm, trace[0].ewm, id) ==>
              exists j :: 0 <= j < i + 1 && M.AssignsAt(trace, todo, faults, j) && todo[j].id == id
  {
    forall id | !M.SameAt(ewm, trace[0].ewm, id)
      ensures exists j :: 0 <= j < i + 1 && M.AssignsAt(trace, todo, faults, j) && todo[j].id == id
    {
      assert id == todo[i].id || !M.SameAt(trace[i].ewm, trace[0].ewm, id);
    }
  }

  lemma NotDeliveredBefore(delivered: seq<OrderAssignment>, todo: seq<OrderAssignment>, i: nat)
    requires i < |todo| && DifferentResources(todo) && todo[i] !in delivered
    requires forall a :: a in delivered ==> a in todo
    ensures !M.IsDelivered(delivered, todo[i].id)
  {
  }

  /** What is consistent about a reservation whose orders are being delivered. */
  ghost predicate Proper(res: Reservation) {
    && NoDuplicates(M.Idents(res.whos)) && DifferentResources(res.assignments)
    && forall a :: a in res.delivered ==> a in res.assignments
  }

  lemma IdentsAre(whos: seq<WarehouseOrder>, id: Ident)
    ensures id in M.Idents(whos) <==> Reserved(whos, id)
  {
  }

  lemma HeldIs(res: Reservation, id: Ident)
    ensures id in M.Held(res) <==>
              M.InProcessStatus(res.status) && Reserved(res.whos, id) && !M.IsDelivered(res.delivered, id)
  {
  }

  /** What a callback has left of the orders after assigning: those it is going to hand back are held. */
  lemma ToReleaseHeld(res: Reservation, ewm: M.Ewm, running: map<Ident, Robot>, now: int, faults: M.CallbackFaults)
    requires res.status == Reservations && Proper(res)
    ensures Touched(M.TraceOf(res, ewm, running, faults), res.assignments, faults, |res.assignments|)
    ensures var b := M.ToRelease(res, ewm, running, now, faults);
      && (forall id :: id in b.ids ==> id in M.Held(res))
      && TouchesOnly(ewm, b.ewm, M.Held(res))
      && (forall id :: !M.SameAt(b.ewm, ewm, id) ==> id in b.ewm && b.ewm[id].AssignedTo?)
  {
    var trace, n := M.TraceOf(res, ewm, running, faults), |res.assignments|;
    var w, v := trace[0], trace[n];
    AssignTouches(trace, res.assignments, faults, n);
    forall id ensures id in w.reserved && !M.IsDelivered(res.delivered, id) <==> id in M.Held(res) {
      HeldIs(res, id);
      IdentsAre(res.whos, id);
    }
    forall a | a in res.delivered ensures a.id !in v.reserved {
      assert a in v.delivered;
      var j :| 0 <= j < n && res.assignments[j] == a;
    }
    if res.assignments == [] {
      forall id ensures !M.IsDelivered(res.delivered, id) {
        assert forall a :: a in res.delivered ==> a in res.assignments;
      }
    }
  }

  predicate KeptOrReleased(before: M.Ewm, after: M.Ewm, id: Ident) {
    M.SameAt(after, before, id) || M.SameAt(after, M.Released(before, id), id)
  }

  /** A callback touches only the orders that its reservation holds. */
  lemma DeliverTouches(res: Reservation, ewm: M.Ewm, running: map<Ident, Robot>, now: int, faults: M.CallbackFaults)
    requires res.status == Reservations && Proper(res)
    ensures var o := M.ProcessReservations(res, ewm, running, now, faults);
      && TouchesOnly(ewm, o.ewm, M.Held(res))
      && (forall id :: id in M.Held(o.res) ==> id in M.Held(res))
      && (forall id :: KeptOrReleased(ewm, o.ewm, id) || (id in o.ewm && o.ewm[id].AssignedTo?))
  {
    var o := M.ProcessReservations(res, ewm, running, now, faults);
    var b := M.ToRelease(res, ewm, running, now, faults);
    var ids, e := b.ids, b.ewm;
    ToReleaseHeld(res, ewm, running, now, faults);
    M.CallbackFacts(res, ewm, running, now, faults);
    M.ReleaseLoop(e, ids, faults.release, |ids|);
    assert ids[..|ids|] == ids;
    forall id | id in M.Held(o.res) ensures id in M.Held(res) {
      HeldIs(o.res, id);
      M.HeldShrinks(res, o.res, id);
    }
    forall id
      ensures KeptOrReleased(ewm, o.ewm, id) || (id in o.ewm && o.ewm[id].AssignedTo? && !M.SameAt(e, ewm, id))
    {
      assert M.SameAt(o.ewm, e, id) || M.SameAt(o.ewm, M.Released(e, id), id);
    }
  }

  /* ---------- The invariant ---------- */

  /** The orders listed by a reservation in process. */
  function Listed(res: Reservation): set<Ident> {
    if M.InProcessStatus(res.status) then set i | 0 <= i < |res.whos| :: res.whos[i].id else {}
  }

  /** Two reservations hold different orders, none of which is open. */
  ghost predicate HeldOnce(s: State) {
    && (forall m, n | m in s.store.reservations && n in s.store.reservations && m != n ::
          M.Held(s.store.reservations[m]) !! M.Held(s.store.reservations[n]))
    && (forall n | n in s.store.reservations :: KeptReserved(s.store.reservations[n], s.ewm))
  }

  ghost predicate KeptReserved(res: Reservation, ewm: M.Ewm) {
    forall id :: id in M.Held(res) ==> id in ewm && ewm[id] != M.Open
  }

  /** No order that a reservation holds is taken from the robot it may already have. */
  ghost predicate LeavesHeld(s: State, step: Step) {
    step.Unassign? ==> forall n | n in s.store.reservations :: step.id !in M.Held(s.store.reservations[n])
  }

  /** A reservation lists an order once, and none before it was accepted. */
  ghost predicate WellListed(s: Store) {
    forall n :: n in s.reservations ==>
      && NoDuplicates(M.Idents(s.reservations[n].whos))
      && (s.reservations[n].status in {Unset, New} ==> s.reservations[n].whos == [])
  }

  ghost predicate ExclusiveInv(setup: Setup, s: State) {
    StoreInv(setup, s) && WellListed(s.store) && HeldOnce(s)
  }

  lemma AreProper(setup: Setup, s: State, n: string)
    requires StoreInv(setup, s) && WellListed(s.store) && n in s.store.reservations
    ensures Proper(s.store.reservations[n])
  {
  }

  /** One reservation changes; the others keep their orders and find them in process still. */
  lemma OneChangesHeld(s: State, t: State, n: string, updated: Reservation)
    requires HeldOnce(s) && n in s.store.reservations && t.store == WithReservation(s.store, n, updated)
    requires KeptReserved(updated, t.ewm)
    requires forall m :: m in s.store.reservations && m != n ==>
               M.Held(s.store.reservations[m]) !! M.Held(updated) && KeptReserved(s.store.reservations[m], t.ewm)
    ensures HeldOnce(t)
  {
  }

  /** The reservation as it is stored after the callback. */
  function Stored(res: Reservation, updated: Reservation, written: bool): Reservation {
    if written then updated else res
  }

  lemma StoredIs(s: State, t: State, step: Step)
    requires step.Deliver? && Delivers(s, t, step)
    ensures var res := s.store.reservations[step.name];
      var o := M.ProcessReservations(res, s.ewm, s.running, step.now, step.faults);
      t.store == WithReservation(s.store, step.name, Stored(res, o.res, step.written)) && t.ewm == o.ewm
  {
    assert s.store.reservations[step.name := s.store.reservations[step.name]] == s.store.reservations;
  }

  /** The orders of other reservations are left alone. */
  lemma OthersKeepHeld(s: State, t: State, step: Step)
    requires step.Deliver? && Delivers(s, t, step) && HeldOnce(s) && Proper(s.store.reservations[step.name])
    ensures var res := s.store.reservations[step.name];
      var stored := Stored(res, M.ProcessReservations(res, s.ewm, s.running, step.now, step.faults).res, step.written);
      forall m :: m in s.store.reservations && m != step.name ==>
        M.Held(s.store.reservations[m]) !! M.Held(stored) && KeptReserved(s.store.reservations[m], t.ewm)
  {
    var n, res := step.name, s.store.reservations[step.name];
    DeliverTouches(res, s.ewm, s.running, step.now, step.faults);
    StoredIs(s, t, step);
    forall m | m in s.store.reservations && m != n ensures KeptReserved(s.store.reservations[m], t.ewm) {
      assert M.Held(s.store.reservations[m]) !! M.Held(res) && KeptReserved(s.store.reservations[m], s.ewm);
      forall id | id in M.Held(s.store.reservations[m]) ensures M.SameAt(t.ewm, s.ewm, id) {
      }
    }
  }

  /**
   * A delivering callback keeps held orders apart and reserved exactly when it leaves no order
   * open that its reservation still holds, also when its result cannot be written.
   */
  lemma DeliverKeepsHeldIff(s: State, t: State, step: Step)
    requires step.Deliver? && Delivers(s, t, step) && HeldOnce(s) && Proper(s.store.reservations[step.name])
    ensures HeldOnce(t) <==> Uninterrupted(s, step)
  {
    var n, res := step.name, s.store.reservations[step.name];
    var o := M.ProcessReservations(res, s.ewm, s.running, step.now, step.faults);
    var stored := Stored(res, o.res, step.written);
    DeliverTouches(res, s.ewm, s.running, step.now, step.faults);
    assert KeptReserved(res, s.ewm);
    M.HeldStaysReservedIff(res, s.ewm, s.running, step.now, step.faults, step.written);
    StoredIs(s, t, step);
    OthersKeepHeld(s, t, step);
    forall id | id in M.Held(stored) ensures id in o.ewm {
      assert id in M.Held(res) && (KeptOrReleased(s.ewm, o.ewm, id) || id in o.ewm);
    }
    if Uninterrupted(s, step) {
      OneChangesHeld(s, t, n, stored);
    } else {
      assert t.store.reservations[n] == stored && !KeptReserved(stored, t.ewm);
    }
  }

  /** The orders of a request are free: in process and not listed by others, or just taken. */
  lemma NewOrdersAreFree(s: State, step: Step, id: Ident)
    requires step.ReserveOrders? && ReservableFrom(s, step) && id in M.Held(Reserving(s, step))
    ensures id in s.ewm && (id in step.further.taken || s.ewm[id] == M.InProcess)
    ensures id in step.further.taken || id !in M.ReservedBy(step.cache)
  {
  }

  /** The reservation after orders were found for it. */
  function Reserving(s: State, step: Step): Reservation
    requires step.ReserveOrders? && step.name in s.store.reservations
    requires s.store.reservations[step.name].status in {Unset, New}
  {
    M.ProcessNew(s.store.reservations[step.name], step.existing, step.further.answer, M.ReservedBy(step.cache))
  }

  ghost predicate ReservableFrom(s: State, step: Step)
    requires step.ReserveOrders?
  {
    && step.name in s.store.reservations && s.store.reservations[step.name].status in {Unset, New}
    && s.store.reservations[step.name].whos == []
    && Elements(step.cache) == s.store.reservations.Values
    && (step.existing.Orders? ==> AllIn(s.ewm, step.existing.whos, M.InProcess))
    && Hands(s.ewm, step.further)
  }

  lemma CacheLists(s: State, cache: seq<Reservation>, m: string, id: Ident)
    requires Elements(cache) == s.store.reservations.Values && m in s.store.reservations
    requires M.InProcessStatus(s.store.reservations[m].status) && Reserved(s.store.reservations[m].whos, id)
    ensures id in M.ReservedBy(cache)
  {
    assert s.store.reservations[m] in Elements(cache);
    var i :| 0 <= i < |cache| && cache[i] == s.store.reservations[m];
  }

  lemma ReserveKeepsHeldOnce(s: State, t: State, step: Step)
    requires step.ReserveOrders? && ReservableFrom(s, step) && ReservesOrders(s, t, step) && HeldOnce(s)
    ensures HeldOnce(t)
  {
    var n, updated := step.name, Reserving(s, step);
    forall m | m in s.store.reservations ensures KeptReserved(s.store.reservations[m], t.ewm) {
      assert KeptReserved(s.store.reservations[m], s.ewm);
    }
    forall id | id in M.Held(updated) ensures id in t.ewm && t.ewm[id] == M.InProcess {
      NewOrdersAreFree(s, step, id);
    }
    forall m | m in s.store.reservations && m != n ensures M.Held(s.store.reservations[m]) !! M.Held(updated) {
      forall id | id in M.Held(s.store.reservations[m]) ensures id !in M.Held(updated) {
        assert KeptReserved(s.store.reservations[m], s.ewm);
        HeldIs(s.store.reservations[m], id);
        CacheLists(s, step.cache, m, id);
        if id in M.Held(updated) {
          NewOrdersAreFree(s, step, id);
          assert false;
        }
      }
    }
    if step.written {
      OneChangesHeld(s, t, n, updated);
    }
  }

  lemma FetchKeepsHeldOnce(s: State, t: State, step: Step)
    requires step.FetchTasks? && FetchesTasks(s, t, step) && HeldOnce(s)
    ensures HeldOnce(t)
  {
    if step.written {
      var res := s.store.reservations[step.name];
      var updated := M.ProcessAccepted(res, step.answers, step.validUntil);
      M.FetchingKeepsOrders(res, step.answers, step.validUntil);
      SameHeld(res, updated);
      OneChangesHeld(s, t, step.name, updated);
    }
  }

  lemma SameHeld(res: Reservation, updated: Reservation)
    requires M.Idents(res.whos) == M.Idents(updated.whos) && res.delivered == updated.delivered
    requires M.InProcessStatus(res.status) && M.InProcessStatus(updated.status)
    ensures M.Held(updated) == M.Held(res) && Listed(updated) == Listed(res)
  {
  }

  lemma ReconcileKeepsHeldOnce(s: State, t: State, cfg: Config)
    requires HeldOnce(s) && ReservationsFrame(s.store, t.store, cfg) && t.ewm == s.ewm
    ensures HeldOnce(t)
  {
    forall n | n in t.store.reservations
      ensures M.Held(t.store.reservations[n]) == {} ||
              (n in s.store.reservations && M.Held(t.store.reservations[n]) == M.Held(s.store.reservations[n]))
    {
      assert Continues(s.store, t.store, n) || IsRequest(t.store.reservations[n], cfg);
    }
    forall n | n in t.store.reservations ensures KeptReserved(t.store.reservations[n], t.ewm) {
      assert n in s.store.reservations ==> KeptReserved(s.store.reservations[n], s.ewm);
    }
  }

  /* ---------- Lists without duplicates ---------- */

  ghost predicate DifferentOrders(whos: seq<WarehouseOrder>) {
    forall i, j | 0 <= i < j < |whos| :: whos[i].id != whos[j].id
  }

  lemma DifferentIdents(whos: seq<WarehouseOrder>)
    ensures DifferentOrders(whos) <==> NoDuplicates(M.Idents(whos))
  {
  }

  lemma {:induction false} UnreservedOnce(whos: seq<WarehouseOrder>, reserved: seq<Ident>)
    requires DifferentOrders(whos)
    ensures DifferentOrders(M.Unreserved(whos, reserved))
  {
    if whos != [] {
      var init, last := whos[..|whos| - 1], whos[|whos| - 1];
      UnreservedOnce(init, reserved);
      forall w | w in M.Unreserved(init, reserved) ensures w.id != last.id {
        var i :| 0 <= i < |init| && init[i] == w;
        assert whos[i].id != whos[|whos| - 1].id;
      }
    }
  }

  lemma AppendedOnce(a: seq<WarehouseOrder>, b: seq<WarehouseOrder>)
    requires DifferentOrders(a) && DifferentOrders(b)
    requires forall v, w :: v in a && w in b ==> v.id != w.id
    ensures DifferentOrders(a + b)
  {
  }

  lemma ReserveListsOnce(s: State, step: Step)
    requires step.ReserveOrders? && ReservableFrom(s, step)
    ensures NoDuplicates(M.Idents(Reserving(s, step).whos))
    ensures Reserving(s, step).status in {Unset, New} ==> Reserving(s, step).whos == []
  {
    var exist := if step.existing.Orders? then step.existing.whos else [];
    var kept := M.Unreserved(exist, M.ReservedBy(step.cache));
    DifferentIdents(exist);
    UnreservedOnce(exist, M.ReservedBy(step.cache));
    DifferentIdents(kept);
    if step.further.answer.Orders? {
      var found := step.further.answer.whos;
      forall v, w | v in kept && w in found ensures v.id != w.id {
        var i :| 0 <= i < |exist| && exist[i] == v;
        assert s.ewm[v.id] == M.InProcess && s.ewm[w.id] == M.Open;
      }
      DifferentIdents(found);
      AppendedOnce(kept, found);
      DifferentIdents(kept + found);
    }
  }

  lemma OneChangesListed(s: Store, n: string, updated: Reservation)
    requires WellListed(s) && n in s.reservations && NoDuplicates(M.Idents(updated.whos))
    requires updated.status in {Unset, New} ==> updated.whos == []
    ensures WellListed(WithReservation(s, n, updated))
  {
  }

  lemma ReconcileKeepsWellListed(s: Store, t: Store, cfg: Config)
    requires WellListed(s) && ReservationsFrame(s, t, cfg)
    ensures WellListed(t)
  {
  }

  lemma DeliverKeepsWellListed(s: State, t: State, step: Step)
    requires WellListed(s.store) && step.Deliver? && Delivers(s, t, step)
    ensures WellListed(t.store)
  {
    var n, now, faults := step.name, step.now, step.faults;
    M.CallbackFacts(s.store.reservations[n], s.ewm, s.running, now, faults);
    M.NothingReservedIsLost(s.store.reservations[n], s.ewm, s.running, now, faults);
    OneChangesListed(s.store, n, M.ProcessReservations(s.store.reservations[n], s.ewm, s.running, now, faults).res);
  }

  lemma StepKeepsWellListed(setup: Setup, s: State, t: State, step: Step)
    requires ValidSetup(setup) && StoreInv(setup, s) && WellListed(s.store) && Next(setup, s, t, step)
    ensures WellListed(t.store)
  {
    match step
    case Reconcile(owner, round, course) =>
      ReconcileKeepsInv(setup.configs[owner], s.store, t.store, setup.fleet, round, course);
      ReconcileKeepsWellListed(s.store, t.store, setup.configs[owner]);
    case ReserveOrders(n, _, _, _, _) =>
      ReserveListsOnce(s, step);
      OneChangesListed(s.store, n, Reserving(s, step));
    case FetchTasks(n, answers, validUntil, _) =>
      M.FetchingKeepsOrders(s.store.reservations[n], answers, validUntil);
      OneChangesListed(s.store, n, M.ProcessAccepted(s.store.reservations[n], answers, validUntil));
    case Deliver(_, _, _, _) => DeliverKeepsWellListed(s, t, step);
    case Bid(_, _, _) =>
    case Finish(_) =>
    case Unassign(_) =>
    case NewOrder(_) =>
  }

  lemma EwmKeepsHeldOnce(s: State, t: State, id: Ident)
    requires HeldOnce(s) && t.store == s.store
    requires forall x :: x != id ==> M.SameAt(t.ewm, s.ewm, x)
    requires id !in s.ewm || (id in t.ewm && t.ewm[id] == M.Done)
             || forall n | n in s.store.reservations :: id !in M.Held(s.store.reservations[n])
    ensures HeldOnce(t)
  {
    forall n | n in t.store.reservations ensures KeptReserved(t.store.reservations[n], t.ewm) {
      assert KeptReserved(s.store.reservations[n], s.ewm);
      forall x | x in M.Held(s.store.reservations[n]) ensures x in t.ewm && t.ewm[x] != M.Open {
        assert x != id ==> M.SameAt(t.ewm, s.ewm, x);
      }
    }
  }

  lemma StepKeepsExclusive(setup: Setup, s: State, t: State, step: Step)
    requires ValidSetup(setup) && ExclusiveInv(setup, s) && Next(setup, s, t, step)
    requires Uninterrupted(s, step) && LeavesHeld(s, step)
    ensures ExclusiveInv(setup, t)
  {
    StepKeepsStoreInv(setup, s, t, step);
    StepKeepsWellListed(setup, s, t, step);
    match step
    case Reconcile(owner, round, course) =>
      ReconcileKeepsInv(setup.configs[owner], s.store, t.store, setup.fleet, round, course);
      ReconcileKeepsHeldOnce(s, t, setup.configs[owner]);
    case ReserveOrders(_, _, _, _, _) =>
      ReserveKeepsHeldOnce(s, t, step);
    case FetchTasks(_, _, _, _) =>
      FetchKeepsHeldOnce(s, t, step);
    case Deliver(n, _, _, _) =>
      AreProper(setup, s, n);
      DeliverKeepsHeldIff(s, t, step);
    case Bid(_, _, _) =>
    case Finish(id) => EwmKeepsHeldOnce(s, t, id);
    case Unassign(id) => EwmKeepsHeldOnce(s, t, id);
    case NewOrder(id) => EwmKeepsHeldOnce(s, t, id);
  }

  ghost predicate UninterruptedRun(states: seq<State>, steps: seq<Step>)
    requires |states| == |steps| + 1
  {
    forall i :: 0 <= i < |steps| ==> Uninterrupted(states[i], steps[i])
  }

  ghost predicate HeldLeftRun(states: seq<State>, steps: seq<Step>)
    requires |states| == |steps| + 1
  {
    forall i :: 0 <= i < |steps| ==> LeavesHeld(states[i], steps[i])
  }

  /**
   * In every run whose callbacks leave no order open that is still held, and in which orders
   * still held are left to their robots, no order is held by two reservations, and an order held
   * is not open for another reservation.
   */
  lemma {:induction false} RunsHoldOrdersOnce(setup: Setup, states: seq<State>, steps: seq<Step>, i: nat)
    requires ValidSetup(setup) && Run(setup, states, steps) && Initial(states[0]) && i < |states|
    requires UninterruptedRun(states, steps) && HeldLeftRun(states, steps)
    ensures ExclusiveInv(setup, states[i])
  {
    if i > 0 {
      RunsHoldOrdersOnce(setup, states, steps, i - 1);
      var s, t, step := states[i - 1], states[i], steps[i - 1];
      assert Uninterrupted(s, step) && LeavesHeld(s, step);
      StepKeepsExclusive(setup, s, t, step);
    } else {
      InitiallyExclusive(setup, states[0]);
    }
  }

  lemma InitiallyExclusive(setup: Setup, s: State)
    requires ValidSetup(setup) && Initial(s)
    ensures ExclusiveInv(setup, s)
  {
  }

  /* ---------- Held orders have no robot yet, if assignments are recorded ---------- */

  /** Orders held wait in process until someone finishes them. */
  ghost predicate KeptInProcess(s: State) {
    forall n, id | n in s.store.reservations && id in M.Held(s.store.reservations[n]) ::
      id in s.ewm && s.ewm[id] in {M.InProcess, M.Done}
  }

  /** Every assignment that the callback makes in EWM is recorded: it is answered, and the status is written. */
  ghost predicate RecordsAll(res: Reservation, ewm: M.Ewm, running: map<Ident, Robot>, faults: M.CallbackFaults,
                             written: bool)
  {
    forall j: nat :: M.AssignsAt(M.TraceOf(res, ewm, running, faults), res.assignments, faults, j) ==>
      written && M.FaultAt(faults.assign, j) == M.Fine
  }

  ghost predicate Recorded(s: State, step: Step) {
    step.Deliver? && step.name in s.store.reservations ==>
      RecordsAll(s.store.reservations[step.name], s.ewm, s.running, step.faults, step.written)
  }

  predicate HasRobot(ewm: M.Ewm, id: Ident) {
    id in ewm && ewm[id].AssignedTo?
  }

  /** Handing back orders neither gives nor takes robots. */
  lemma ReleaseKeepsRobots(res: Reservation, ewm: M.Ewm, running: map<Ident, Robot>, now: int, faults: M.CallbackFaults,
                           id: Ident)
    requires res.status == Reservations
    ensures HasRobot(M.ProcessReservations(res, ewm, running, now, faults).ewm, id) <==>
            HasRobot(M.TraceOf(res, ewm, running, faults)[|res.assignments|].ewm, id)
  {
    var b := M.ToRelease(res, ewm, running, now, faults);
    M.CallbackFacts(res, ewm, running, now, faults);
    ReleasingKeepsRobots(b.ewm, b.ids, faults.release, |b.ids|, id);
    ReleasesAfterLoop(res, ewm, running, now, faults);
  }

  lemma {:induction false} ReleasingKeepsRobots(ewm: M.Ewm, ids: seq<Ident>, faults: seq<M.Fault>, i: nat, id: Ident)
    requires i <= |ids|
    ensures HasRobot(M.ReleaseUpTo(ewm, ids, faults, i), id) <==> HasRobot(ewm, id)
  {
    if i > 0 {
      ReleasingKeepsRobots(ewm, ids, faults, i - 1, id);
    }
  }

  lemma ReleasesAfterLoop(res: Reservation, ewm: M.Ewm, running: map<Ident, Robot>, now: int, faults: M.CallbackFaults)
    requires res.status == Reservations
    ensures M.ToRelease(res, ewm, running, now, faults).ewm ==
            M.TraceOf(res, ewm, running, faults)[|res.assignments|].ewm
  {
  }

  /** The orders that have a robot after a callback and had none before are those it assigned. */
  lemma AssignedIff(res: Reservation, ewm: M.Ewm, running: map<Ident, Robot>, now: int, faults: M.CallbackFaults,
                    id: Ident)
    requires res.status == Reservations && Proper(res) && id in ewm && !ewm[id].AssignedTo?
    ensures HasRobot(M.ProcessReservations(res, ewm, running, now, faults).ewm, id) <==>
            exists j: nat :: M.AssignsAt(M.TraceOf(res, ewm, running, faults), res.assignments, faults, j)
                             && res.assignments[j].id == id
  {
    ReleaseKeepsRobots(res, ewm, running, now, faults, id);
    ToReleaseHeld(res, ewm, running, now, faults);
    LoopAssignsIff(M.TraceOf(res, ewm, running, faults), res.assignments, faults, id);
  }

  lemma LoopAssignsIff(trace: seq<M.Work>, todo: seq<OrderAssignment>, faults: M.CallbackFaults, id: Ident)
    requires |trace| == |todo| + 1 && Touched(trace, todo, faults, |todo|)
    requires id in trace[0].ewm && !trace[0].ewm[id].AssignedTo?
    ensures HasRobot(trace[|todo|].ewm, id) <==>
            exists j: nat :: M.AssignsAt(trace, todo, faults, j) && todo[j].id == id
  {
    assert HasRobot(trace[|todo|].ewm, id) ==> !M.SameAt(trace[|todo|].ewm, trace[0].ewm, id);
    if j: nat :| M.AssignsAt(trace, todo, faults, j) && todo[j].id == id {
      assert Taken(trace[0], trace[|todo|], todo[j], M.FaultAt(faults.assign, j));
    }
  }

  /** The order of an assignment made now is held afterwards exactly when the assignment was not recorded. */
  lemma AssignedIsHeldIff(res: Reservation, ewm: M.Ewm, running: map<Ident, Robot>, now: int, faults: M.CallbackFaults,
                          written: bool, j: nat)
    requires res.status == Reservations && Proper(res)
    requires M.AssignsAt(M.TraceOf(res, ewm, running, faults), res.assignments, faults, j)
    ensures var o := M.ProcessReservations(res, ewm, running, now, faults);
      res.assignments[j].id in M.Held(Stored(res, o.res, written)) <==>
      !(written && M.FaultAt(faults.assign, j) == M.Fine)
  {
    var o := M.ProcessReservations(res, ewm, running, now, faults);
    var trace, a := M.TraceOf(res, ewm, running, faults), res.assignments[j];
    ToReleaseHeld(res, ewm, running, now, faults);
    assert Taken(trace[0], trace[|res.assignments|], a, M.FaultAt(faults.assign, j));
    IdentsAre(res.whos, a.id);
    HeldIs(res, a.id);
    HeldIs(o.res, a.id);
  }

  /** A delivering callback leaves an order that is held with a robot exactly when it does not record an assignment. */
  lemma DeliverKeepsInProcessIff(setup: Setup, s: State, t: State, step: Step)
    requires ExclusiveInv(setup, s) && KeptInProcess(s) && ExclusiveInv(setup, t)
    requires step.Deliver? && Delivers(s, t, step)
    ensures KeptInProcess(t) <==> Recorded(s, step)
  {
    var n, res := step.name, s.store.reservations[step.name];
    AreProper(setup, s, n);
    StoredIs(s, t, step);
    if Recorded(s, step) {
      forall m, id | m in t.store.reservations && id in M.Held(t.store.reservations[m])
        ensures id in t.ewm && t.ewm[id] in {M.InProcess, M.Done}
      {
        HeldStaysInProcess(setup, s, t, step, m, id);
      }
    } else {
      var id := UnrecordedIsHeld(res, s.ewm, s.running, step.now, step.faults, step.written);
      assert id in M.Held(t.store.reservations[n]) && HasRobot(t.ewm, id);
    }
  }

  /** An assignment that is not recorded leaves its order held and with a robot. */
  lemma UnrecordedIsHeld(res: Reservation, ewm: M.Ewm, running: map<Ident, Robot>, now: int, faults: M.CallbackFaults,
                         written: bool) returns (id: Ident)
    requires res.status == Reservations && Proper(res) && !RecordsAll(res, ewm, running, faults, written)
    requires forall x :: x in M.Held(res) ==> x in ewm && !ewm[x].AssignedTo?
    ensures var o := M.ProcessReservations(res, ewm, running, now, faults);
      id in M.Held(Stored(res, o.res, written)) && HasRobot(o.ewm, id)
  {
    var j: nat :| M.AssignsAt(M.TraceOf(res, ewm, running, faults), res.assignments, faults, j)
                  && !(written && M.FaultAt(faults.assign, j) == M.Fine);
    id := res.assignments[j].id;
    AssignedIsHeldIff(res, ewm, running, now, faults, written, j);
    DeliverTouches(res, ewm, running, now, faults);
    AssignedIff(res, ewm, running, now, faults, id);
  }

  lemma HeldStaysInProcess(setup: Setup, s: State, t: State, step: Step, m: string, id: Ident)
    requires ExclusiveInv(setup, s) && KeptInProcess(s) && ExclusiveInv(setup, t)
    requires step.Deliver? && Delivers(s, t, step) && Recorded(s, step)
    requires m in t.store.reservations && id in M.Held(t.store.reservations[m])
    ensures id in t.ewm && t.ewm[id] in {M.InProcess, M.Done}
  {
    var n, res := step.name, s.store.reservations[step.name];
    var o := M.ProcessReservations(res, s.ewm, s.running, step.now, step.faults);
    AreProper(setup, s, n);
    StoredIs(s, t, step);
    DeliverTouches(res, s.ewm, s.running, step.now, step.faults);
    assert KeptReserved(t.store.reservations[m], t.ewm);
    if m != n {
      assert id !in M.Held(res);
    } else if t.ewm[id].AssignedTo? {
      assert id in M.Held(res);
      AssignedIff(res, s.ewm, s.running, step.now, step.faults, id);
      var j: nat :| M.AssignsAt(M.TraceOf(res, s.ewm, s.running, step.faults), res.assignments, step.faults, j)
                    && res.assignments[j].id == id;
      AssignedIsHeldIff(res, s.ewm, s.running, step.now, step.faults, step.written, j);
      assert false;
    }
  }

  lemma ReserveKeepsInProcess(s: State, t: State, step: Step)
    requires step.ReserveOrders? && ReservableFrom(s, step) && ReservesOrders(s, t, step) && KeptInProcess(s)
    ensures KeptInProcess(t)
  {
    forall n, id | n in t.store.reservations && id in M.Held(t.store.reservations[n])
      ensures id in t.ewm && t.ewm[id] in {M.InProcess, M.Done}
    {
      if n == step.name && step.written {
        NewOrdersAreFree(s, step, id);
      } else {
        assert n in s.store.reservations && id in M.Held(s.store.reservations[n]);
      }
    }
  }

  /** Reservations hold the orders they held before, or none. */
  ghost predicate HoldsNoMore(s: State, t: State) {
    forall n, id | n in t.store.reservations && id in M.Held(t.store.reservations[n]) ::
      n in s.store.reservations && id in M.Held(s.store.reservations[n])
  }

  lemma ReconcileHoldsNoMore(s: State, t: State, cfg: Config)
    requires ReservationsFrame(s.store, t.store, cfg)
    ensures HoldsNoMore(s, t)
  {
    forall n, id | n in t.store.reservations && id in M.Held(t.store.reservations[n])
      ensures n in s.store.reservations && id in M.Held(s.store.reservations[n])
    {
      assert Continues(s.store, t.store, n) || IsRequest(t.store.reservations[n], cfg);
    }
  }

  lemma FetchHoldsNoMore(s: State, t: State, step: Step)
    requires step.FetchTasks? && FetchesTasks(s, t, step)
    ensures HoldsNoMore(s, t)
  {
    var res := s.store.reservations[step.name];
    M.FetchingKeepsOrders(res, step.answers, step.validUntil);
    SameHeld(res, M.ProcessAccepted(res, step.answers, step.validUntil));
  }

  /** Held orders stay in process in the other steps: they are left alone, or finished. */
  lemma NoMoreInProcess(s: State, t: State)
    requires KeptInProcess(s) && HoldsNoMore(s, t)
    requires forall id :: id in s.ewm && s.ewm[id] in {M.InProcess, M.Done} ==>
               id in t.ewm && t.ewm[id] in {M.InProcess, M.Done}
    ensures KeptInProcess(t)
  {
  }

  lemma OthersKeepInProcess(setup: Setup, s: State, t: State, step: Step)
    requires ValidSetup(setup) && StoreInv(setup, s) && KeptInProcess(s) && Next(setup, s, t, step)
    requires !step.Deliver? && !step.ReserveOrders?
    ensures KeptInProcess(t)
  {
    if step.Reconcile? {
      ReconcileKeepsInv(setup.configs[step.owner], s.store, t.store, setup.fleet, step.round, step.course);
      ReconcileHoldsNoMore(s, t, setup.configs[step.owner]);
    } else if step.FetchTasks? {
      FetchHoldsNoMore(s, t, step);
    }
    NoMoreInProcess(s, t);
  }

  lemma StepKeepsInProcess(setup: Setup, s: State, t: State, step: Step)
    requires ValidSetup(setup) && ExclusiveInv(setup, s) && KeptInProcess(s) && Next(setup, s, t, step)
    requires Uninterrupted(s, step) && Recorded(s, step)
    ensures ExclusiveInv(setup, t) && KeptInProcess(t)
  {
    assert LeavesHeld(s, step);
    StepKeepsExclusive(setup, s, t, step);
    if step.Deliver? {
      DeliverKeepsInProcessIff(setup, s, t, step);
    } else if step.ReserveOrders? {
      ReserveKeepsInProcess(s, t, step);
    } else {
      OthersKeepInProcess(setup, s, t, step);
    }
  }

  /**
   * When moreover every assignment made in EWM is recorded, an order held is not with a robot
   * either, whichever orders are taken from their robots.
   */
  lemma {:induction false} RunsHoldOrdersInProcess(setup: Setup, states: seq<State>, steps: seq<Step>, i: nat)
    requires ValidSetup(setup) && Run(setup, states, steps) && Initial(states[0]) && i < |states|
    requires UninterruptedRun(states, steps) && forall j :: 0 <= j < |steps| ==> Recorded(states[j], steps[j])
    ensures ExclusiveInv(setup, states[i]) && KeptInProcess(states[i])
  {
    if i > 0 {
      RunsHoldOrdersInProcess(setup, states, steps, i - 1);
      StepKeepsInProcess(setup, states[i - 1], states[i], steps[i - 1]);
    } else {
      InitiallyExclusive(setup, states[0]);
    }
  }

  /* ---------- Listed once ---------- */

  /** A robot has the order or had it. */
  predicate SettledOrder(ewm: M.Ewm, id: Ident) {
    id in ewm && (ewm[id].AssignedTo? || ewm[id] == M.Done)
  }

  ghost predicate DeliveredSettled(res: Reservation, ewm: M.Ewm) {
    forall a :: a in res.delivered && a.id in Listed(res) ==> SettledOrder(ewm, a.id)
  }

  /** Reservations in process list different orders, also counting those delivered already. */
  ghost predicate ListedOnce(s: State) {
    && (forall m, n | m in s.store.reservations && n in s.store.reservations && m != n ::
          Listed(s.store.reservations[m]) !! Listed(s.store.reservations[n]))
    && (forall n | n in s.store.reservations :: DeliveredSettled(s.store.reservations[n], s.ewm))
  }

  /** No order is taken from its robot while a reservation in process still lists it. */
  ghost predicate LeavesListed(s: State, step: Step) {
    step.Unassign? ==> forall n | n in s.store.reservations :: step.id !in Listed(s.store.reservations[n])
  }

  lemma ListedStays(res: Reservation, ewm: M.Ewm, id: Ident)
    requires id in Listed(res) && KeptReserved(res, ewm) && DeliveredSettled(res, ewm)
    ensures id in ewm && ewm[id] != M.Open
    ensures id !in M.Held(res) ==> SettledOrder(ewm, id)
  {
  }

  lemma OneChangesLists(s: State, t: State, n: string, updated: Reservation)
    requires ListedOnce(s) && n in s.store.reservations && t.store == WithReservation(s.store, n, updated)
    requires DeliveredSettled(updated, t.ewm)
    requires forall m :: m in s.store.reservations && m != n ==>
               Listed(s.store.reservations[m]) !! Listed(updated) && DeliveredSettled(s.store.reservations[m], t.ewm)
    ensures ListedOnce(t)
  {
  }

  /** Settled orders stay settled while another reservation's orders are delivered or handed back. */
  lemma DeliverSettles(res: Reservation, ewm: M.Ewm, running: map<Ident, Robot>, now: int, faults: M.CallbackFaults,
                       id: Ident)
    requires res.status == Reservations && Proper(res) && SettledOrder(ewm, id)
    ensures SettledOrder(M.ProcessReservations(res, ewm, running, now, faults).ewm, id)
  {
    DeliverTouches(res, ewm, running, now, faults);
    assert KeptOrReleased(ewm, M.ProcessReservations(res, ewm, running, now, faults).ewm, id)
           || id in M.ProcessReservations(res, ewm, running, now, faults).ewm;
  }

  lemma NewlyDelivered(res: Reservation, ewm: M.Ewm, running: map<Ident, Robot>, now: int, faults: M.CallbackFaults,
                       id: Ident)
    requires res.status == Reservations && !M.IsDelivered(res.delivered, id)
    requires M.IsDelivered(M.ProcessReservations(res, ewm, running, now, faults).res.delivered, id)
    ensures SettledOrder(M.ProcessReservations(res, ewm, running, now, faults).ewm, id)
  {
    var o := M.ProcessReservations(res, ewm, running, now, faults);
    M.DeliveriesOnlyGrow(res, ewm, running, now, faults);
    var k :| 0 <= k < |o.res.delivered| && o.res.delivered[k].id == id;
    assert forall j :: 0 <= j < |res.delivered| ==> o.res.delivered[j] == res.delivered[j] && res.delivered[j].id != id;
    assert M.Holds(o.ewm, o.res.delivered[k]);
  }

  lemma DeliverKeepsLists(s: State, t: State, step: Step)
    requires step.Deliver? && Delivers(s, t, step) && Uninterrupted(s, step)
    requires ListedOnce(s) && Proper(s.store.reservations[step.name])
    ensures ListedOnce(t)
  {
    var n, res := step.name, s.store.reservations[step.name];
    var o := M.ProcessReservations(res, s.ewm, s.running, step.now, step.faults);
    M.CallbackFacts(res, s.ewm, s.running, step.now, step.faults);
    assert DeliveredSettled(res, s.ewm);
    forall a | a in o.res.delivered && a.id in Listed(o.res) ensures SettledOrder(o.ewm, a.id) {
      if M.IsDelivered(res.delivered, a.id) {
        var b :| b in res.delivered && b.id == a.id;
        DeliverSettles(res, s.ewm, s.running, step.now, step.faults, a.id);
      } else {
        NewlyDelivered(res, s.ewm, s.running, step.now, step.faults, a.id);
      }
    }
    forall m | m in s.store.reservations && m != n ensures DeliveredSettled(s.store.reservations[m], o.ewm) {
      assert DeliveredSettled(s.store.reservations[m], s.ewm);
      forall a | a in s.store.reservations[m].delivered && a.id in Listed(s.store.reservations[m])
        ensures SettledOrder(o.ewm, a.id)
      {
        DeliverSettles(res, s.ewm, s.running, step.now, step.faults, a.id);
      }
    }
    StoredIs(s, t, step);
    forall a | a in res.delivered && a.id in Listed(res) ensures SettledOrder(o.ewm, a.id) {
      DeliverSettles(res, s.ewm, s.running, step.now, step.faults, a.id);
    }
    OneChangesLists(s, t, n, Stored(res, o.res, step.written));
  }

  /** The listed orders of a request in process are free, too. */
  lemma ListedOrdersAreFree(s: State, step: Step, id: Ident)
    requires step.ReserveOrders? && ReservableFrom(s, step) && id in Listed(Reserving(s, step))
    ensures (id in s.ewm && s.ewm[id] == M.Open) || id !in M.ReservedBy(step.cache)
  {
    var updated := Reserving(s, step);
    var i :| 0 <= i < |updated.whos| && updated.whos[i].id == id;
    M.ReservesFound(s.store.reservations[step.name], step.existing, step.further.answer, M.ReservedBy(step.cache),
                    updated.whos[i]);
  }

  lemma ReservedOrderIsFree(s: State, step: Step, m: string, id: Ident)
    requires step.ReserveOrders? && ReservableFrom(s, step) && HeldOnce(s) && ListedOnce(s)
    requires m in s.store.reservations && m != step.name && id in Listed(s.store.reservations[m])
    ensures id !in Listed(Reserving(s, step))
  {
    var res := s.store.reservations[m];
    assert KeptReserved(res, s.ewm) && DeliveredSettled(res, s.ewm);
    ListedStays(res, s.ewm, id);
    assert Reserved(res.whos, id);
    CacheLists(s, step.cache, m, id);
    if id in Listed(Reserving(s, step)) {
      ListedOrdersAreFree(s, step, id);
      assert false;
    }
  }

  lemma ReserveKeepsLists(s: State, t: State, step: Step)
    requires step.ReserveOrders? && ReservableFrom(s, step) && ReservesOrders(s, t, step) && HeldOnce(s)
    requires ListedOnce(s)
    requires forall a :: a !in s.store.reservations[step.name].delivered
    ensures ListedOnce(t)
  {
    var n, updated := step.name, Reserving(s, step);
    forall m | m in s.store.reservations ensures DeliveredSettled(s.store.reservations[m], t.ewm) {
      assert DeliveredSettled(s.store.reservations[m], s.ewm);
    }
    forall m | m in s.store.reservations && m != n ensures Listed(s.store.reservations[m]) !! Listed(updated) {
      forall id | id in Listed(s.store.reservations[m]) ensures id !in Listed(updated) {
        ReservedOrderIsFree(s, step, m, id);
      }
    }
    if step.written {
      OneChangesLists(s, t, n, updated);
    }
  }

  lemma FetchKeepsLists(s: State, t: State, step: Step)
    requires step.FetchTasks? && FetchesTasks(s, t, step) && ListedOnce(s)
    ensures ListedOnce(t)
  {
    if step.written {
      var res := s.store.reservations[step.name];
      var updated := M.ProcessAccepted(res, step.answers, step.validUntil);
      M.FetchingKeepsOrders(res, step.answers, step.validUntil);
      SameHeld(res, updated);
      assert DeliveredSettled(res, s.ewm);
      OneChangesLists(s, t, step.name, updated);
    }
  }

  lemma ReconcileKeepsLists(s: State, t: State, cfg: Config)
    requires ListedOnce(s) && ReservationsFrame(s.store, t.store, cfg) && t.ewm == s.ewm
    ensures ListedOnce(t)
  {
  }

  lemma EwmKeepsLists(s: State, t: State, id: Ident)
    requires ListedOnce(s) && t.store == s.store
    requires forall x :: x != id ==> M.SameAt(t.ewm, s.ewm, x)
    requires (SettledOrder(s.ewm, id) ==> SettledOrder(t.ewm, id))
             || forall n :: n in s.store.reservations ==> id !in Listed(s.store.reservations[n])
    ensures ListedOnce(t)
  {
    forall n | n in t.store.reservations ensures DeliveredSettled(t.store.reservations[n], t.ewm) {
      assert DeliveredSettled(s.store.reservations[n], s.ewm);
      forall a | a in s.store.reservations[n].delivered && a.id in Listed(s.store.reservations[n])
        ensures SettledOrder(t.ewm, a.id)
      {
        assert a.id != id ==> M.SameAt(t.ewm, s.ewm, a.id);
      }
    }
  }

  lemma StepKeepsLists(setup: Setup, s: State, t: State, step: Step)
    requires ValidSetup(setup) && ExclusiveInv(setup, s) && ListedOnce(s) && Next(setup, s, t, step)
    requires Uninterrupted(s, step) && LeavesListed(s, step)
    ensures ListedOnce(t)
  {
    match step
    case Reconcile(owner, round, course) =>
      ReconcileKeepsInv(setup.configs[owner], s.store, t.store, setup.fleet, round, course);
      ReconcileKeepsLists(s, t, setup.configs[owner]);
    case ReserveOrders(n, _, _, _, _) =>
      NothingDelivered(setup, s, n);
      ReserveKeepsLists(s, t, step);
    case FetchTasks(_, _, _, _) =>
      FetchKeepsLists(s, t, step);
    case Deliver(n, _, _, _) =>
      AreProper(setup, s, n);
      DeliverKeepsLists(s, t, step);
    case Bid(_, _, _) =>
    case _ => OrderKeepsLists(setup, s, t, step);
  }

  lemma OrderKeepsLists(setup: Setup, s: State, t: State, step: Step)
    requires (step.Finish? || step.Unassign? || step.NewOrder?) && Next(setup, s, t, step)
    requires WellListed(s.store) && HeldOnce(s) && ListedOnce(s) && LeavesListed(s, step)
    ensures ListedOnce(t)
  {
    match step
    case Finish(id) => EwmKeepsLists(s, t, id);
    case Unassign(id) => EwmKeepsLists(s, t, id);
    case NewOrder(id) => EwmKeepsLists(s, t, id);
  }

  lemma NothingDelivered(setup: Setup, s: State, n: string)
    requires StoreInv(setup, s) && n in s.store.reservations && s.store.reservations[n].status in {Unset, New}
    ensures forall a :: a !in s.store.reservations[n].delivered
  {
  }

  ghost predicate UndisturbedRun(states: seq<State>, steps: seq<Step>)
    requires |states| == |steps| + 1
  {
    forall i :: 0 <= i < |steps| ==> LeavesListed(states[i], steps[i])
  }

  /**
   * When moreover no robot loses an order while the reservation that delivered it is still in
   * process, two reservations in process never list the same order.
   */
  lemma {:induction false} RunsListOrdersOnce(setup: Setup, states: seq<State>, steps: seq<Step>, i: nat)
    requires ValidSetup(setup) && Run(setup, states, steps) && Initial(states[0]) && i < |states|
    requires UninterruptedRun(states, steps) && UndisturbedRun(states, steps)
    ensures ListedOnce(states[i])
  {
    if i > 0 {
      RunsListOrdersOnce(setup, states, steps, i - 1);
      NextListsOnce(setup, states, steps, i - 1);
    }
  }

  lemma NextListsOnce(setup: Setup, states: seq<State>, steps: seq<Step>, i: nat)
    requires ValidSetup(setup) && Run(setup, states, steps) && Initial(states[0]) && i < |steps|
    requires UninterruptedRun(states, steps) && UndisturbedRun(states, steps) && ListedOnce(states[i])
    ensures ListedOnce(states[i + 1])
  {
    ListedHoldsHeld(states, steps);
    RunsHoldOrdersOnce(setup, states, steps, i);
    StepKeepsLists(setup, states[i], states[i + 1], steps[i]);
  }

  /** Orders that are held are listed. */
  lemma ListedHoldsHeld(states: seq<State>, steps: seq<Step>)
    requires |states| == |steps| + 1 && UndisturbedRun(states, steps)
    ensures HeldLeftRun(states, steps)
  {
    forall i | 0 <= i < |steps| ensures LeavesHeld(states[i], steps[i]) {
      assert LeavesListed(states[i], steps[i]);
      assert forall n | n in states[i].store.reservations ::
          M.Held(states[i].store.reservations[n]) <= Listed(states[i].store.reservations[n]);
    }
  }

  /* ---------- Without the condition ---------- */

  /**
   * A callback that leaves an order open always endangers exclusivity: its reservation holds the
   * order still, and any other request may reserve that order right away.
   */
  lemma OpenHeldReservesTwice(s: State, t: State, step: Step, m: string, cache: seq<Reservation>)
    returns (take: Step, u: State, id: Ident)
    requires HeldOnce(s) && step.Deliver? && Delivers(s, t, step)
    requires !Uninterrupted(s, step)
    requires m in t.store.reservations && m != step.name && t.store.reservations[m].status in {Unset, New}
    requires t.store.reservations[m].quantity >= 1 && t.store.reservations[m].delivered == []
    requires Elements(cache) == t.store.reservations.Values
    ensures take.ReserveOrders? && ReservesOrders(t, u, take)
    ensures id in M.Held(u.store.reservations[m]) && id in M.Held(u.store.reservations[step.name])
  {
    id := LeavesOneOpen(s, t, step);
    take, u := OpenOrderIsTaken(t, m, id, cache);
  }

  lemma LeavesOneOpen(s: State, t: State, step: Step) returns (id: Ident)
    requires HeldOnce(s) && step.Deliver? && Delivers(s, t, step)
    requires !Uninterrupted(s, step)
    ensures id in M.Held(t.store.reservations[step.name]) && id in t.ewm && t.ewm[id] == M.Open
  {
    var res := s.store.reservations[step.name];
    assert KeptReserved(res, s.ewm);
    M.HeldStaysReservedIff(res, s.ewm, s.running, step.now, step.faults, step.written);
    StoredIs(s, t, step);
    id :| id in M.Held(t.store.reservations[step.name]) && id in t.ewm && t.ewm[id] == M.Open;
  }

  /** Taking an order from its robot keeps the lists apart exactly when no reservation in process lists it. */
  lemma UnassignKeepsIff(setup: Setup, s: State, t: State, step: Step)
    requires ExclusiveInv(setup, s) && ListedOnce(s) && step.Unassign? && Next(setup, s, t, step)
    ensures HeldOnce(t) && ListedOnce(t) <==> LeavesListed(s, step)
  {
    if LeavesListed(s, step) {
      assert forall n | n in s.store.reservations :: M.Held(s.store.reservations[n]) <= Listed(s.store.reservations[n]);
      EwmKeepsHeldOnce(s, t, step.id);
      EwmKeepsLists(s, t, step.id);
    } else {
      var n :| n in s.store.reservations && step.id in Listed(s.store.reservations[n]);
      if HeldOnce(t) && ListedOnce(t) {
        ListedStays(t.store.reservations[n], t.ewm, step.id);
        assert false;
      }
    }
  }

  /** Otherwise any other request may list the order, too. */
  lemma UnassignListsTwice(setup: Setup, s: State, t: State, step: Step, n: string, m: string, cache: seq<Reservation>)
    returns (take: Step, u: State)
    requires step.Unassign? && Next(setup, s, t, step) && n in s.store.reservations
    requires step.id in Listed(s.store.reservations[n])
    requires m in s.store.reservations && m != n && s.store.reservations[m].status in {Unset, New}
    requires s.store.reservations[m].quantity >= 1 && s.store.reservations[m].delivered == []
    requires Elements(cache) == s.store.reservations.Values
    ensures take.ReserveOrders? && ReservesOrders(t, u, take)
    ensures step.id in Listed(u.store.reservations[m]) && step.id in Listed(u.store.reservations[n])
  {
    take, u := OpenOrderIsTaken(t, m, step.id, cache);
  }

  /** A request may take any open order. */
  lemma OpenOrderIsTaken(t: State, m: string, id: Ident, cache: seq<Reservation>) returns (take: Step, u: State)
    requires m in t.store.reservations && t.store.reservations[m].status in {Unset, New} && id in t.ewm
    requires t.ewm[id] == M.Open
    requires t.store.reservations[m].quantity >= 1 && t.store.reservations[m].delivered == []
    requires Elements(cache) == t.store.reservations.Values
    ensures take.ReserveOrders? && ReservesOrders(t, u, take) && take.name == m && id in M.Held(u.store.reservations[m])
    ensures forall n :: n in t.store.reservations && n != m ==>
              n in u.store.reservations && u.store.reservations[n] == t.store.reservations[n]
  {
    var w := WarehouseOrder(id, 0, []);
    assert M.Idents([w]) == [id];
    take := ReserveOrders(m, M.NoOrders, Further(M.Orders([w]), {id}), cache, true);
    var updated := Reserving(t, take);
    assert updated.whos == [w] && updated.whos[0].id == id && updated.status == Accepted;
    HeldIs(updated, id);
    u := State(WithReservation(t.store, m, updated), SetInProcess(t.ewm, {id}), t.running);
  }
}
