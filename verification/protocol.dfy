/**
 * The order auction protocol as a whole: auctioneers, order manager, bidding robots and EWM
 * take turns on the shared resources. What every step keeps holds over every run.
 */
module Protocol {
  import opened Common
  import opened Warehouse
  import opened AuctionCycle
  import M = ReservationManager

  datatype State = State(store: Store, ewm: M.Ewm, running: map<Ident, Robot>)

  /** Which robots work for which auctioneer, and how the auctioneers are configured. */
  datatype Setup = Setup(fleet: Fleet, configs: map<string, Config>)

  /** What EWM did and answered when it was asked for more orders. */
  datatype Further = Further(answer: M.Listing, taken: set<Ident>)

  datatype Step =
    | Reconcile(owner: string, round: Round, course: Course)
    | ReserveOrders(name: string, existing: M.Listing, further: Further, cache: seq<Reservation>, written: bool)
    | FetchTasks(name: string, answers: seq<Option<seq<string>>>, validUntil: int, written: bool)
    | Deliver(name: string, now: int, faults: M.CallbackFaults, written: bool)
    | Bid(key: Key, biddings: seq<Bidding>, completed: bool)
    | Finish(id: Ident)
    | Unassign(id: Ident)
    | NewOrder(id: Ident)

  ghost predicate ValidSetup(setup: Setup) {
    && Scoped(setup.fleet) && setup.configs.Keys == setup.fleet.Keys
    && forall o :: o in setup.configs ==> setup.configs[o].owner == o
  }

  /* ---------- The steps ---------- */

  /** EWM lists every order once, and only orders in the given state. */
  ghost predicate AllIn(ewm: M.Ewm, whos: seq<WarehouseOrder>, state: M.OrderState) {
    && NoDuplicates(M.Idents(whos))
    && forall i :: 0 <= i < |whos| ==> whos[i].id in ewm && ewm[whos[i].id] == state
  }

  function WithReservation(s: Store, n: string, res: Reservation): Store {
    s.(reservations := s.reservations[n := res])
  }

  /** EWM sets the orders it hands out in process. */
  function SetInProcess(ewm: M.Ewm, taken: set<Ident>): M.Ewm {
    map id | id in ewm :: if id in taken then M.InProcess else ewm[id]
  }

  /** An answer lists open orders, which are in process from then on; without an answer some may be, too. */
  ghost predicate Hands(ewm: M.Ewm, further: Further) {
    && (forall id :: id in further.taken ==> id in ewm && ewm[id] == M.Open)
    && (further.answer.Orders? ==>
          AllIn(ewm, further.answer.whos, M.Open) && forall w :: w in further.answer.whos ==> w.id in further.taken)
  }

  /** A reconcile sees the robots of its scope and the orders running on them. */
  ghost predicate SeesRobots(setup: Setup, owner: string, r: Round, running: map<Ident, Robot>) {
    && owner in setup.fleet && owner in setup.configs
    && r.rs.available <= r.rs.inScope <= setup.fleet[owner]
    && forall robot :: At(r.opr, robot) == if robot in r.rs.inScope then |RunningOn(running, robot)| else 0
  }

  ghost predicate ReservesOrders(s: State, t: State, step: Step)
    requires step.ReserveOrders?
  {
    && step.name in s.store.reservations && s.store.reservations[step.name].status in {Unset, New}
    && Elements(step.cache) == s.store.reservations.Values
    && (step.existing.Orders? ==> AllIn(s.ewm, step.existing.whos, M.InProcess))
    && Hands(s.ewm, step.further)
    && var updated := M.ProcessNew(s.store.reservations[step.name], step.existing, step.further.answer,
                                   M.ReservedBy(step.cache));
       t == State(if step.written then WithReservation(s.store, step.name, updated) else s.store,
                  SetInProcess(s.ewm, step.further.taken), s.running)
  }

  ghost predicate FetchesTasks(s: State, t: State, step: Step)
    requires step.FetchTasks?
  {
    && step.name in s.store.reservations && s.store.reservations[step.name].status == Accepted
    && |step.answers| == |s.store.reservations[step.name].whos|
    && t == if step.written then
              s.(store := WithReservation(s.store, step.name,
                 M.ProcessAccepted(s.store.reservations[step.name], step.answers, step.validUntil)))
            else s
  }

  ghost predicate Delivers(s: State, t: State, step: Step)
    requires step.Deliver?
  {
    && step.name in s.store.reservations && s.store.reservations[step.name].status == Reservations
    && var o := M.ProcessReservations(s.store.reservations[step.name], s.ewm, s.running, step.now, step.faults);
       t == State(if step.written then WithReservation(s.store, step.name, o.res) else s.store, o.ewm, o.running)
  }

  ghost predicate Next(setup: Setup, s: State, t: State, step: Step) {
    match step
    case Reconcile(owner, round, course) =>
      && SeesRobots(setup, owner, round, s.running)
      && Reconciles(setup.configs[owner], s.store, t.store, round, course) && t == s.(store := t.store)
    case ReserveOrders(_, _, _, _, _) => ReservesOrders(s, t, step)
    case FetchTasks(_, _, _, _) => FetchesTasks(s, t, step)
    case Deliver(_, _, _, _) => Delivers(s, t, step)
    case Bid(key, biddings, completed) =>
      && key in s.store.auctions
      && var oa := s.store.auctions[key].(biddings := biddings, bidCompleted := completed);
         t == s.(store := s.store.(auctions := s.store.auctions[key := oa]))
    case Finish(id) =>
      id in s.ewm && s.ewm[id] != M.Open && t == s.(ewm := s.ewm[id := M.Done], running := s.running - {id})
    case Unassign(id) =>
      id in s.ewm && s.ewm[id].AssignedTo? && t == s.(ewm := s.ewm[id := M.Open], running := s.running - {id})
    case NewOrder(id) =>
      id !in s.ewm && t == s.(ewm := s.ewm[id := M.Open])
  }

  /** A run: consecutive states are linked by the listed steps. */
  ghost predicate Run(setup: Setup, states: seq<State>, steps: seq<Step>) {
    && |states| == |steps| + 1
    && forall i :: 0 <= i < |steps| ==> Next(setup, states[i], states[i + 1], steps[i])
  }

  ghost predicate Initial(s: State) {
    s.store == Store(map[], map[]) && s.running == map[] && forall id :: id in s.ewm ==> s.ewm[id] == M.Open
  }

  /* ---------- One auction per robot, one request per auctioneer: any failures ---------- */

  /** Deliveries come from the assignments of the auctioneer. */
  ghost predicate DeliveredAssigned(s: Store) {
    forall n :: n in s.reservations ==>
      forall a :: a in s.reservations[n].delivered ==> a in s.reservations[n].assignments
  }

  /** What a callback of the order manager may do to a reservation. */
  ghost predicate Advances(res: Reservation, updated: Reservation) {
    && updated.owner == res.owner && updated.scope == res.scope && updated.assignments == res.assignments
    && (Pending(updated.status) ==> Pending(res.status))
    && res.status in {Unset, New, Accepted, Reservations}
    && (res.assignments != [] && res.status == Reservations ==> updated.status in {Reservations, Succeeded})
    && (forall a :: a in updated.delivered ==> a in res.delivered || a in res.assignments)
  }

  lemma UpdateKeepsInv(s: Store, fleet: Fleet, n: string, updated: Reservation)
    requires Inv(s, fleet) && n in s.reservations && Advances(s.reservations[n], updated)
    ensures Inv(WithReservation(s, n, updated), fleet)
  {
    var t := WithReservation(s, n, updated);
    ParticipantsKept(s, t);
    UpdateKeepsRequests(s, n, updated);
    assert Rooted(t, fleet) && CompletedAfterwards(t);
  }

  lemma UpdateKeepsRequests(s: Store, n: string, updated: Reservation)
    requires OneRequestPerScope(s) && n in s.reservations && Advances(s.reservations[n], updated)
    ensures OneRequestPerScope(WithReservation(s, n, updated))
  {
  }

  lemma DeliverAdvances(res: Reservation, ewm: M.Ewm, running: map<Ident, Robot>, now: int, faults: M.CallbackFaults)
    requires res.status == Reservations
    ensures Advances(res, M.ProcessReservations(res, ewm, running, now, faults).res)
  {
    M.NothingReservedIsLost(res, ewm, running, now, faults);
    M.DeliveriesOnlyGrow(res, ewm, running, now, faults);
  }

  /** Every reservation asks for orders of the scope its auctioneer is configured for. */
  ghost predicate InScope(s: Store, configs: map<string, Config>) {
    forall n :: n in s.reservations ==>
      s.reservations[n].owner in configs && s.reservations[n].scope == configs[s.reservations[n].owner].scope
  }

  /** No auctioneer waits for two reservations. */
  ghost predicate OneRequestPerOwner(s: Store) {
    forall m, n | m in s.reservations && n in s.reservations
      && Pending(s.reservations[m].status) && Pending(s.reservations[n].status)
      && s.reservations[m].owner == s.reservations[n].owner :: m == n
  }

  ghost predicate StoreInv(setup: Setup, s: State) {
    Inv(s.store, setup.fleet) && DeliveredAssigned(s.store) && InScope(s.store, setup.configs)
  }

  lemma CallbackKeepsStoreInv(setup: Setup, s: State, t: State, n: string, updated: Reservation)
    requires StoreInv(setup, s) && n in s.store.reservations && Advances(s.store.reservations[n], updated)
    requires t.store == WithReservation(s.store, n, updated)
    ensures StoreInv(setup, t)
  {
    UpdateKeepsInv(s.store, setup.fleet, n, updated);
  }

  lemma BidKeepsInv(s: Store, fleet: Fleet, key: Key, oa: OrderAuction)
    requires Inv(s, fleet) && key in s.auctions
    requires oa == s.auctions[key].(biddings := oa.biddings, bidCompleted := oa.bidCompleted)
    ensures Inv(s.(auctions := s.auctions[key := oa]), fleet)
  {
    var t := s.(auctions := s.auctions[key := oa]);
    ParticipantsKept(s, t);
    assert Rooted(t, fleet) && CompletedAfterwards(t) && OneAuctionPerRobot(t);
  }

  lemma ReconcileKeepsDelivered(s: Store, t: Store, cfg: Config)
    requires DeliveredAssigned(s) && ReservationsFrame(s, t, cfg)
    ensures DeliveredAssigned(t)
  {
  }

  lemma ReconcileKeepsScope(s: Store, t: Store, configs: map<string, Config>, owner: string)
    requires InScope(s, configs) && owner in configs && configs[owner].owner == owner
    requires ReservationsFrame(s, t, configs[owner])
    ensures InScope(t, configs)
  {
  }

  lemma ReconcileKeepsStoreInv(setup: Setup, s: State, t: State, step: Step)
    requires ValidSetup(setup) && StoreInv(setup, s) && step.Reconcile? && Next(setup, s, t, step)
    ensures StoreInv(setup, t)
  {
    ReconcileKeepsInv(setup.configs[step.owner], s.store, t.store, setup.fleet, step.round, step.course);
    ReconcileKeepsDelivered(s.store, t.store, setup.configs[step.owner]);
    ReconcileKeepsScope(s.store, t.store, setup.configs, step.owner);
  }

  lemma ReserveKeepsStoreInv(setup: Setup, s: State, t: State, step: Step)
    requires StoreInv(setup, s) && step.ReserveOrders? && ReservesOrders(s, t, step)
    ensures StoreInv(setup, t)
  {
    if step.written {
      var res := s.store.reservations[step.name];
      CallbackKeepsStoreInv(setup, s, t, step.name,
                            M.ProcessNew(res, step.existing, step.further.answer, M.ReservedBy(step.cache)));
    }
  }

  lemma DeliverKeepsStoreInv(setup: Setup, s: State, t: State, step: Step)
    requires StoreInv(setup, s) && step.Deliver? && Delivers(s, t, step)
    ensures StoreInv(setup, t)
  {
    var res := s.store.reservations[step.name];
    DeliverAdvances(res, s.ewm, s.running, step.now, step.faults);
    if step.written {
      CallbackKeepsStoreInv(setup, s, t, step.name,
                            M.ProcessReservations(res, s.ewm, s.running, step.now, step.faults).res);
    }
  }

  lemma StepKeepsStoreInv(setup: Setup, s: State, t: State, step: Step)
    requires ValidSetup(setup) && StoreInv(setup, s) && Next(setup, s, t, step)
    ensures StoreInv(setup, t)
  {
    match step
    case Reconcile(_, _, _) => ReconcileKeepsStoreInv(setup, s, t, step);
    case ReserveOrders(_, _, _, _, _) => ReserveKeepsStoreInv(setup, s, t, step);
    case FetchTasks(n, answers, validUntil, written) =>
      if written {
        CallbackKeepsStoreInv(setup, s, t, n, M.ProcessAccepted(s.store.reservations[n], answers, validUntil));
      }
    case Deliver(_, _, _, _) => DeliverKeepsStoreInv(setup, s, t, step);
    case Bid(key, biddings, completed) =>
      BidKeepsInv(s.store, setup.fleet, key, s.store.auctions[key].(biddings := biddings, bidCompleted := completed));
    case Finish(_) =>
    case Unassign(_) =>
    case NewOrder(_) =>
  }

  /**
   * In every reachable state, whatever calls and writes failed: a robot takes part in one
   * uncompleted auction at most, an auctioneer waits for one reservation at most, assignments
   * go to different robots of their auction, and only assigned orders are recorded as delivered.
   */
  lemma {:induction false} RunsKeepStoreInv(setup: Setup, states: seq<State>, steps: seq<Step>, i: nat)
    requires ValidSetup(setup) && Run(setup, states, steps) && Initial(states[0]) && i < |states|
    ensures OneAuctionPerRobot(states[i].store) && OneRequestPerOwner(states[i].store)
    ensures AssignedToParticipants(states[i].store) && DeliveredAssigned(states[i].store)
    ensures StoreInv(setup, states[i])
  {
    if i > 0 {
      RunsKeepStoreInv(setup, states, steps, i - 1);
      StepKeepsStoreInv(setup, states[i - 1], states[i], steps[i - 1]);
    }
  }
}
