/**
 * The first auction of an auctioneer, from the request for orders to the winner, while a second
 * request is made. No call fails.
 */
module FirstAuction {
  import opened Common
  import opened StableSorting
  import opened Warehouse
  import opened AuctionCycle
  import opened Protocol
  import M = ReservationManager
  import Winners

  /* ---------- The resources ---------- */

  /** One auctioneer with two robots, each of which may work on one order at a time. */
  function Single(): Config {
    Config("auctioneer", Scope("lgnum", "rsrctype", "rsrcgrp"), 1, 1, 1)
  }

  /** A second robot, which is not there when orders are auctioned. */
  function Spare(r: Robot): Robot {
    r + "2"
  }

  function SingleSetup(r: Robot): Setup {
    Setup(map["auctioneer" := {r, Spare(r)}], map["auctioneer" := Single()])
  }

  function Won(id: Ident, r: Robot): OrderAssignment {
    OrderAssignment(id, Upper(r))
  }

  /** A reservation of one order. */
  function Requesting(id: Ident, status: ReservationStatus, assignments: seq<OrderAssignment>,
                      delivered: seq<OrderAssignment>): Reservation {
    Reservation("auctioneer", 0, Single().scope, 3, assignments, status, 100, [WarehouseOrder(id, 0, [])], delivered)
  }

  /** A new request for orders. */
  function Request(): Reservation {
    Reservation("auctioneer", 0, Single().scope, 3, [], Unset, 0, [], [])
  }

  /** The robot's part in the auction of one order, with or without its bid. */
  function Auctioned(id: Ident, r: Robot, status: AuctionStatus, bids: seq<Bidding>): OrderAuction {
    OrderAuction(r, [WarehouseOrder(id, 0, [])], status, 90, bids != [], bids)
  }

  function Two(a: Reservation, b: Reservation, auctions: map<Key, OrderAuction>): Store {
    Store(map["a" := a, "b" := b], auctions)
  }

  /** Two orders in EWM, and nothing in the cluster. */
  function Unrequested(x: Ident, y: Ident): State {
    State(Store(map[], map[]), map[x := M.Open, y := M.Open], map[])
  }

  /** Order x is for reservation a, the only one. */
  function Alone(x: Ident, y: Ident, a: Reservation, auctions: map<Key, OrderAuction>, order: M.OrderState): State {
    State(Store(map["a" := a], auctions), map[x := order, y := M.Open], map[])
  }

  /** Order x is for reservation a, order y for reservation b. */
  function Beside(x: Ident, y: Ident, a: Reservation, b: Reservation, auction: OrderAuction, other: M.OrderState): State
  {
    State(Two(a, b, map[Key("a", auction.robot) := auction]), map[x := M.InProcess, y := other], map[])
  }

  /* ---------- Parts of runs ---------- */

  /** The step neither delivers orders nor takes one from its robot. */
  predicate Prepares(step: Step) {
    !step.Deliver? && !step.Unassign?
  }

  lemma ReservingHappens(setup: Setup, s: State, t: State, step: Step)
    requires step.ReserveOrders? && ReservesOrders(s, t, step)
    ensures Run(setup, [s, t], [step])
  {
  }

  /** A reconcile of an auctioneer that sees these robots, without running orders; no call fails. */
  function Seeing(robots: set<Robot>, name: string): Round {
    Round(RobotStates(robots, robots), map[], 0, name, Failures({}, {}, {}, {}, {}, false))
  }

  lemma ReconcileHappens(s: State, t: State, r: Robot, round: Round, course: Course)
    requires round in {Seeing({r}, round.newName), Seeing({r, Spare(r)}, round.newName)}
    requires Reconciles(Single(), s.store, t.store, round, course) && s.running == map[] && t == s.(store := t.store)
    ensures Run(SingleSetup(r), [s, t], [Reconcile("auctioneer", round, course)])
  {
    assert forall robot :: RunningOn(map[], robot) == {};
    OneReconcile(SingleSetup(r), s, t, Reconcile("auctioneer", round, course));
  }

  lemma OneReconcile(setup: Setup, s: State, t: State, step: Step)
    requires step.Reconcile? && SeesRobots(setup, step.owner, step.round, s.running) && t == s.(store := t.store)
    requires Reconciles(setup.configs[step.owner], s.store, t.store, step.round, step.course)
    ensures Run(setup, [s, t], [step])
  {
  }

  /** A run goes on where another one ends. */
  lemma RunsJoin(setup: Setup, a: seq<State>, b: seq<State>, begin: seq<Step>, end: seq<Step>)
    requires Run(setup, a, begin) && Run(setup, b, end) && a[|a| - 1] == b[0]
    ensures Run(setup, a + b[1..], begin + end)
  {
    var n, states, steps := |begin|, a + b[1..], begin + end;
    forall i | 0 <= i < |steps| ensures Next(setup, states[i], states[i + 1], steps[i]) {
      if i < n {
        assert Next(setup, a[i], a[i + 1], begin[i]);
      } else {
        assert Next(setup, b[i - n], b[i - n + 1], end[i - n]);
      }
    }
  }

  /* ---------- Parts of reconciles ---------- */

  function OneIn(name: string, a: Class, c: Class): seq<string> {
    if a == c then [name] else []
  }

  /** The class of the only reservation. */
  lemma OneClass(s: Store, round: Round, course: Course, a: Class, c: Class)
    requires course.names == ["a"] && s.reservations.Keys == {"a"}
    requires ClassOf(s, "a", round.rs.available, round.now) == a
    ensures InClass(s, c, round, course) == OneIn("a", a, c)
  {
    assert ["a"][..0] == [] && WithClass(s, [], c, round.rs.available, round.now) == [];
  }

  /** Two classified reservations in the order of the list. */
  lemma TwoClasses(s: Store, round: Round, course: Course, a: Class, b: Class, c: Class)
    requires course.names == ["a", "b"] && s.reservations.Keys == {"a", "b"}
    requires ClassOf(s, "a", round.rs.available, round.now) == a && ClassOf(s, "b", round.rs.available, round.now) == b
    ensures InClass(s, c, round, course) == OneIn("a", a, c) + OneIn("b", b, c)
  {
    var available, now := round.rs.available, round.now;
    assert ["a", "b"][..1] == ["a"] && ["a"][..0] == [];
    assert WithClass(s, [], c, available, now) == [];
    assert WithClass(s, ["a"], c, available, now) == OneIn("a", a, c);
  }

  lemma NothingDeleted(s: Store, round: Round, course: Course)
    requires InClass(s, Inconsistent, round, course) == []
    ensures AfterDeletion(s, round, course) == s
  {
    var t := WithoutReservations(s, {});
    assert t.reservations == s.reservations && t.auctions == s.auctions;
  }

  /** Nothing is inconsistent, and nothing is completed. */
  lemma NothingCompleted(s: Store, round: Round, course: Course)
    requires InClass(s, Inconsistent, round, course) == [] && InClass(s, ToComplete, round, course) == []
    ensures AfterDeletion(s, round, course) == s && AfterCompletion(s, round, course) == s
  {
    NothingDeleted(s, round, course);
    assert WithStatus(s, {}, round.f.completions, AuctionCompleted).auctions == s.auctions;
  }

  lemma NothingCleaned(s: Store, completed: seq<string>, f: Failures)
    requires |completed| <= 1
    ensures CleanedUp(s, completed, f) == s
  {
    SortKeepsElements(completed, AgeKey(s));
  }

  /** Without a robot that needs orders nothing is requested, and nothing is cleaned up. */
  lemma NothingElse(s: Store, created: (Store, map<Robot, int>), round: Round, course: Course)
    requires |InClass(s, ToComplete, round, course)| <= 1 && Willing(round.opr, created.1, Single(), round.rs) == {}
    ensures AfterCreation(Single(), s, created, round, course) == created.0
  {
    assert !AuctionCycle.ReserveOrders(round.opr, created.1, Single(), round.rs);
    NothingCleaned(created.0, InClass(s, ToComplete, round, course), round.f);
  }

  /** A robot that takes part in an auction needs no orders. */
  lemma BusyIsUnwilling(r: Robot)
    ensures Willing(map[], map[r := 1], Single(), RobotStates({r}, {r})) == {}
  {
  }

  /** One robot needs orders. */
  lemma RequestIsMade(s: Store, counts: map<Robot, int>, q: Robot, round: Round, course: Course)
    requires round == Seeing(round.rs.available, round.newName) && round.newName !in s.reservations
    requires Willing(map[], counts, Single(), round.rs) == {q}
    requires InClass(s, Waiting, round, course) == [] && InClass(s, ToComplete, round, course) == []
    ensures AfterCreation(Single(), s, (s, counts), round, course)
            == s.(reservations := s.reservations[round.newName := Request()])
  {
    assert q in Willing(map[], counts, Single(), round.rs) && At(map[], q) == 0;
    assert AuctionCycle.ReserveOrders(map[], counts, Single(), round.rs);
    NothingCleaned(s.(reservations := s.reservations[round.newName := Request()]), [], round.f);
  }

  /** How a reconcile proceeds, as far as these auctions are closed and opened. */
  lemma ReconcilesAs(s: Store, t: Store, round: Round, course: Course, toClose: seq<string>, toCreate: seq<string>)
    requires Elements(course.names) == OwnedNames(s, "auctioneer") && NoDuplicates(course.names)
    requires CountsCompleted(s, "auctioneer", round, course)
    requires InClass(s, ToClose, round, course) == toClose && InClass(s, ToCreate, round, course) == toCreate
    requires ClosingTrace(course.closing, toClose, round.rs, round.now, round.f)
    requires course.closing[0] == AfterCompletion(s, round, course)
    requires t == AfterCreation(Single(), s,
                                CreateUpTo(course.closing[|toClose|], course.counts, toCreate, |toCreate|, round.opr,
                                           Single(), round.rs, round.f), round, course)
    ensures Reconciles(Single(), s, t, round, course)
  {
  }

  /* ---------- Winning ---------- */

  /** The only bid for the only order wins. */
  lemma OnlyBidWins(y: Ident, r: Robot, crs: seq<OrderAuction>, whos: seq<WarehouseOrder>)
    requires crs == [Auctioned(y, r, AuctionOpen, [Bidding(y, 1.0)])] && whos == [WarehouseOrder(y, 0, [])]
    ensures Winners.Outcome(whos, crs, {r}, 0, [Winners.Award(r, y, -1, 0)], 0)
    ensures Winners.Assignments([Winners.Award(r, y, -1, 0)]) == [Won(y, r)]
  {
    OnlyBidSorted(y, r, crs, whos);
    assert whos[0].id == y && crs[0].robot == r && r in Winners.RobotsIn(crs);
    var bids, awards := Winners.SortedBids(crs, whos, {r}), [Winners.Award(r, y, -1, 0)];
    OnlyBidSettled(y, r, whos, bids, awards[0]);
    assert {r} * Winners.RobotsIn(crs) == {r};
    OnlyAwardIs(awards, bids, y, r);
  }

  lemma OnlyAwardIs(awards: seq<Winners.Award>, bids: seq<Winners.RobotBid>, y: Ident, r: Robot)
    requires awards == [Winners.Award(r, y, -1, 0)] && |bids| == 1 && Winners.Settled(awards, 0, bids[0], 0)
    ensures forall i :: 0 <= i < |bids| ==> Winners.Settled(awards, 0, bids[i], i)
    ensures Winners.Assignments(awards) == [Won(y, r)]
  {
  }

  /** What the only award promises. */
  lemma OnlyBidSettled(y: Ident, r: Robot, whos: seq<WarehouseOrder>, bids: seq<Winners.RobotBid>, award: Winners.Award)
    requires bids == [Winners.RobotBid(r, y, 1.0)] && award == Winners.Award(r, y, -1, 0) && Reserved(whos, y)
    ensures Winners.Sound([award], bids, whos, {r}) && Winners.OverdueAwards([award], 0, bids, [])
    ensures Winners.Settled([award], 0, bids[0], 0)
  {
    assert [award][0] == award;
  }

  lemma OnlyBidSorted(y: Ident, r: Robot, crs: seq<OrderAuction>, whos: seq<WarehouseOrder>)
    requires crs == [Auctioned(y, r, AuctionOpen, [Bidding(y, 1.0)])] && whos == [WarehouseOrder(y, 0, [])]
    ensures Winners.SortedBids(crs, whos, {r}) == [Winners.RobotBid(r, y, 1.0)]
    ensures Winners.SortedOverdue(whos, 0) == []
  {
    OnlyBidAccepted(y, r, crs, whos);
    OneSorted(Winners.RobotBid(r, y, 1.0), Winners.BidValue);
    assert Winners.Overdue(whos, 0) == [];
  }

  lemma OnlyBidAccepted(y: Ident, r: Robot, crs: seq<OrderAuction>, whos: seq<WarehouseOrder>)
    requires crs == [Auctioned(y, r, AuctionOpen, [Bidding(y, 1.0)])] && whos == [WarehouseOrder(y, 0, [])]
    ensures Winners.Accepted(crs, whos, {r}) == [Winners.RobotBid(r, y, 1.0)]
  {
    assert whos[0].id == y && crs[..0] == [] && crs[0].biddings[..0] == [];
    assert Winners.AcceptedOf(r, [], whos) == [];
    assert Winners.AcceptedOf(r, crs[0].biddings, whos) == [Winners.RobotBid(r, y, 1.0)];
  }

  lemma OneSorted<T>(x: T, key: T -> real)
    ensures StableSort([x], key) == [x]
  {
    assert [x][..0] == [];
    assert StableSort([], key) == [];
  }

  /** The auction of one order is closed with the only bid. */
  lemma WinnerCloses(s: Store, t: Store, n: string, id: Ident, r: Robot, round: Round, closing: seq<Store>)
    requires n in s.reservations && s.reservations[n].whos == [WarehouseOrder(id, 0, [])]
    requires ResourcesOf(s, n) == {Auctioned(id, r, AuctionOpen, [Bidding(id, 1.0)])}
    requires round == Seeing({r}, round.newName) && t == Closed(s, n, [Won(id, r)], round.f) && closing == [s, t]
    ensures ClosingTrace(closing, [n], round.rs, round.now, round.f)
  {
    var crs, awards := [Auctioned(id, r, AuctionOpen, [Bidding(id, 1.0)])], [Winners.Award(r, id, -1, 0)];
    assert Elements(crs) == {crs[0]};
    OnlyBidWins(id, r, crs, s.reservations[n].whos);
    ClosesWith(s, t, n, crs, awards, round);
    OneClosing(s, t, n, round, closing);
  }

  lemma ClosesWith(s: Store, t: Store, n: string, crs: seq<OrderAuction>, awards: seq<Winners.Award>, round: Round)
    requires n in s.reservations && Lists(s, n, crs)
    requires Winners.Outcome(s.reservations[n].whos, crs, round.rs.available, round.now, awards, 0)
    requires t == Closed(s, n, Winners.Assignments(awards), round.f)
    ensures CloseStep(s, t, n, round.rs, round.now, round.f)
  {
  }

  lemma OneClosing(s: Store, t: Store, n: string, round: Round, closing: seq<Store>)
    requires CloseStep(s, t, n, round.rs, round.now, round.f) && closing == [s, t]
    ensures ClosingTrace(closing, [n], round.rs, round.now, round.f)
  {
  }

  /* ---------- The first request ---------- */

  lemma Requests(x: Ident, y: Ident, r: Robot) returns (step: Step)
    ensures Run(SingleSetup(r), [Unrequested(x, y), Alone(x, y, Request(), map[], M.Open)], [step]) && Prepares(step)
  {
    var s, t := Unrequested(x, y), Alone(x, y, Request(), map[], M.Open);
    var round, course := Seeing({r}, "a"), Course([], map[], [s.store]);
    NothingCompleted(s.store, round, course);
    assert Willing(map[], map[], Single(), round.rs) == {r};
    RequestIsMade(s.store, map[], r, round, course);
    ReconcilesAs(s.store, t.store, round, course, [], []);
    step := Reconcile("auctioneer", round, course);
    ReconcileHappens(s, t, r, round, course);
  }

  /** Order id is found for the request; others in process are reserved already. */
  lemma ReservingFinds(s: State, t: State, n: string, id: Ident, step: Step)
    requires n in s.store.reservations && s.store.reservations[n] == Request() && id in s.ewm && s.ewm[id] == M.Open
    requires step.ReserveOrders? && step.name == n && step.written
    requires step.further == Further(M.Orders([WarehouseOrder(id, 0, [])]), {id})
    requires Elements(step.cache) == s.store.reservations.Values
    requires step.existing.Orders? && AllIn(s.ewm, step.existing.whos, M.InProcess)
    requires forall w :: w in step.existing.whos ==> w.id in M.ReservedBy(step.cache)
    requires t == State(WithReservation(s.store, n, Found(id)), s.ewm[id := M.InProcess], s.running)
    ensures ReservesOrders(s, t, step)
  {
    var kept, whos := M.Unreserved(step.existing.whos, M.ReservedBy(step.cache)), [WarehouseOrder(id, 0, [])];
    assert forall w :: w !in kept;
    NoElement(kept);
    assert kept + whos == whos && SetInProcess(s.ewm, {id}) == t.ewm;
  }

  lemma NoElement<T>(s: seq<T>)
    ensures s == [] || exists x :: x in s
  {
    assert s != [] ==> s[0] in s;
  }

  /** An order was found, its tasks were not fetched yet. */
  function Found(id: Ident): Reservation {
    Requesting(id, Accepted, [], []).(validUntil := 0)
  }

  lemma FetchingFinds(s: State, t: State, n: string, id: Ident, step: Step)
    requires n in s.store.reservations && s.store.reservations[n] == Found(id)
    requires step == FetchTasks(n, [Some([])], 100, true)
    requires t == s.(store := WithReservation(s.store, n, Requesting(id, Reservations, [], [])))
    ensures FetchesTasks(s, t, step)
  {
    var res := s.store.reservations[n];
    assert M.ProcessAccepted(res, [Some([])], 100).whos == res.whos;
  }

  lemma FetchingHappens(setup: Setup, s: State, t: State, step: Step)
    requires step.FetchTasks? && FetchesTasks(s, t, step)
    ensures Run(setup, [s, t], [step])
  {
  }

  lemma Reserves(x: Ident, y: Ident, r: Robot) returns (step: Step)
    requires x != y
    ensures Run(SingleSetup(r), [Alone(x, y, Request(), map[], M.Open), Alone(x, y, Found(x), map[], M.InProcess)],
                [step])
    ensures Prepares(step)
  {
    var s, t := Alone(x, y, Request(), map[], M.Open), Alone(x, y, Found(x), map[], M.InProcess);
    step := ReserveOrders("a", M.Orders([]), Further(M.Orders([WarehouseOrder(x, 0, [])]), {x}), [Request()], true);
    assert t.store == WithReservation(s.store, "a", Found(x)) && t.ewm == s.ewm[x := M.InProcess];
    ReservingFinds(s, t, "a", x, step);
    ReservingHappens(SingleSetup(r), s, t, step);
  }

  lemma Fetches(x: Ident, y: Ident, r: Robot) returns (step: Step)
    requires x != y
    ensures Run(SingleSetup(r), [Alone(x, y, Found(x), map[], M.InProcess), Unopened(x, y)], [step])
    ensures Prepares(step)
  {
    var s, t := Alone(x, y, Found(x), map[], M.InProcess), Unopened(x, y);
    step := FetchTasks("a", [Some([])], 100, true);
    assert t.store == WithReservation(s.store, "a", Requesting(x, Reservations, [], []));
    FetchingFinds(s, t, "a", x, step);
    FetchingHappens(SingleSetup(r), s, t, step);
  }

  /* ---------- The first auction ---------- */

  function Unopened(x: Ident, y: Ident): State {
    Alone(x, y, Requesting(x, Reservations, [], []), map[], M.InProcess)
  }

  function Opened(x: Ident, y: Ident, r: Robot): State {
    Alone(x, y, Requesting(x, Reservations, [], []), map[Key("a", r) := Auctioned(x, r, AuctionOpen, [])], M.InProcess)
  }

  /** The robot is invited to the auction. */
  lemma Opens(x: Ident, y: Ident, r: Robot) returns (step: Step)
    ensures Run(SingleSetup(r), [Unopened(x, y), Opened(x, y, r)], [step]) && Prepares(step)
  {
    var s, t := Unopened(x, y), Opened(x, y, r);
    var round, course := Seeing({r}, "c"), Course(["a"], map[], [s.store]);
    OpensAs(s.store, t.store, x, r, round, course);
    step := Reconcile("auctioneer", round, course);
    ReconcileHappens(s, t, r, round, course);
  }

  lemma OpensAs(s: Store, t: Store, x: Ident, r: Robot, round: Round, course: Course)
    requires s == Store(map["a" := Requesting(x, Reservations, [], [])], map[]) && round == Seeing({r}, round.newName)
    requires t == s.(auctions := map[Key("a", r) := Auctioned(x, r, AuctionOpen, [])])
    requires course == Course(["a"], map[], [s])
    ensures Reconciles(Single(), s, t, round, course)
  {
    assert ResourcesOf(s, "a") == {};
    forall c ensures InClass(s, c, round, course) == OneIn("a", ToCreate, c) {
      OneClass(s, round, course, ToCreate, c);
    }
    NothingCompleted(s, round, course);
    OneOwned(s, course);
    OpensNothingElse(s, t, "a", r, round, course);
  }

  lemma OneOwned(s: Store, course: Course)
    requires s.reservations.Keys == {"a"} && s.reservations["a"].owner == "auctioneer" && course.names == ["a"]
    ensures Elements(course.names) == OwnedNames(s, "auctioneer") && NoDuplicates(course.names)
  {
    assert Elements(["a"]) == {"a"};
  }

  lemma InvitesOne(n: string, r: Robot, round: Round)
    requires round == Seeing({r}, round.newName)
    ensures Invited(n, map[], map[], Single(), round.rs, round.f) == {r} && Increased(map[], {r}) == map[r := 1]
  {
  }

  lemma CreatesOne(s: Store, n: string, round: Round)
    requires n in s.reservations
    ensures var robots := Invited(n, round.opr, map[], Single(), round.rs, round.f);
      CreateUpTo(s, map[], [n], 1, round.opr, Single(), round.rs, round.f)
      == (WithAuctions(s, n, robots), Increased(map[], robots))
  {
    assert CreateUpTo(s, map[], [n], 0, round.opr, Single(), round.rs, round.f) == (s, map[]);
  }

  /** A reconcile that only opens one auction, to which the robot is invited, after some were completed. */
  lemma OpensNothingElse(s: Store, t: Store, n: string, r: Robot, round: Round, course: Course)
    requires round == Seeing({r}, round.newName) && course.counts == map[] && |course.closing| == 1
    requires Elements(course.names) == OwnedNames(s, "auctioneer") && NoDuplicates(course.names)
    requires CountsCompleted(s, "auctioneer", round, course) && course.closing[0] == AfterCompletion(s, round, course)
    requires InClass(s, ToClose, round, course) == [] && InClass(s, ToCreate, round, course) == [n]
    requires |InClass(s, ToComplete, round, course)| <= 1 && n in course.closing[0].reservations
    requires t == course.closing[0].(auctions :=
                    course.closing[0].auctions[Key(n, r) := NewAuction(course.closing[0].reservations[n], r)])
    ensures Reconciles(Single(), s, t, round, course)
  {
    CreatesOne(course.closing[0], n, round);
    InvitesOne(n, r, round);
    InvitedIs(course.closing[0], t, n, r);
    BusyIsUnwilling(r);
    NothingElse(s, (t, map[r := 1]), round, course);
    ReconcilesAs(s, t, round, course, [], [n]);
  }

  lemma InvitedIs(s: Store, t: Store, n: string, r: Robot)
    requires n in s.reservations && t == s.(auctions := s.auctions[Key(n, r) := NewAuction(s.reservations[n], r)])
    ensures WithAuctions(s, n, {r}) == t
  {
    assert WithAuctions(s, n, {r}).auctions == t.auctions;
  }

  /** The auction runs, and another request was made. */
  function InAuction(x: Ident, y: Ident, r: Robot, bids: seq<Bidding>): State {
    Beside(x, y, Requesting(x, Reservations, [], []), Request(), Auctioned(x, r, AuctionOpen, bids), M.Open)
  }

  /** While the auction runs the other robot needs orders, too. */
  lemma RequestsAgain(x: Ident, y: Ident, r: Robot) returns (step: Step)
    ensures Run(SingleSetup(r), [Opened(x, y, r), InAuction(x, y, r, [])], [step]) && Prepares(step)
  {
    var s, t := Opened(x, y, r), InAuction(x, y, r, []);
    var round, course := Seeing({r, Spare(r)}, "b"), Course(["a"], map[r := 1], [s.store]);
    RequestsAs(s.store, t.store, x, r, round, course);
    step := Reconcile("auctioneer", round, course);
    ReconcileHappens(s, t, r, round, course);
  }

  lemma RequestsAs(s: Store, t: Store, x: Ident, r: Robot, round: Round, course: Course)
    requires s.reservations == map["a" := Requesting(x, Reservations, [], [])]
    requires s.auctions == map[Key("a", r) := Auctioned(x, r, AuctionOpen, [])] && round == Seeing({r, Spare(r)}, "b")
    requires t == s.(reservations := s.reservations["b" := Request()]) && course == Course(["a"], map[r := 1], [s])
    ensures Reconciles(Single(), s, t, round, course)
  {
    OneAuction(s, "a", x, r, []);
    assert ClassOf(s, "a", round.rs.available, round.now) == Running by {
      assert StillBidding(Auctioned(x, r, AuctionOpen, []), round.rs.available, round.now);
    }
    forall c ensures InClass(s, c, round, course) == OneIn("a", Running, c) {
      OneClass(s, round, course, Running, c);
    }
    NothingCompleted(s, round, course);
    assert Spare(r) != r && Willing(map[], map[r := 1], Single(), round.rs) == {Spare(r)};
    RequestIsMade(s, map[r := 1], Spare(r), round, course);
    OneOwned(s, course);
    OneUncompleted(s, "a", r);
    CountsKept(s, round, course);
    ReconcilesAs(s, t, round, course, [], []);
  }

  lemma OneAuction(s: Store, n: string, id: Ident, r: Robot, bids: seq<Bidding>)
    requires s.auctions == map[Key(n, r) := Auctioned(id, r, AuctionOpen, bids)]
    ensures ResourcesOf(s, n) == {Auctioned(id, r, AuctionOpen, bids)}
  {
    assert KeysOf(s, n) == {Key(n, r)};
  }

  /** The robot takes part in one auction, others in none. */
  lemma OneUncompleted(s: Store, n: string, r: Robot)
    requires s.auctions.Keys == {Key(n, r)} && s.auctions[Key(n, r)].status != AuctionCompleted
    requires n in s.reservations && s.reservations[n].owner == "auctioneer"
    ensures forall robot :: |UncompletedOf(s, "auctioneer", robot)| == At(map[r := 1], robot)
  {
    forall robot ensures UncompletedOf(s, "auctioneer", robot) == if robot == r then {Key(n, r)} else {} {
    }
  }

  lemma BiddingHappens(setup: Setup, s: State, t: State, key: Key, biddings: seq<Bidding>)
    requires key in s.store.auctions
    requires t.store == s.store.(auctions := s.store.auctions[key :=
               s.store.auctions[key].(biddings := biddings, bidCompleted := true)])
    requires t.ewm == s.ewm && t.running == s.running
    ensures Run(setup, [s, t], [Bid(key, biddings, true)])
  {
  }

  lemma Bids(x: Ident, y: Ident, r: Robot) returns (step: Step)
    ensures Run(SingleSetup(r), [InAuction(x, y, r, []), InAuction(x, y, r, [Bidding(x, 1.0)])], [step])
    ensures Prepares(step)
  {
    var s, t := InAuction(x, y, r, []), InAuction(x, y, r, [Bidding(x, 1.0)]);
    assert t.store.auctions == s.store.auctions[Key("a", r) := Auctioned(x, r, AuctionOpen, [Bidding(x, 1.0)])];
    BiddingHappens(SingleSetup(r), s, t, Key("a", r), [Bidding(x, 1.0)]);
    step := Bid(Key("a", r), [Bidding(x, 1.0)], true);
  }

  /** The robot has won order x, and another request waits for orders. */
  function Decided(x: Ident, y: Ident, r: Robot): State {
    Beside(x, y, Requesting(x, Reservations, [Won(x, r)], []), Request(),
           Auctioned(x, r, AuctionClosed, [Bidding(x, 1.0)]), M.Open)
  }

  /** The auction is closed with its only bid. */
  lemma Closes(x: Ident, y: Ident, r: Robot) returns (step: Step)
    ensures Run(SingleSetup(r), [InAuction(x, y, r, [Bidding(x, 1.0)]), Decided(x, y, r)], [step]) && Prepares(step)
  {
    var s, t := InAuction(x, y, r, [Bidding(x, 1.0)]), Decided(x, y, r);
    var round, course := Seeing({r}, "c"), Course(["a", "b"], map[r := 1], [s.store, t.store]);
    ClosesAs(s.store, t.store, x, r, round, course);
    step := Reconcile("auctioneer", round, course);
    ReconcileHappens(s, t, r, round, course);
  }

  lemma ClosesAs(s: Store, t: Store, x: Ident, r: Robot, round: Round, course: Course)
    requires s.reservations == map["a" := Requesting(x, Reservations, [], []), "b" := Request()]
    requires s.auctions == map[Key("a", r) := Auctioned(x, r, AuctionOpen, [Bidding(x, 1.0)])]
    requires t.reservations == map["a" := Requesting(x, Reservations, [Won(x, r)], []), "b" := Request()]
    requires t.auctions == map[Key("a", r) := Auctioned(x, r, AuctionClosed, [Bidding(x, 1.0)])]
    requires round == Seeing({r}, "c") && course == Course(["a", "b"], map[r := 1], [s, t])
    ensures Reconciles(Single(), s, t, round, course)
  {
    ClosingClasses(s, x, r, round, course);
    NothingCompleted(s, round, course);
    OneUncompleted(s, "a", r);
    CountsKept(s, round, course);
    FirstWinner(s, t, x, r, round, course.closing);
    TwoOwned(s, course);
    ClosesNothingElse(s, t, r, round, course);
  }

  lemma CountsKept(s: Store, round: Round, course: Course)
    requires AfterDeletion(s, round, course) == s && AfterCompletion(s, round, course) == s
    requires forall robot :: |UncompletedOf(s, "auctioneer", robot)| == At(course.counts, robot)
    ensures CountsCompleted(s, "auctioneer", round, course)
  {
  }

  lemma FirstWinner(s: Store, t: Store, x: Ident, r: Robot, round: Round, closing: seq<Store>)
    requires s.reservations == map["a" := Requesting(x, Reservations, [], []), "b" := Request()]
    requires s.auctions == map[Key("a", r) := Auctioned(x, r, AuctionOpen, [Bidding(x, 1.0)])]
    requires t.reservations == map["a" := Requesting(x, Reservations, [Won(x, r)], []), "b" := Request()]
    requires t.auctions == map[Key("a", r) := Auctioned(x, r, AuctionClosed, [Bidding(x, 1.0)])]
    requires round == Seeing({r}, "c") && closing == [s, t]
    ensures ClosingTrace(closing, ["a"], round.rs, round.now, round.f)
  {
    OneAuction(s, "a", x, r, [Bidding(x, 1.0)]);
    assert t.reservations == s.reservations["a" := s.reservations["a"].(assignments := [Won(x, r)])];
    assert t == Closed(s, "a", [Won(x, r)], round.f);
    WinnerCloses(s, t, "a", x, r, round, closing);
  }

  /** A reconcile that only closes one auction, in which the robot takes part. */
  lemma ClosesNothingElse(s: Store, t: Store, r: Robot, round: Round, course: Course)
    requires round == Seeing({r}, round.newName) && course.counts == map[r := 1] && course.closing == [s, t]
    requires Elements(course.names) == OwnedNames(s, "auctioneer") && NoDuplicates(course.names)
    requires CountsCompleted(s, "auctioneer", round, course) && AfterCompletion(s, round, course) == s
    requires |InClass(s, ToClose, round, course)| == 1 && InClass(s, ToCreate, round, course) == []
    requires |InClass(s, ToComplete, round, course)| <= 1
    requires ClosingTrace(course.closing, InClass(s, ToClose, round, course), round.rs, round.now, round.f)
    ensures Reconciles(Single(), s, t, round, course)
  {
    BusyIsUnwilling(r);
    NothingElse(s, (t, map[r := 1]), round, course);
    ReconcilesAs(s, t, round, course, InClass(s, ToClose, round, course), []);
  }

  lemma TwoOwned(s: Store, course: Course)
    requires s.reservations.Keys == {"a", "b"} && course.names == ["a", "b"]
    requires s.reservations["a"].owner == s.reservations["b"].owner == "auctioneer"
    ensures Elements(course.names) == OwnedNames(s, "auctioneer") && NoDuplicates(course.names)
  {
    assert Elements(["a", "b"]) == {"a", "b"};
  }

  lemma ClosingClasses(s: Store, x: Ident, r: Robot, round: Round, course: Course)
    requires s.reservations == map["a" := Requesting(x, Reservations, [], []), "b" := Request()]
    requires s.auctions == map[Key("a", r) := Auctioned(x, r, AuctionOpen, [Bidding(x, 1.0)])]
    requires round == Seeing({r}, "c") && course.names == ["a", "b"]
    ensures forall c :: InClass(s, c, round, course) == OneIn("a", ToClose, c) + OneIn("b", Waiting, c)
  {
    OneAuction(s, "a", x, r, [Bidding(x, 1.0)]);
    assert ClassOf(s, "a", round.rs.available, round.now) == ToClose;
    forall c ensures InClass(s, c, round, course) == OneIn("a", ToClose, c) + OneIn("b", Waiting, c) {
      TwoClasses(s, round, course, ToClose, Waiting, c);
    }
  }

  /* ---------- The run ---------- */

  /** Up to the invitation of the robot. */
  function OpeningStates(x: Ident, y: Ident, r: Robot): seq<State> {
    [Unrequested(x, y), Alone(x, y, Request(), map[], M.Open), Alone(x, y, Found(x), map[], M.InProcess),
     Unopened(x, y), Opened(x, y, r)]
  }

  /** From there to the winner. */
  function DecidingStates(x: Ident, y: Ident, r: Robot): seq<State> {
    [Opened(x, y, r), InAuction(x, y, r, []), InAuction(x, y, r, [Bidding(x, 1.0)]), Decided(x, y, r)]
  }

  function FirstStates(x: Ident, y: Ident, r: Robot): (states: seq<State>)
    ensures |states| == 8 && states[0] == Unrequested(x, y) && states[7] == Decided(x, y, r)
  {
    OpeningStates(x, y, r) + DecidingStates(x, y, r)[1..]
  }

  /** A run of one step. */
  ghost predicate Links(setup: Setup, s: State, t: State, step: Step) {
    Run(setup, [s, t], [step])
  }

  lemma LinksRun(setup: Setup, states: seq<State>, steps: seq<Step>)
    requires |states| == |steps| + 1
    requires forall i :: 0 <= i < |steps| ==> Links(setup, states[i], states[i + 1], steps[i])
    ensures Run(setup, states, steps)
  {
    forall i | 0 <= i < |steps| ensures Next(setup, states[i], states[i + 1], steps[i]) {
      var pair := [states[i], states[i + 1]];
      assert Links(setup, states[i], states[i + 1], steps[i]) && pair[0] == states[i] && pair[1] == states[i + 1];
    }
  }

  lemma OpeningRun(x: Ident, y: Ident, r: Robot) returns (steps: seq<Step>)
    requires x != y
    ensures |steps| == 4 && Run(SingleSetup(r), OpeningStates(x, y, r), steps)
    ensures forall i :: 0 <= i < 4 ==> Prepares(steps[i])
  {
    var s, setup := OpeningStates(x, y, r), SingleSetup(r);
    var request := Requests(x, y, r);
    var reserve := Reserves(x, y, r);
    var fetch := Fetches(x, y, r);
    var open := Opens(x, y, r);
    steps := [request, reserve, fetch, open];
    assert Links(setup, s[0], s[1], steps[0]) && Links(setup, s[1], s[2], steps[1]);
    assert Links(setup, s[2], s[3], steps[2]) && Links(setup, s[3], s[4], steps[3]);
    LinksRun(setup, s, steps);
  }

  lemma DecidingRun(x: Ident, y: Ident, r: Robot) returns (steps: seq<Step>)
    ensures |steps| == 3 && Run(SingleSetup(r), DecidingStates(x, y, r), steps)
    ensures forall i :: 0 <= i < 3 ==> Prepares(steps[i])
  {
    var s, setup := DecidingStates(x, y, r), SingleSetup(r);
    var again := RequestsAgain(x, y, r);
    var bid := Bids(x, y, r);
    var close := Closes(x, y, r);
    steps := [again, bid, close];
    assert Links(setup, s[0], s[1], steps[0]) && Links(setup, s[1], s[2], steps[1]);
    assert Links(setup, s[2], s[3], steps[2]);
    LinksRun(setup, s, steps);
  }

  /** From nothing to the winner of the first auction, while a second request waits; no call fails. */
  lemma FirstRun(x: Ident, y: Ident, r: Robot) returns (steps: seq<Step>)
    requires x != y
    ensures |steps| == 7 && Run(SingleSetup(r), FirstStates(x, y, r), steps)
    ensures forall i :: 0 <= i < 7 ==> Prepares(steps[i])
  {
    var begin := OpeningRun(x, y, r);
    var end := DecidingRun(x, y, r);
    RunsJoin(SingleSetup(r), OpeningStates(x, y, r), DecidingStates(x, y, r), begin, end);
    steps := begin + end;
  }
}
