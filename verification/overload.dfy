/**
 * What the conditions of the theorems about capacity and listing exclude: runs in which a robot
 * gets more orders than its auctioneer allows, or in which an order is listed twice.
 */
module Overload {
  import opened Common
  import opened Warehouse
  import opened AuctionCycle
  import opened Protocol
  import opened Exclusivity
  import opened Capacity
  import opened FirstAuction
  import M = ReservationManager

  /* ---------- An order assigned but not sent ---------- */

  function FaultySend(): M.CallbackFaults {
    M.CallbackFaults([], [M.Lost], [])
  }

  function NoFaults(): M.CallbackFaults {
    M.CallbackFaults([], [], [])
  }

  /** No call of the step fails. */
  predicate Faultless(step: Step) {
    step.Deliver? ==> step.faults == NoFaults()
  }

  lemma DeliveryHappens(setup: Setup, s: State, t: State, step: Step)
    requires step.Deliver? && Delivers(s, t, step)
    ensures Run(setup, [s, t], [step])
  {
  }

  /** Order y is reserved for reservation b, in which tasks are fetched or not. */
  function Closing(x: Ident, y: Ident, r: Robot, b: Reservation): State {
    Beside(x, y, Requesting(x, Reservations, [Won(x, r)], []), b, Auctioned(x, r, AuctionClosed, [Bidding(x, 1.0)]),
           M.InProcess)
  }

  /** EWM assigned order x, but it was not sent to the robot. */
  function Delivering(x: Ident, y: Ident, r: Robot, status: ReservationStatus): State {
    State(Two(Requesting(x, status, [Won(x, r)], [Won(x, r)]), Requesting(y, Reservations, [], []),
              map[Key("a", r) := Auctioned(x, r, AuctionClosed, [Bidding(x, 1.0)])]),
          map[x := M.AssignedTo(Upper(r)), y := M.InProcess], map[])
  }

  /** The first auction is completed, in the second one the robot bids for order y and wins it. */
  function Bidden(x: Ident, y: Ident, r: Robot, status: AuctionStatus, bids: seq<Bidding>,
                  assignments: seq<OrderAssignment>): State {
    State(Two(Requesting(x, Succeeded, [Won(x, r)], [Won(x, r)]), Requesting(y, Reservations, assignments, []),
              map[Key("a", r) := Auctioned(x, r, AuctionCompleted, [Bidding(x, 1.0)]),
                  Key("b", r) := Auctioned(y, r, status, bids)]),
          map[x := M.AssignedTo(Upper(r)), y := M.InProcess], map[])
  }

  /** Delivering order y sends the robot both orders. */
  function Overloaded(x: Ident, y: Ident, r: Robot): State {
    State(Two(Requesting(x, Succeeded, [Won(x, r)], [Won(x, r)]), Requesting(y, Succeeded, [Won(y, r)], [Won(y, r)]),
              map[Key("a", r) := Auctioned(x, r, AuctionCompleted, [Bidding(x, 1.0)]),
                  Key("b", r) := Auctioned(y, r, AuctionClosed, [Bidding(y, 1.0)])]),
          map[x := M.AssignedTo(Upper(r)), y := M.AssignedTo(Upper(r))], map[x := r, y := r])
  }

  /** Assigning and sending the only order of a reservation. */
  lemma OneDelivery(id: Ident, r: Robot, ewm: M.Ewm, running: map<Ident, Robot>, faults: M.CallbackFaults)
    requires id in ewm && ewm[id] == M.InProcess && faults in {FaultySend(), NoFaults()}
    ensures var after := ewm[id := M.AssignedTo(Upper(r))];
      M.ProcessReservations(Requesting(id, Reservations, [Won(id, r)], []), ewm, running, 0, faults)
      == if faults == NoFaults() then
           M.Outcome(Requesting(id, Succeeded, [Won(id, r)], [Won(id, r)]), after, M.Sent(after, running, Upper(r)))
         else
           M.Outcome(Requesting(id, Reservations, [Won(id, r)], [Won(id, r)]), after, running)
  {
    var todo, w := [Won(id, r)], M.Work(ewm, running, [id], [], false);
    assert M.Idents([WarehouseOrder(id, 0, [])]) == [id];
    assert M.AssignUpTo(w, todo, faults, 0) == w;
    assert M.RemoveFirst([id], id) == [] && [] + [Won(id, r)] == [Won(id, r)];
    assert M.AssignUpTo(w, todo, faults, 1) == M.AssignStep(w, todo[0], M.Fine, M.FaultAt(faults.send, 0));
  }

  lemma BothListed(a: Reservation, b: Reservation)
    ensures Elements([a, b]) == map["a" := a, "b" := b].Values
  {
    var m := map["a" := a, "b" := b];
    assert m["a"] == a && m["b"] == b && [a, b][0] == a && [a, b][1] == b;
    forall res ensures res in m.Values <==> res in [a, b] {
    }
  }

  /** Order y is reserved for the second request; order x is in process for the first one. */
  lemma SecondReserves(x: Ident, y: Ident, r: Robot) returns (step: Step)
    requires x != y
    ensures Run(SingleSetup(r), [Decided(x, y, r), Closing(x, y, r, Found(y))], [step]) && Faultless(step)
  {
    var s, t := Decided(x, y, r), Closing(x, y, r, Found(y));
    var cache, w := [s.store.reservations["a"], Request()], WarehouseOrder(x, 0, []);
    step := ReserveOrders("b", M.Orders([w]), Further(M.Orders([WarehouseOrder(y, 0, [])]), {y}), cache, true);
    BothListed(cache[0], cache[1]);
    assert cache[0].whos[0].id == x;
    assert t.store == WithReservation(s.store, "b", Found(y)) && t.ewm == s.ewm[y := M.InProcess];
    ReservingFinds(s, t, "b", y, step);
    ReservingHappens(SingleSetup(r), s, t, step);
  }

  lemma SecondFetches(x: Ident, y: Ident, r: Robot) returns (step: Step)
    ensures Run(SingleSetup(r), [Closing(x, y, r, Found(y)), Closing(x, y, r, Requesting(y, Reservations, [], []))],
                [step])
    ensures Faultless(step)
  {
    var s, t := Closing(x, y, r, Found(y)), Closing(x, y, r, Requesting(y, Reservations, [], []));
    step := FetchTasks("b", [Some([])], 100, true);
    assert t.store == WithReservation(s.store, "b", Requesting(y, Reservations, [], []));
    FetchingFinds(s, t, "b", y, step);
    FetchingHappens(SingleSetup(r), s, t, step);
  }

  lemma SendFails(x: Ident, y: Ident, r: Robot) returns (step: Step)
    requires x != y
    ensures Run(SingleSetup(r), [Closing(x, y, r, Requesting(y, Reservations, [], [])),
                                 Delivering(x, y, r, Reservations)], [step])
  {
    var s, t := Closing(x, y, r, Requesting(y, Reservations, [], [])), Delivering(x, y, r, Reservations);
    step := Deliver("a", 0, FaultySend(), true);
    OneDelivery(x, r, s.ewm, s.running, FaultySend());
    assert t.store == WithReservation(s.store, "a", Requesting(x, Reservations, [Won(x, r)], [Won(x, r)]));
    assert t.ewm == s.ewm[x := M.AssignedTo(Upper(r))];
    DeliveryHappens(SingleSetup(r), s, t, step);
  }

  /** A delivered order is not sent again when its callback is repeated. */
  lemma DeliveredIsSkipped(x: Ident, y: Ident, r: Robot)
    requires x != y
    ensures Delivers(Delivering(x, y, r, Reservations), Delivering(x, y, r, Succeeded),
                     Deliver("a", 0, NoFaults(), true))
  {
    var s := Delivering(x, y, r, Reservations);
    var res := s.store.reservations["a"];
    var w := M.Work(s.ewm, s.running, M.Idents(res.whos), [Won(x, r)], false);
    assert M.Idents(res.whos) == [x];
    assert M.AssignUpTo(w, res.assignments, NoFaults(), 1)
        == M.AssignStep(M.AssignUpTo(w, res.assignments, NoFaults(), 0), Won(x, r), M.Fine, M.Fine);
    assert Delivering(x, y, r, Succeeded).store == WithReservation(s.store, "a", res.(status := Succeeded));
  }

  lemma SkippingHappens(x: Ident, y: Ident, r: Robot) returns (step: Step)
    requires x != y
    ensures Run(SingleSetup(r), [Delivering(x, y, r, Reservations), Delivering(x, y, r, Succeeded)], [step])
    ensures Faultless(step)
  {
    step := Deliver("a", 0, NoFaults(), true);
    DeliveredIsSkipped(x, y, r);
    DeliveryHappens(SingleSetup(r), Delivering(x, y, r, Reservations), Delivering(x, y, r, Succeeded), step);
  }

  lemma BothSent(x: Ident, y: Ident, r: Robot)
    requires x != y && LowerName(r)
    ensures map[x := M.AssignedTo(Upper(r)), y := M.InProcess][y := M.AssignedTo(Upper(r))] == Overloaded(x, y, r).ewm
    ensures M.Sent(Overloaded(x, y, r).ewm, map[], Upper(r)) == map[x := r, y := r]
  {
    LowerUpper(r);
  }

  lemma SendsBoth(x: Ident, y: Ident, r: Robot)
    requires x != y && LowerName(r)
    ensures Delivers(Bidden(x, y, r, AuctionClosed, [Bidding(y, 1.0)], [Won(y, r)]), Overloaded(x, y, r),
                     Deliver("b", 0, NoFaults(), true))
  {
    var s := Bidden(x, y, r, AuctionClosed, [Bidding(y, 1.0)], [Won(y, r)]);
    OneDelivery(y, r, s.ewm, s.running, NoFaults());
    BothSent(x, y, r);
    assert Overloaded(x, y, r).store ==
           WithReservation(s.store, "b", Requesting(y, Succeeded, [Won(y, r)], [Won(y, r)]));
  }

  /* ---------- The two reconciles ---------- */

  /** Completing the first auction. */
  function Completing(x: Ident, y: Ident, r: Robot): Store {
    Two(Requesting(x, Succeeded, [Won(x, r)], [Won(x, r)]), Requesting(y, Reservations, [], []),
        map[Key("a", r) := Auctioned(x, r, AuctionCompleted, [Bidding(x, 1.0)])])
  }

  /** The robot without running orders is invited although EWM assigned it one. */
  lemma SecondOpens(x: Ident, y: Ident, r: Robot) returns (step: Step)
    ensures Run(SingleSetup(r), [Delivering(x, y, r, Succeeded), Bidden(x, y, r, AuctionOpen, [], [])], [step])
    ensures Faultless(step)
  {
    var s, t := Delivering(x, y, r, Succeeded), Bidden(x, y, r, AuctionOpen, [], []);
    var round, course := Seeing({r}, "c"), Course(["a", "b"], map[], [Completing(x, y, r)]);
    OpensWhileCompleting(s.store, t.store, x, y, r, round, course);
    step := Reconcile("auctioneer", round, course);
    ReconcileHappens(s, t, r, round, course);
  }

  lemma OpensWhileCompleting(s: Store, t: Store, x: Ident, y: Ident, r: Robot, round: Round, course: Course)
    requires s == Delivering(x, y, r, Succeeded).store && t == Bidden(x, y, r, AuctionOpen, [], []).store
    requires round == Seeing({r}, "c") && course == Course(["a", "b"], map[], [Completing(x, y, r)])
    ensures Reconciles(Single(), s, t, round, course)
  {
    OpeningClasses(s, x, y, r, round, course);
    OpeningCompletes(s, x, y, r, round, course);
    OpeningCounts(s, x, y, r, round, course);
    assert t.auctions == course.closing[0].auctions[Key("b", r) := Auctioned(y, r, AuctionOpen, [])];
    TwoOwned(s, course);
    OpensNothingElse(s, t, "b", r, round, course);
  }

  lemma OpeningClasses(s: Store, x: Ident, y: Ident, r: Robot, round: Round, course: Course)
    requires course.names == ["a", "b"] && s == Delivering(x, y, r, Succeeded).store && round == Seeing({r}, "c")
    ensures forall c :: InClass(s, c, round, course) == OneIn("a", ToComplete, c) + OneIn("b", ToCreate, c)
  {
    assert ResourcesOf(s, "b") == {};
    forall c ensures InClass(s, c, round, course) == OneIn("a", ToComplete, c) + OneIn("b", ToCreate, c) {
      TwoClasses(s, round, course, ToComplete, ToCreate, c);
    }
  }

  lemma OpeningCompletes(s: Store, x: Ident, y: Ident, r: Robot, round: Round, course: Course)
    requires course.names == ["a", "b"] && s == Delivering(x, y, r, Succeeded).store && round == Seeing({r}, "c")
    ensures AfterDeletion(s, round, course) == s && AfterCompletion(s, round, course) == Completing(x, y, r)
  {
    OpeningClasses(s, x, y, r, round, course);
    NothingDeleted(s, round, course);
    assert Elements(["a"]) == {"a"};
    assert WithStatus(s, {"a"}, {}, AuctionCompleted).auctions == Completing(x, y, r).auctions;
  }

  lemma OpeningCounts(s: Store, x: Ident, y: Ident, r: Robot, round: Round, course: Course)
    requires course.names == ["a", "b"] && s == Delivering(x, y, r, Succeeded).store && round == Seeing({r}, "c")
    requires course.counts == map[]
    ensures CountsCompleted(s, "auctioneer", round, course)
  {
    OpeningCompletes(s, x, y, r, round, course);
    forall robot ensures UncompletedOf(Completing(x, y, r), "auctioneer", robot) == {} {
    }
  }

  lemma SecondBids(x: Ident, y: Ident, r: Robot) returns (step: Step)
    ensures Run(SingleSetup(r), [Bidden(x, y, r, AuctionOpen, [], []),
                                 Bidden(x, y, r, AuctionOpen, [Bidding(y, 1.0)], [])], [step])
    ensures Faultless(step)
  {
    var s, t := Bidden(x, y, r, AuctionOpen, [], []), Bidden(x, y, r, AuctionOpen, [Bidding(y, 1.0)], []);
    assert t.store.auctions == s.store.auctions[Key("b", r) := Auctioned(y, r, AuctionOpen, [Bidding(y, 1.0)])];
    BiddingHappens(SingleSetup(r), s, t, Key("b", r), [Bidding(y, 1.0)]);
    step := Bid(Key("b", r), [Bidding(y, 1.0)], true);
  }

  /** The second auction is closed with its only bid. */
  lemma SecondCloses(x: Ident, y: Ident, r: Robot) returns (step: Step)
    ensures Run(SingleSetup(r), [Bidden(x, y, r, AuctionOpen, [Bidding(y, 1.0)], []),
                                 Bidden(x, y, r, AuctionClosed, [Bidding(y, 1.0)], [Won(y, r)])], [step])
    ensures Faultless(step)
  {
    var s := Bidden(x, y, r, AuctionOpen, [Bidding(y, 1.0)], []);
    var t := Bidden(x, y, r, AuctionClosed, [Bidding(y, 1.0)], [Won(y, r)]);
    var round, course := Seeing({r}, "c"), Course(["a", "b"], map[r := 1], [s.store, t.store]);
    ClosesNext(s.store, t.store, x, y, r, round, course);
    step := Reconcile("auctioneer", round, course);
    ReconcileHappens(s, t, r, round, course);
  }

  lemma ClosesNext(s: Store, t: Store, x: Ident, y: Ident, r: Robot, round: Round, course: Course)
    requires s == Bidden(x, y, r, AuctionOpen, [Bidding(y, 1.0)], []).store && round == Seeing({r}, "c")
    requires t == Bidden(x, y, r, AuctionClosed, [Bidding(y, 1.0)], [Won(y, r)]).store
    requires course == Course(["a", "b"], map[r := 1], [s, t])
    ensures Reconciles(Single(), s, t, round, course)
  {
    SecondClosing(s, x, y, r, round, course);
    ClosingCounts(s, x, y, r, round, course);
    SecondWinner(s, t, x, y, r, round, course.closing);
    TwoOwned(s, course);
    ClosesNothingElse(s, t, r, round, course);
  }

  lemma SecondClosing(s: Store, x: Ident, y: Ident, r: Robot, round: Round, course: Course)
    requires course.names == ["a", "b"] && s == Bidden(x, y, r, AuctionOpen, [Bidding(y, 1.0)], []).store
    requires round == Seeing({r}, "c")
    ensures forall c :: InClass(s, c, round, course) == OneIn("a", ToComplete, c) + OneIn("b", ToClose, c)
    ensures AfterDeletion(s, round, course) == s && AfterCompletion(s, round, course) == s
  {
    SecondResource(s, x, y, r);
    assert ClassOf(s, "a", round.rs.available, round.now) == ToComplete;
    assert ClassOf(s, "b", round.rs.available, round.now) == ToClose;
    forall c ensures InClass(s, c, round, course) == OneIn("a", ToComplete, c) + OneIn("b", ToClose, c) {
      TwoClasses(s, round, course, ToComplete, ToClose, c);
    }
    NothingDeleted(s, round, course);
    assert Elements(["a"]) == {"a"};
    assert WithStatus(s, {"a"}, {}, AuctionCompleted).auctions == s.auctions;
  }

  lemma SecondResource(s: Store, x: Ident, y: Ident, r: Robot)
    requires s == Bidden(x, y, r, AuctionOpen, [Bidding(y, 1.0)], []).store
    ensures ResourcesOf(s, "b") == {Auctioned(y, r, AuctionOpen, [Bidding(y, 1.0)])}
  {
    assert KeysOf(s, "b") == {Key("b", r)};
    assert Auctioned(y, r, AuctionOpen, [Bidding(y, 1.0)]) in ResourcesOf(s, "b");
  }

  lemma ClosingCounts(s: Store, x: Ident, y: Ident, r: Robot, round: Round, course: Course)
    requires s == Bidden(x, y, r, AuctionOpen, [Bidding(y, 1.0)], []).store && course.counts == map[r := 1]
    requires AfterDeletion(s, round, course) == s && AfterCompletion(s, round, course) == s
    ensures CountsCompleted(s, "auctioneer", round, course)
  {
    forall robot ensures UncompletedOf(s, "auctioneer", robot) == if robot == r then {Key("b", r)} else {} {
    }
    CountsKept(s, round, course);
  }

  lemma SecondWinner(s: Store, t: Store, x: Ident, y: Ident, r: Robot, round: Round, closing: seq<Store>)
    requires s == Bidden(x, y, r, AuctionOpen, [Bidding(y, 1.0)], []).store && round == Seeing({r}, "c")
    requires t == Bidden(x, y, r, AuctionClosed, [Bidding(y, 1.0)], [Won(y, r)]).store && closing == [s, t]
    ensures ClosingTrace(closing, ["b"], round.rs, round.now, round.f)
  {
    SecondResource(s, x, y, r);
    assert t.reservations == s.reservations["b" := s.reservations["b"].(assignments := [Won(y, r)])];
    assert t == Closed(s, "b", [Won(y, r)], round.f);
    WinnerCloses(s, t, "b", y, r, round, closing);
  }

  /* ---------- The run ---------- */

  /** From the winner of the first auction to the end of its reservation. */
  function UnsentDelivery(x: Ident, y: Ident, r: Robot): seq<State> {
    [Decided(x, y, r), Closing(x, y, r, Found(y)), Closing(x, y, r, Requesting(y, Reservations, [], [])),
     Delivering(x, y, r, Reservations), Delivering(x, y, r, Succeeded)]
  }

  /** From there to the second delivery. */
  function SecondAuction(x: Ident, y: Ident, r: Robot): seq<State> {
    [Delivering(x, y, r, Succeeded), Bidden(x, y, r, AuctionOpen, [], []),
     Bidden(x, y, r, AuctionOpen, [Bidding(y, 1.0)], []),
     Bidden(x, y, r, AuctionClosed, [Bidding(y, 1.0)], [Won(y, r)]), Overloaded(x, y, r)]
  }

  function LaterStates(x: Ident, y: Ident, r: Robot): (states: seq<State>)
    ensures |states| == 9 && states[0] == Decided(x, y, r) && states[8] == Overloaded(x, y, r)
  {
    UnsentDelivery(x, y, r) + SecondAuction(x, y, r)[1..]
  }

  lemma SecondDeliveryHappens(x: Ident, y: Ident, r: Robot) returns (step: Step)
    requires x != y && LowerName(r)
    ensures Run(SingleSetup(r), [Bidden(x, y, r, AuctionClosed, [Bidding(y, 1.0)], [Won(y, r)]), Overloaded(x, y, r)],
                [step])
    ensures Faultless(step)
  {
    step := Deliver("b", 0, NoFaults(), true);
    SendsBoth(x, y, r);
    DeliveryHappens(SingleSetup(r), Bidden(x, y, r, AuctionClosed, [Bidding(y, 1.0)], [Won(y, r)]),
                    Overloaded(x, y, r), step);
  }

  lemma UnsentDeliveryRun(x: Ident, y: Ident, r: Robot) returns (steps: seq<Step>)
    requires x != y
    ensures |steps| == 4 && Run(SingleSetup(r), UnsentDelivery(x, y, r), steps)
    ensures forall i :: 0 <= i < 4 && i != 2 ==> Faultless(steps[i])
  {
    var s, setup := UnsentDelivery(x, y, r), SingleSetup(r);
    var reserve := SecondReserves(x, y, r);
    var fetch := SecondFetches(x, y, r);
    var send := SendFails(x, y, r);
    var skip := SkippingHappens(x, y, r);
    steps := [reserve, fetch, send, skip];
    assert Links(setup, s[0], s[1], steps[0]) && Links(setup, s[1], s[2], steps[1]);
    assert Links(setup, s[2], s[3], steps[2]) && Links(setup, s[3], s[4], steps[3]);
    LinksRun(setup, s, steps);
  }

  lemma SecondAuctionRun(x: Ident, y: Ident, r: Robot) returns (steps: seq<Step>)
    requires x != y && LowerName(r)
    ensures |steps| == 4 && Run(SingleSetup(r), SecondAuction(x, y, r), steps)
    ensures forall i :: 0 <= i < 4 ==> Faultless(steps[i])
  {
    var s, setup := SecondAuction(x, y, r), SingleSetup(r);
    var open := SecondOpens(x, y, r);
    var bid := SecondBids(x, y, r);
    var close := SecondCloses(x, y, r);
    var deliver := SecondDeliveryHappens(x, y, r);
    steps := [open, bid, close, deliver];
    assert Links(setup, s[0], s[1], steps[0]) && Links(setup, s[1], s[2], steps[1]);
    assert Links(setup, s[2], s[3], steps[2]) && Links(setup, s[3], s[4], steps[3]);
    LinksRun(setup, s, steps);
  }

  lemma LaterRun(x: Ident, y: Ident, r: Robot) returns (steps: seq<Step>)
    requires x != y && LowerName(r)
    ensures |steps| == 8 && Run(SingleSetup(r), LaterStates(x, y, r), steps)
    ensures forall i :: 0 <= i < 8 && i != 2 ==> Faultless(steps[i])
  {
    var begin := UnsentDeliveryRun(x, y, r);
    var end := SecondAuctionRun(x, y, r);
    RunsJoin(SingleSetup(r), UnsentDelivery(x, y, r), SecondAuction(x, y, r), begin, end);
    steps := begin + end;
  }

  lemma OverloadRuns(x: Ident, y: Ident, r: Robot) returns (states: seq<State>, steps: seq<Step>)
    requires x != y && LowerName(r)
    ensures Run(SingleSetup(r), states, steps) && |steps| == 15
    ensures states[0] == Unrequested(x, y) && states[15] == Overloaded(x, y, r)
    ensures forall i :: 0 <= i < 15 && i != 9 ==> Faultless(steps[i])
  {
    var first := FirstRun(x, y, r);
    var later := LaterRun(x, y, r);
    var a, b := FirstStates(x, y, r), LaterStates(x, y, r);
    RunsJoin(SingleSetup(r), a, b, first, later);
    states, steps := a + b[1..], first + later;
  }

  /**
   * One failing send is enough: although every other order is sent to its robot, a robot that may
   * have one order ends with two.
   */
  lemma OneUnsentOrderOverloads(x: Ident, y: Ident, r: Robot) returns (states: seq<State>, steps: seq<Step>)
    requires x != y && LowerName(r)
    ensures ValidSetup(SingleSetup(r)) && Run(SingleSetup(r), states, steps) && Initial(states[0]) && |steps| == 15
    ensures forall i :: 0 <= i < 15 && i != 9 ==> AtomicSend(states[i], steps[i])
    ensures |RunningOn(states[15].running, r)| == 2 > Single().maxOrders
  {
    states, steps := OverloadRuns(x, y, r);
    TwoRunning(x, y, r);
    SpareIsLower(r);
    forall i | 0 <= i < 15 && i != 9 ensures AtomicSend(states[i], steps[i]) {
      FaultlessSends(states[i], steps[i]);
    }
  }

  lemma FaultlessSends(s: State, step: Step)
    requires Faultless(step)
    ensures AtomicSend(s, step)
  {
  }

  lemma SpareIsLower(r: Robot)
    requires LowerName(r)
    ensures LowerName(Spare(r)) && ValidSetup(SingleSetup(r))
  {
  }

  lemma TwoRunning(x: Ident, y: Ident, r: Robot)
    requires x != y
    ensures |RunningOn(Overloaded(x, y, r).running, r)| == 2
  {
    assert RunningOn(Overloaded(x, y, r).running, r) == {x, y};
  }

  /* ---------- An order listed twice ---------- */

  /** An order that was assigned but not sent is still listed; another reservation is requested. */
  function Unsent(x: Ident, y: Ident, r: Robot): State {
    State(Two(Requesting(x, Reservations, [Won(x, r)], [Won(x, r)]), Request(),
              map[Key("a", r) := Auctioned(x, r, AuctionClosed, [Bidding(x, 1.0)])]),
          map[x := M.AssignedTo(Upper(r)), y := M.Open], map[])
  }

  lemma UnsentListsOnce(s: State, x: Ident, y: Ident, r: Robot)
    requires x != y && s == Unsent(x, y, r)
    ensures WellListed(s.store) && HeldOnce(s) && ListedOnce(s)
  {
    assert M.IsDelivered([Won(x, r)], x) by {
      assert Won(x, r) in [Won(x, r)];
    }
    OneListsOnce(s, "a", "b");
  }

  /** Lists cannot overlap when only one of two reservations lists anything. */
  lemma OneListsOnce(s: State, a: string, b: string)
    requires s.store.reservations.Keys == {a, b}
    requires M.Held(s.store.reservations[a]) == {} && s.store.reservations[b].whos == []
    requires NoDuplicates(M.Idents(s.store.reservations[a].whos))
    requires s.store.reservations[a].status !in {Unset, New} && DeliveredSettled(s.store.reservations[a], s.ewm)
    ensures WellListed(s.store) && HeldOnce(s) && ListedOnce(s)
  {
    assert M.Held(s.store.reservations[b]) == {} && Listed(s.store.reservations[b]) == {};
  }

  lemma UnassignHappens(setup: Setup, s: State, t: State, id: Ident)
    requires id in s.ewm && s.ewm[id].AssignedTo? && t == s.(ewm := s.ewm[id := M.Open], running := s.running - {id})
    ensures Run(setup, [s, t], [Unassign(id)])
  {
  }

  /** The states up to the delivery that is not sent. */
  function UnsentStates(x: Ident, y: Ident, r: Robot): seq<State> {
    FirstStates(x, y, r) + [Unsent(x, y, r)]
  }

  lemma UnsentRun(x: Ident, y: Ident, r: Robot) returns (steps: seq<Step>)
    requires x != y
    ensures |steps| == 8 && Run(SingleSetup(r), UnsentStates(x, y, r), steps)
    ensures forall i :: 0 <= i < 8 ==> !steps[i].Unassign? && Uninterrupted(UnsentStates(x, y, r)[i], steps[i])
  {
    var s, t := Decided(x, y, r), Unsent(x, y, r);
    steps := FirstRun(x, y, r);
    var step := Deliver("a", 0, FaultySend(), true);
    UnsentDelivers(x, y, r, s, t, step);
    DeliveryHappens(SingleSetup(r), s, t, step);
    RunsJoin(SingleSetup(r), FirstStates(x, y, r), [s, t], steps, [step]);
    assert FirstStates(x, y, r) + [s, t][1..] == UnsentStates(x, y, r);
    steps := steps + [step];
  }

  lemma UnsentDelivers(x: Ident, y: Ident, r: Robot, s: State, t: State, step: Step)
    requires x != y && s == Decided(x, y, r) && t == Unsent(x, y, r) && step == Deliver("a", 0, FaultySend(), true)
    ensures Delivers(s, t, step) && Uninterrupted(s, step)
  {
    OneDelivery(x, r, s.ewm, s.running, FaultySend());
    assert t.store == WithReservation(s.store, "a", Requesting(x, Reservations, [Won(x, r)], [Won(x, r)]));
    assert t.ewm == s.ewm[x := M.AssignedTo(Upper(r))];
    UnsentListsOnce(t, x, y, r);
    DecidedHoldsOnce(s, x, y, r);
    DeliverKeepsHeldIff(s, t, step);
  }

  lemma DecidedHoldsOnce(s: State, x: Ident, y: Ident, r: Robot)
    requires x != y && s == Decided(x, y, r)
    ensures HeldOnce(s) && Exclusivity.Proper(s.store.reservations["a"])
  {
    assert M.Held(s.store.reservations["b"]) == {};
  }

  /**
   * The robot loses the order before its reservation is done; then both reservations list it. All
   * other steps of the run leave no order open that is still held, and no listed order without robot.
   */
  lemma LostOrderListedTwice(x: Ident, y: Ident, r: Robot) returns (states: seq<State>, steps: seq<Step>)
    requires x != y && LowerName(r)
    ensures ValidSetup(SingleSetup(r)) && Run(SingleSetup(r), states, steps) && Initial(states[0]) && |steps| == 10
    ensures forall i :: 0 <= i < 10 ==> Uninterrupted(states[i], steps[i])
    ensures forall i :: 0 <= i < 10 && i != 8 ==> LeavesListed(states[i], steps[i])
    ensures steps[8] == Unassign(x) && ListedOnce(states[8])
    ensures var store := states[10].store.reservations;
      "a" in store && x in Listed(store["a"]) && "b" in store && x in Listed(store["b"])
  {
    var begin := UnsentRun(x, y, r);
    var t, u, take := LosesAndTakes(x, y, r);
    var a, b := UnsentStates(x, y, r), [Unsent(x, y, r), t, u];
    RunsJoin(SingleSetup(r), a, b, begin, [Unassign(x), take]);
    states, steps := a + b[1..], begin + [Unassign(x), take];
    UnsentListsOnce(Unsent(x, y, r), x, y, r);
    SpareIsLower(r);
  }

  lemma LosesAndTakes(x: Ident, y: Ident, r: Robot) returns (t: State, u: State, take: Step)
    requires x != y
    ensures Run(SingleSetup(r), [Unsent(x, y, r), t, u], [Unassign(x), take]) && take.ReserveOrders?
    ensures "a" in u.store.reservations && x in Listed(u.store.reservations["a"])
    ensures "b" in u.store.reservations && x in Listed(u.store.reservations["b"])
  {
    var setup, s := SingleSetup(r), Unsent(x, y, r);
    t := s.(ewm := s.ewm[x := M.Open], running := s.running - {x});
    UnassignHappens(setup, s, t, x);
    take, u := BothList(s, t, x, y, r);
    ReservingHappens(setup, t, u, take);
    RunsJoin(setup, [s, t], [t, u], [Unassign(x)], [take]);
    assert [s, t] + [t, u][1..] == [s, t, u] && [Unassign(x)] + [take] == [Unassign(x), take];
  }

  lemma BothList(s: State, t: State, x: Ident, y: Ident, r: Robot) returns (take: Step, u: State)
    requires x != y && s == Unsent(x, y, r) && t == s.(ewm := s.ewm[x := M.Open], running := s.running - {x})
    ensures take.ReserveOrders? && ReservesOrders(t, u, take)
    ensures "a" in u.store.reservations && x in Listed(u.store.reservations["a"])
    ensures "b" in u.store.reservations && x in Listed(u.store.reservations["b"])
  {
    var a, b := s.store.reservations["a"], s.store.reservations["b"];
    assert a.whos[0].id == x;
    BothListed(a, b);
    take, u := UnassignListsTwice(SingleSetup(r), s, t, Unassign(x), "a", "b", [a, b]);
  }
}
