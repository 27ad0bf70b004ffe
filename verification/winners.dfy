/**
 * Closing an auction: which robot gets which warehouse order. Overdue orders are served
 * first, by latest start date; the remaining bids follow by value.
 */
module Winners {
  import opened Common
  import opened Warehouse
  import opened StableSorting

  /** A bid together with the robot that made it. */
  datatype RobotBid = RobotBid(robot: Robot, id: Ident, value: real)

  /**
   * How an order was won. `rank` is the position of the order among the sorted overdue
   * orders, -1 for an order given away in the second phase; `pos` is the position of the
   * winning bid among the sorted bids, -1 when the robot was picked at random.
   */
  datatype Award = Award(robot: Robot, id: Ident, rank: int, pos: int)

  function Assignment(a: Award): OrderAssignment {
    OrderAssignment(a.id, Upper(a.robot))
  }

  function Assignments(awards: seq<Award>): (r: seq<OrderAssignment>)
    ensures |r| == |awards|
    ensures forall m :: 0 <= m < |awards| ==> r[m] == Assignment(awards[m])
  {
    seq(|awards|, m requires 0 <= m < |awards| => Assignment(awards[m]))
  }

  function Robots(awards: seq<Award>): set<Robot> {
    set m | 0 <= m < |awards| :: awards[m].robot
  }

  function Whos(awards: seq<Award>): set<string> {
    set m | 0 <= m < |awards| :: awards[m].id.who
  }

  /* ---------- The accepted bids ---------- */

  function AcceptedOf(robot: Robot, biddings: seq<Bidding>, whos: seq<WarehouseOrder>): seq<RobotBid> {
    if biddings == [] then [] else
      var b := biddings[|biddings| - 1];
      AcceptedOf(robot, biddings[..|biddings| - 1], whos)
      + if Reserved(whos, b.id) then [RobotBid(robot, b.id, b.value)] else []
  }

  /** The bids for reserved orders made by available robots, in the order they are listed. */
  function Accepted(auctions: seq<OrderAuction>, whos: seq<WarehouseOrder>, available: set<Robot>): seq<RobotBid> {
    if auctions == [] then [] else
      var oa := auctions[|auctions| - 1];
      Accepted(auctions[..|auctions| - 1], whos, available)
      + if oa.robot in available then AcceptedOf(oa.robot, oa.biddings, whos) else []
  }

  function RobotsIn(auctions: seq<OrderAuction>): set<Robot> {
    set i | 0 <= i < |auctions| :: auctions[i].robot
  }

  lemma {:induction false} AcceptedOfIs(robot: Robot, biddings: seq<Bidding>, whos: seq<WarehouseOrder>, b: RobotBid)
    ensures b in AcceptedOf(robot, biddings, whos) <==>
            b.robot == robot && Reserved(whos, b.id) && Bidding(b.id, b.value) in biddings
  {
    if biddings != [] {
      var init, last := biddings[..|biddings| - 1], biddings[|biddings| - 1];
      assert biddings == init + [last];
      AcceptedOfIs(robot, init, whos, b);
    }
  }

  /**
   * A bid is accepted exactly when an available robot of the auction made it for an order
   * that is reserved.
   */
  lemma {:induction false} AcceptedIs(auctions: seq<OrderAuction>, whos: seq<WarehouseOrder>, available: set<Robot>,
                                      b: RobotBid)
    ensures b in Accepted(auctions, whos, available) <==>
            b.robot in available && Reserved(whos, b.id) &&
            exists i ::
                0 <= i < |auctions| && auctions[i].robot == b.robot && Bidding(b.id, b.value) in auctions[i].biddings
  {
    if auctions != [] {
      var init, last := auctions[..|auctions| - 1], auctions[|auctions| - 1];
      AcceptedIs(init, whos, available, b);
      AcceptedOfIs(last.robot, last.biddings, whos, b);
      assert forall i :: 0 <= i < |init| ==> auctions[i] == init[i];
    }
  }

  function BidValue(b: RobotBid): real { b.value }

  function Lsd(w: WarehouseOrder): real { w.lsd as real }

  function SortedBids(auctions: seq<OrderAuction>, whos: seq<WarehouseOrder>, available: set<Robot>): seq<RobotBid> {
    StableSort(Accepted(auctions, whos, available), BidValue)
  }

  predicate IsOverdue(w: WarehouseOrder, now: int) {
    w.lsd != 0 && now > w.lsd
  }

  function Overdue(whos: seq<WarehouseOrder>, now: int): (r: seq<WarehouseOrder>)
    ensures forall w :: w in r <==> w in whos && IsOverdue(w, now)
  {
    if whos == [] then [] else
      var init, last := whos[..|whos| - 1], whos[|whos| - 1];
      assert whos == init + [last];
      Overdue(init, now) + if IsOverdue(last, now) then [last] else []
  }

  function SortedOverdue(whos: seq<WarehouseOrder>, now: int): seq<WarehouseOrder> {
    StableSort(Overdue(whos, now), Lsd)
  }

  method FindReservation(whos: seq<WarehouseOrder>, id: Ident) returns (found: bool)
    ensures found == Reserved(whos, id)
  {
    found := false;
    for j := 0 to |whos|
      invariant !found && forall k :: 0 <= k < j ==> whos[k].id != id
    {
      if whos[j].id == id {
        found := true;
        break;
      }
    }
  }

  /** The bids of one auction resource; the scan stops at once for an unavailable robot. */
  method CollectBiddingsOf(oa: OrderAuction, whos: seq<WarehouseOrder>, available: set<Robot>)
    returns (bids: seq<RobotBid>)
    ensures bids == if oa.robot in available then AcceptedOf(oa.robot, oa.biddings, whos) else []
  {
    bids := [];
    for k := 0 to |oa.biddings|
      invariant bids == if oa.robot in available then AcceptedOf(oa.robot, oa.biddings[..k], whos) else []
    {
      if oa.robot !in available {
        break;
      }
      var b := oa.biddings[k];
      assert oa.biddings[..k + 1][..k] == oa.biddings[..k];
      var found := FindReservation(whos, b.id);
      if found {
        bids := bids + [RobotBid(oa.robot, b.id, b.value)];
      }
    }
    assert oa.biddings[..|oa.biddings|] == oa.biddings;
  }

  method CollectBiddings(auctions: seq<OrderAuction>, whos: seq<WarehouseOrder>, available: set<Robot>)
    returns (bids: seq<RobotBid>, inAuction: set<Robot>)
    ensures bids == Accepted(auctions, whos, available)
    ensures inAuction == RobotsIn(auctions)
  {
    bids, inAuction := [], {};
    for i := 0 to |auctions|
      invariant bids == Accepted(auctions[..i], whos, available)
      invariant inAuction == RobotsIn(auctions[..i])
    {
      assert auctions[..i + 1][..i] == auctions[..i];
      inAuction := inAuction + {auctions[i].robot};
      var more := CollectBiddingsOf(auctions[i], whos, available);
      bids := bids + more;
    }
    assert auctions[..|auctions|] == auctions;
  }

  /* ---------- What the winners satisfy ---------- */

  /** The award's robot made the bid at the award's position, for the award's order. */
  ghost predicate MadeBid(a: Award, bids: seq<RobotBid>) {
    0 <= a.pos < |bids| && bids[a.pos].robot == a.robot && bids[a.pos].id == a.id
  }

  /** Every robot and every order is used once, only reserved orders and candidate robots are. */
  ghost predicate Sound(awards: seq<Award>, bids: seq<RobotBid>, whos: seq<WarehouseOrder>, candidates: set<Robot>) {
    && (forall m :: 0 <= m < |awards| ==>
          && awards[m].robot in candidates
          && Reserved(whos, awards[m].id)
          && (awards[m].pos >= 0 ==> MadeBid(awards[m], bids)))
    && (forall l, m :: 0 <= l < m < |awards| ==>
          awards[l].robot != awards[m].robot && awards[l].id.who != awards[m].id.who)
  }

  /** Award m of the first phase goes to the first bid of a free robot, to a random one without such a bid. */
  ghost predicate FirstFreeBid(awards: seq<Award>, m: nat, bids: seq<RobotBid>)
    requires m < |awards|
  {
    forall i :: 0 <= i < |bids| && bids[i].id == awards[m].id && bids[i].robot !in Robots(awards[..m])
      ==> 0 <= awards[m].pos <= i
  }

  /** The first n awards serve overdue orders in their sorted order. */
  ghost predicate OverdueAwards(awards: seq<Award>, n: nat, bids: seq<RobotBid>, overdue: seq<WarehouseOrder>)
    requires n <= |awards|
  {
    && (forall m :: 0 <= m < n ==>
          && 0 <= awards[m].rank < |overdue| && overdue[awards[m].rank].id == awards[m].id
          && FirstFreeBid(awards, m, bids))
    && (forall l, m :: 0 <= l < m < n ==> awards[l].rank < awards[m].rank)
    && (forall m :: n <= m < |awards| ==> awards[m].rank == -1)
  }

  /** Overdue order j is served by its turn, or every candidate robot was busy by then. */
  ghost predicate OverdueServed(awards: seq<Award>, j: nat, overdue: seq<WarehouseOrder>, candidates: set<Robot>)
    requires j < |overdue|
  {
    || (exists m :: 0 <= m < |awards| && 0 <= awards[m].rank <= j && awards[m].id.who == overdue[j].id.who)
    || (candidates <= Robots(awards) && forall m :: 0 <= m < |awards| ==> 0 <= awards[m].rank < j)
  }

  /** Bid i found its robot or its order fixed: in the first phase, or by a bid at or before i. */
  ghost predicate Settled(awards: seq<Award>, n: nat, b: RobotBid, i: nat) {
    exists m :: 0 <= m < |awards| && (awards[m].robot == b.robot || awards[m].id.who == b.id.who)
                && (m < n || 0 <= awards[m].pos <= i)
  }

  /** The complete promise of the selection; n is the number of awards of the first phase. */
  ghost predicate Outcome(whos: seq<WarehouseOrder>, auctions: seq<OrderAuction>, available: set<Robot>, now: int,
                          awards: seq<Award>, n: nat)
  {
    var bids := SortedBids(auctions, whos, available);
    var overdue := SortedOverdue(whos, now);
    var candidates := available * RobotsIn(auctions);
    && n <= |awards|
    && Sound(awards, bids, whos, candidates)
    && OverdueAwards(awards, n, bids, overdue)
    && (forall j :: 0 <= j < |overdue| ==> OverdueServed(awards, j, overdue, candidates))
    && (forall m :: n <= m < |awards| ==> awards[m].pos >= 0)
    && (forall l, m :: n <= l < m < |awards| ==> awards[l].pos < awards[m].pos)
    && (forall i :: 0 <= i < |bids| ==> Settled(awards, n, bids[i], i))
  }

  /** The assignments come from awards that keep the promise. */
  ghost predicate Chosen(whos: seq<WarehouseOrder>, auctions: seq<OrderAuction>, available: set<Robot>, now: int,
                         orderAssignments: seq<OrderAssignment>)
  {
    exists awards, n :: orderAssignments == Assignments(awards) && Outcome(whos, auctions, available, now, awards, n)
  }

  /* ---------- The selection ---------- */

  /** The lookup maps and the result list agree with the awards made so far. */
  ghost predicate Tracks(awards: seq<Award>, robots: set<Robot>, orders: set<string>, result: seq<OrderAssignment>) {
    robots == Robots(awards) && orders == Whos(awards) && result == Assignments(awards)
  }

  lemma TracksAppend(awards: seq<Award>, a: Award, robots: set<Robot>, orders: set<string>,
                     result: seq<OrderAssignment>)
    requires Tracks(awards, robots, orders, result)
    ensures Tracks(awards + [a], robots + {a.robot}, orders + {a.id.who}, result + [Assignment(a)])
  {
    var t := awards + [a];
    assert Robots(t) == Robots(awards) + {a.robot} by {
      assert t[|awards|] == a;
      assert forall m :: 0 <= m < |awards| ==> t[m] == awards[m];
    }
    assert Whos(t) == Whos(awards) + {a.id.who} by {
      assert t[|awards|] == a;
      assert forall m :: 0 <= m < |awards| ==> t[m] == awards[m];
    }
  }

  /** What holds after the first j overdue orders were served. */
  ghost predicate FirstPhase(awards: seq<Award>, j: nat, bids: seq<RobotBid>, overdue: seq<WarehouseOrder>,
                             whos: seq<WarehouseOrder>, candidates: set<Robot>)
    requires j <= |overdue|
  {
    && Sound(awards, bids, whos, candidates)
    && OverdueAwards(awards, |awards|, bids, overdue)
    && (forall m :: 0 <= m < |awards| ==> awards[m].rank < j)
    && (forall k :: 0 <= k < j ==> OverdueServed(awards, k, overdue, candidates))
  }

  /** Serving overdue order j keeps what the earlier ones were promised. */
  lemma FirstPhaseServe(awards: seq<Award>, a: Award, j: nat, bids: seq<RobotBid>, overdue: seq<WarehouseOrder>,
                        whos: seq<WarehouseOrder>, candidates: set<Robot>)
    requires j < |overdue| && FirstPhase(awards, j, bids, overdue, whos, candidates)
    requires a.rank == j && a.id == overdue[j].id && Reserved(whos, a.id)
    requires a.robot in candidates && a.robot !in Robots(awards) && a.id.who !in Whos(awards)
    requires a.pos >= 0 ==> MadeBid(a, bids)
    requires forall i :: 0 <= i < |bids| && bids[i].id == a.id && bids[i].robot !in Robots(awards) ==> 0 <= a.pos <= i
    ensures FirstPhase(awards + [a], j + 1, bids, overdue, whos, candidates)
  {
    var t := awards + [a];
    assert forall m :: 0 <= m < |awards| ==> t[m] == awards[m] && t[..m] == awards[..m];
    assert t[..|awards|] == awards;
    forall m | 0 <= m < |t| ensures FirstFreeBid(t, m, bids) {
      if m < |awards| {
        assert FirstFreeBid(awards, m, bids);
      }
    }
    forall k | 0 <= k < j + 1 ensures OverdueServed(t, k, overdue, candidates) {
      if k < j {
        ServedMonotone(awards, a, k, overdue, candidates);
      } else {
        assert t[|awards|] == a;
      }
    }
  }

  lemma ServedMonotone(awards: seq<Award>, a: Award, k: nat, overdue: seq<WarehouseOrder>, candidates: set<Robot>)
    requires k < |overdue| && OverdueServed(awards, k, overdue, candidates)
    requires a.robot in candidates && a.robot !in Robots(awards)
    ensures OverdueServed(awards + [a], k, overdue, candidates)
  {
    if m :| 0 <= m < |awards| && 0 <= awards[m].rank <= k && awards[m].id.who == overdue[k].id.who {
      assert (awards + [a])[m] == awards[m];
    }
  }

  /** Skipping overdue order j is right when its number is taken or no candidate is left. */
  lemma FirstPhaseSkip(awards: seq<Award>, j: nat, bids: seq<RobotBid>, overdue: seq<WarehouseOrder>,
                       whos: seq<WarehouseOrder>, candidates: set<Robot>)
    requires j < |overdue| && FirstPhase(awards, j, bids, overdue, whos, candidates)
    requires overdue[j].id.who in Whos(awards) || candidates <= Robots(awards)
    ensures FirstPhase(awards, j + 1, bids, overdue, whos, candidates)
  {
  }

  /** The first bid for the order made by a robot without an assignment. */
  method FindFreeBid(bids: seq<RobotBid>, who: WarehouseOrder, ordersAssigned: set<string>, robotsAssigned: set<Robot>)
    returns (pos: int)
    ensures -1 <= pos < |bids|
    ensures pos >= 0 ==> bids[pos].id == who.id && bids[pos].robot !in robotsAssigned && who.id.who !in ordersAssigned
    ensures who.id.who !in ordersAssigned ==>
              forall i :: 0 <= i < |bids| && bids[i].id == who.id && bids[i].robot !in robotsAssigned ==> 0 <= pos <= i
  {
    pos := -1;
    for i := 0 to |bids|
      invariant pos == -1
      invariant who.id.who !in ordersAssigned ==>
                  forall k :: 0 <= k < i && bids[k].id == who.id ==> bids[k].robot in robotsAssigned
    {
      if who.id.who in ordersAssigned || bids[i].robot in robotsAssigned {
        continue;
      }
      if who.id == bids[i].id {
        pos := i;
        break;
      }
    }
  }

  /** Some available robot of the auction without an assignment, in no particular order. */
  method FindRandomRobot(available: set<Robot>, robotsAssigned: set<Robot>, inAuction: set<Robot>)
    returns (robot: Option<Robot>)
    ensures robot.Some? ==> robot.value in available * inAuction && robot.value !in robotsAssigned
    ensures robot.None? ==> available * inAuction <= robotsAssigned
  {
    robot := None;
    var rest := available;
    while rest != {}
      invariant rest <= available
      invariant robot.None?
      invariant forall r :: r in available - rest && r in inAuction ==> r in robotsAssigned
    {
      var r :| r in rest;
      rest := rest - {r};
      if r !in robotsAssigned && r in inAuction {
        robot := Some(r);
        break;
      }
    }
  }

  /** First assignments: the overdue orders. */
  method AssignOverdue(bids: seq<RobotBid>, overdue: seq<WarehouseOrder>, available: set<Robot>, inAuction: set<Robot>,
                       ghost whos: seq<WarehouseOrder>)
    returns (orderAssignments: seq<OrderAssignment>, robotsAssigned: set<Robot>, ordersAssigned: set<string>,
             ghost awards: seq<Award>)
    requires forall w :: w in overdue ==> Reserved(whos, w.id)
    requires forall b :: b in bids ==> b.robot in available * inAuction
    ensures Tracks(awards, robotsAssigned, ordersAssigned, orderAssignments)
    ensures FirstPhase(awards, |overdue|, bids, overdue, whos, available * inAuction)
  {
    orderAssignments, robotsAssigned, ordersAssigned, awards := [], {}, {}, [];
    for j := 0 to |overdue|
      invariant Tracks(awards, robotsAssigned, ordersAssigned, orderAssignments)
      invariant FirstPhase(awards, j, bids, overdue, whos, available * inAuction)
    {
      var who := overdue[j];
      ghost var before := awards;
      var pos := FindFreeBid(bids, who, ordersAssigned, robotsAssigned);
      if pos >= 0 {
        var bid := bids[pos];
        assert bid in bids;
        ghost var a := Award(bid.robot, bid.id, j, pos);
        TracksAppend(awards, a, robotsAssigned, ordersAssigned, orderAssignments);
        FirstPhaseServe(awards, a, j, bids, overdue, whos, available * inAuction);
        orderAssignments := orderAssignments + [OrderAssignment(bid.id, Upper(bid.robot))];
        robotsAssigned := robotsAssigned + {bid.robot};
        ordersAssigned := ordersAssigned + {bid.id.who};
        awards := awards + [a];
      }
      if who.id.who !in ordersAssigned {
        var robot := FindRandomRobot(available, robotsAssigned, inAuction);
        if robot.Some? {
          ghost var a := Award(robot.value, who.id, j, -1);
          TracksAppend(awards, a, robotsAssigned, ordersAssigned, orderAssignments);
          FirstPhaseServe(awards, a, j, bids, overdue, whos, available * inAuction);
          orderAssignments := orderAssignments + [OrderAssignment(who.id, Upper(robot.value))];
          robotsAssigned := robotsAssigned + {robot.value};
          ordersAssigned := ordersAssigned + {who.id.who};
          awards := awards + [a];
        } else {
          FirstPhaseSkip(awards, j, bids, overdue, whos, available * inAuction);
        }
      } else if awards == before {
        FirstPhaseSkip(awards, j, bids, overdue, whos, available * inAuction);
      }
    }
  }

  /** What holds after the first i sorted bids were looked at in the second phase. */
  ghost predicate SecondPhase(first: seq<Award>, awards: seq<Award>, i: nat, bids: seq<RobotBid>,
                              whos: seq<WarehouseOrder>, candidates: set<Robot>)
    requires i <= |bids|
  {
    && first <= awards
    && Sound(awards, bids, whos, candidates)
    && (forall m :: |first| <= m < |awards| ==> awards[m].rank == -1 && 0 <= awards[m].pos < i)
    && (forall l, m :: |first| <= l < m < |awards| ==> awards[l].pos < awards[m].pos)
    && (forall k :: 0 <= k < i ==> Settled(awards, |first|, bids[k], k))
  }

  /** Taking bid i settles it and leaves the earlier bids settled. */
  lemma SecondPhaseTake(first: seq<Award>, awards: seq<Award>, i: nat, bids: seq<RobotBid>,
                        whos: seq<WarehouseOrder>, candidates: set<Robot>)
    requires i < |bids| && SecondPhase(first, awards, i, bids, whos, candidates)
    requires bids[i].robot in candidates && Reserved(whos, bids[i].id)
    requires bids[i].robot !in Robots(awards) && bids[i].id.who !in Whos(awards)
    ensures SecondPhase(first, awards + [Award(bids[i].robot, bids[i].id, -1, i)], i + 1, bids, whos, candidates)
  {
    var a := Award(bids[i].robot, bids[i].id, -1, i);
    forall k | 0 <= k < i + 1 ensures Settled(awards + [a], |first|, bids[k], k) {
      if k < i {
        SettledMonotone(awards, a, |first|, bids[k], k);
      } else {
        assert (awards + [a])[|awards|] == a;
      }
    }
  }

  lemma SettledMonotone(awards: seq<Award>, a: Award, n: nat, b: RobotBid, k: nat)
    requires Settled(awards, n, b, k)
    ensures Settled(awards + [a], n, b, k)
  {
    var m :| 0 <= m < |awards| && (awards[m].robot == b.robot || awards[m].id.who == b.id.who)
             && (m < n || 0 <= awards[m].pos <= k);
    assert (awards + [a])[m] == awards[m];
  }

  /** A bid whose robot or order is taken is settled already. */
  lemma SecondPhaseSkip(first: seq<Award>, awards: seq<Award>, i: nat, bids: seq<RobotBid>,
                        whos: seq<WarehouseOrder>, candidates: set<Robot>)
    requires i < |bids| && SecondPhase(first, awards, i, bids, whos, candidates)
    requires bids[i].robot in Robots(awards) || bids[i].id.who in Whos(awards)
    ensures SecondPhase(first, awards, i + 1, bids, whos, candidates)
  {
  }

  lemma NewAwardsTakeNewRobots(first: seq<Award>, awards: seq<Award>, bids: seq<RobotBid>, whos: seq<WarehouseOrder>,
                               candidates: set<Robot>)
    requires first <= awards && Sound(awards, bids, whos, candidates)
    ensures |awards| > |first| ==> exists r :: r in candidates && r !in Robots(first)
  {
    if |awards| > |first| {
      var r := awards[|first|].robot;
      assert r in candidates && r !in Robots(first);
    }
  }

  /** What the first phase promises survives the second one. */
  lemma PhasesCombine(first: seq<Award>, awards: seq<Award>, bids: seq<RobotBid>, overdue: seq<WarehouseOrder>,
                      whos: seq<WarehouseOrder>, candidates: set<Robot>)
    requires FirstPhase(first, |overdue|, bids, overdue, whos, candidates)
    requires SecondPhase(first, awards, |bids|, bids, whos, candidates)
    ensures OverdueAwards(awards, |first|, bids, overdue)
    ensures forall j :: 0 <= j < |overdue| ==> OverdueServed(awards, j, overdue, candidates)
  {
    assert forall m :: 0 <= m < |first| ==> awards[m] == first[m] && awards[..m] == first[..m];
    forall m | 0 <= m < |first| ensures FirstFreeBid(awards, m, bids) {
      assert FirstFreeBid(first, m, bids);
    }
    forall j | 0 <= j < |overdue| ensures OverdueServed(awards, j, overdue, candidates) {
      assert OverdueServed(first, j, overdue, candidates);
      if m :| 0 <= m < |first| && 0 <= first[m].rank <= j && first[m].id.who == overdue[j].id.who {
        assert awards[m] == first[m];
      } else {
        assert candidates <= Robots(first);
        NewAwardsTakeNewRobots(first, awards, bids, whos, candidates);
        assert awards == first;
      }
    }
  }

  /** The second phase: every bid whose robot and order are free wins, in the order of the sorted bids. */
  method AssignByValue(bids: seq<RobotBid>, whos: seq<WarehouseOrder>, orderAssignments: seq<OrderAssignment>,
                       robotsAssigned: set<Robot>, ordersAssigned: set<string>, ghost first: seq<Award>,
                       ghost candidates: set<Robot>)
    returns (result: seq<OrderAssignment>, ghost awards: seq<Award>)
    requires Tracks(first, robotsAssigned, ordersAssigned, orderAssignments)
    requires SecondPhase(first, first, 0, bids, whos, candidates)
    requires forall b :: b in bids ==> b.robot in candidates && Reserved(whos, b.id)
    ensures result == Assignments(awards) && SecondPhase(first, awards, |bids|, bids, whos, candidates)
  {
    var robots, orders;
    result, robots, orders, awards := orderAssignments, robotsAssigned, ordersAssigned, first;
    for i := 0 to |bids|
      invariant Tracks(awards, robots, orders, result)
      invariant SecondPhase(first, awards, i, bids, whos, candidates)
    {
      var bid := bids[i];
      assert bid in bids;
      if bid.id.who !in orders && bid.robot !in robots {
        ghost var a := Award(bid.robot, bid.id, -1, i);
        SecondPhaseTake(first, awards, i, bids, whos, candidates);
        TracksAppend(awards, a, robots, orders, result);
        result := result + [OrderAssignment(bid.id, Upper(bid.robot))];
        robots := robots + {bid.robot};
        orders := orders + {bid.id.who};
        awards := awards + [a];
      } else {
        SecondPhaseSkip(first, awards, i, bids, whos, candidates);
      }
    }
  }

  lemma OverdueAreReserved(whos: seq<WarehouseOrder>, now: int)
    ensures forall w :: w in SortedOverdue(whos, now) ==> Reserved(whos, w.id)
  {
    SortKeepsElements(Overdue(whos, now), Lsd);
    forall w | w in SortedOverdue(whos, now) ensures Reserved(whos, w.id) {
      var k :| 0 <= k < |whos| && whos[k] == w;
    }
  }

  /** Identifies the winners of an auction. */
  method GetAuctionWinners(whos: seq<WarehouseOrder>, auctions: seq<OrderAuction>, available: set<Robot>, now: int)
    returns (orderAssignments: seq<OrderAssignment>)
    ensures Chosen(whos, auctions, available, now, orderAssignments)
    ensures forall l, m :: 0 <= l < m < |orderAssignments| ==> orderAssignments[l].id.who != orderAssignments[m].id.who
    ensures forall a :: a in orderAssignments ==>
              Reserved(whos, a.id) && exists r :: r in available * RobotsIn(auctions) && a.rsrc == Upper(r)
  {
    var collected, inAuction := CollectBiddings(auctions, whos, available);
    var bids := StableSort(collected, BidValue);
    var overdue := StableSort(Overdue(whos, now), Lsd);
    ghost var candidates := available * inAuction;
    SortedBidsAccepted(auctions, whos, available);
    OverdueAreReserved(whos, now);

    var robotsAssigned, ordersAssigned;
    ghost var first, awards;
    orderAssignments, robotsAssigned, ordersAssigned, first := AssignOverdue(bids, overdue, available, inAuction, whos);
    orderAssignments, awards := AssignByValue(bids, whos, orderAssignments, robotsAssigned, ordersAssigned, first,
                                              candidates);
    PhasesCombine(first, awards, bids, overdue, whos, candidates);
    assert Outcome(whos, auctions, available, now, awards, |first|);
  }

  /** The sorted bids are the accepted ones: from candidate robots, for reserved orders. */
  lemma SortedBidsAccepted(auctions: seq<OrderAuction>, whos: seq<WarehouseOrder>, available: set<Robot>)
    ensures forall b :: b in SortedBids(auctions, whos, available) <==> b in Accepted(auctions, whos, available)
    ensures forall b :: b in SortedBids(auctions, whos, available) ==>
              b.robot in available * RobotsIn(auctions) && Reserved(whos, b.id)
  {
    SortKeepsElements(Accepted(auctions, whos, available), BidValue);
    forall b | b in Accepted(auctions, whos, available)
      ensures b.robot in available * RobotsIn(auctions) && Reserved(whos, b.id)
    {
      AcceptedIs(auctions, whos, available, b);
    }
  }

  /* ---------- What follows from the promise ---------- */

  /** A set of bids in which no robot and no order occurs twice. */
  ghost predicate Matching(bids: set<RobotBid>) {
    forall b, c :: b in bids && c in bids && b != c ==> b.robot != c.robot && b.id.who != c.id.who
  }

  /** Every accepted bid touches a robot or an order which was assigned. */
  lemma Maximal(whos: seq<WarehouseOrder>, auctions: seq<OrderAuction>, available: set<Robot>, now: int,
                awards: seq<Award>, n: nat, b: RobotBid)
    requires Outcome(whos, auctions, available, now, awards, n)
    requires b in Accepted(auctions, whos, available)
    ensures b.robot in Robots(awards) || b.id.who in Whos(awards)
  {
    var bids := SortedBids(auctions, whos, available);
    SortedBidsAccepted(auctions, whos, available);
    var i :| 0 <= i < |bids| && bids[i] == b;
    assert Settled(awards, n, bids[i], i);
  }

  /** No assignment of orders to bidders reaches more than twice as many orders. */
  lemma HalfOfOptimum(whos: seq<WarehouseOrder>, auctions: seq<OrderAuction>, available: set<Robot>, now: int,
                      awards: seq<Award>, n: nat, best: set<RobotBid>)
    requires Outcome(whos, auctions, available, now, awards, n)
    requires Matching(best) && forall b :: b in best ==> b in Accepted(auctions, whos, available)
    ensures |best| <= 2 * |awards|
  {
    forall b | b in best ensures b.robot in Robots(awards) || b.id.who in Whos(awards) {
      Maximal(whos, auctions, available, now, awards, n, b);
    }
    CoveredMatching(awards, best);
  }

  /** A matching whose bids all touch an award: each award is touched at most twice. */
  lemma CoveredMatching(awards: seq<Award>, best: set<RobotBid>)
    requires Matching(best)
    requires forall b :: b in best ==> b.robot in Robots(awards) || b.id.who in Whos(awards)
    ensures |best| <= 2 * |awards|
  {
    var byRobot := set b | b in best && b.robot in Robots(awards);
    var byOrder := best - byRobot;
    assert best == byRobot + byOrder;
    InjectionCard(byRobot, (b: RobotBid) => b.robot, Robots(awards));
    InjectionCard(byOrder, (b: RobotBid) => b.id.who, Whos(awards));
    AwardCounts(awards);
  }

  lemma AwardCounts(awards: seq<Award>)
    ensures |Robots(awards)| <= |awards| && |Whos(awards)| <= |awards|
  {
    if awards != [] {
      var init, last := awards[..|awards| - 1], awards[|awards| - 1];
      AwardCounts(init);
      TracksAppend(init, last, Robots(init), Whos(init), Assignments(init));
      assert awards == init + [last];
    }
  }

  /** The award's robot bid at most v for the award's order. */
  ghost predicate WonByAtMost(a: Award, accepted: seq<RobotBid>, v: real) {
    exists w :: RobotBid(a.robot, a.id, w) in accepted && w <= v
  }

  lemma EarlierBidIsNoHigher(a: Award, accepted: seq<RobotBid>, i: nat)
    requires MadeBid(a, StableSort(accepted, BidValue)) && a.pos <= i < |StableSort(accepted, BidValue)|
    ensures WonByAtMost(a, accepted, StableSort(accepted, BidValue)[i].value)
  {
    var bids := StableSort(accepted, BidValue);
    StableSortProps(accepted, BidValue);
    SortKeepsElements(accepted, BidValue);
    var won := bids[a.pos];
    assert won in bids && BidValue(won) <= BidValue(bids[i]);
    assert won == RobotBid(a.robot, a.id, won.value);
  }

  /**
   * No blocking bid: a bid that lost did so because its robot or its order was fixed in the
   * first phase, or won with a bid that was not higher.
   */
  lemma NoBlockingBid(whos: seq<WarehouseOrder>, auctions: seq<OrderAuction>, available: set<Robot>, now: int,
                      awards: seq<Award>, n: nat, b: RobotBid)
    requires Outcome(whos, auctions, available, now, awards, n)
    requires b in Accepted(auctions, whos, available)
    ensures exists m :: 0 <= m < |awards| && (awards[m].robot == b.robot || awards[m].id.who == b.id.who)
                        && (0 <= awards[m].rank || WonByAtMost(awards[m], Accepted(auctions, whos, available), b.value))
  {
    var bids := SortedBids(auctions, whos, available);
    SortedBidsAccepted(auctions, whos, available);
    var i :| 0 <= i < |bids| && bids[i] == b;
    assert Settled(awards, n, bids[i], i);
    var m :| 0 <= m < |awards| && (awards[m].robot == b.robot || awards[m].id.who == b.id.who)
             && (m < n || 0 <= awards[m].pos <= i);
    if m >= n {
      EarlierBidIsNoHigher(awards[m], Accepted(auctions, whos, available), i);
    }
  }

  /**
   * An overdue order that got no robot found all available robots of the auction busy with
   * overdue orders that come before it in the sorted list; neither a later overdue order, also
   * of the same date, nor an order in time got one.
   */
  lemma OverduePriority(whos: seq<WarehouseOrder>, auctions: seq<OrderAuction>, available: set<Robot>, now: int,
                        awards: seq<Award>, n: nat, w: WarehouseOrder)
    requires Outcome(whos, auctions, available, now, awards, n)
    requires w in whos && w.lsd != 0 && w.lsd < now && w.id.who !in Whos(awards)
    ensures w in SortedOverdue(whos, now) && available * RobotsIn(auctions) <= Robots(awards)
    ensures var overdue := SortedOverdue(whos, now);
      forall j, m | 0 <= j < |overdue| && overdue[j] == w && 0 <= m < |awards| :: EarlierOverdue(overdue, awards[m], j)
    ensures forall m :: 0 <= m < |awards| ==>
              exists e :: e in whos && e.lsd != 0 && e.lsd <= w.lsd && e.id == awards[m].id
  {
    var overdue := SortedOverdue(whos, now);
    SortKeepsElements(Overdue(whos, now), Lsd);
    StableSortProps(Overdue(whos, now), Lsd);
    forall j | 0 <= j < |overdue| && overdue[j] == w
      ensures available * RobotsIn(auctions) <= Robots(awards)
      ensures forall m :: 0 <= m < |awards| ==> EarlierOverdue(overdue, awards[m], j)
    {
      assert OverdueServed(awards, j, overdue, available * RobotsIn(auctions));
    }
    var j :| 0 <= j < |overdue| && overdue[j] == w;
    forall m | 0 <= m < |awards|
      ensures exists e :: e in whos && e.lsd != 0 && e.lsd <= w.lsd && e.id == awards[m].id
    {
      assert EarlierOverdue(overdue, awards[m], j);
      var e := overdue[awards[m].rank];
      assert e in overdue;
      assert Lsd(e) <= Lsd(overdue[j]);
    }
  }

  /** In the first phase only orders are served whose latest start date is over. */
  lemma OverdueOnly(whos: seq<WarehouseOrder>, auctions: seq<OrderAuction>, available: set<Robot>, now: int,
                    awards: seq<Award>, n: nat, m: nat)
    requires Outcome(whos, auctions, available, now, awards, n) && m < n
    ensures exists e :: e in whos && e.lsd != 0 && e.lsd < now && e.id == awards[m].id
  {
    SortKeepsElements(Overdue(whos, now), Lsd);
    var overdue := SortedOverdue(whos, now);
    assert overdue[awards[m].rank] in overdue;
  }

  /** The award serves an order that comes before position j of the sorted overdue orders. */
  predicate EarlierOverdue(overdue: seq<WarehouseOrder>, a: Award, j: nat) {
    0 <= a.rank < j && a.rank < |overdue| && overdue[a.rank].id == a.id
  }

  /**
   * An overdue order goes to the lowest bid among the robots which no earlier award took; a
   * robot that did not bid gets it only if none of those robots bid for it.
   */
  lemma OverdueLowestBid(whos: seq<WarehouseOrder>, auctions: seq<OrderAuction>, available: set<Robot>, now: int,
                         awards: seq<Award>, n: nat, m: nat, b: RobotBid)
    requires Outcome(whos, auctions, available, now, awards, n)
    requires m < n && b in Accepted(auctions, whos, available)
    requires b.id == awards[m].id && b.robot !in Robots(awards[..m])
    ensures WonByAtMost(awards[m], Accepted(auctions, whos, available), b.value)
  {
    var bids := SortedBids(auctions, whos, available);
    SortedBidsAccepted(auctions, whos, available);
    var i :| 0 <= i < |bids| && bids[i] == b;
    assert FirstFreeBid(awards, m, bids);
    EarlierBidIsNoHigher(awards[m], Accepted(auctions, whos, available), i);
  }

  /** With object names as robot names the assigned resources differ too. */
  lemma ResourcesDiffer(awards: seq<Award>, bids: seq<RobotBid>, whos: seq<WarehouseOrder>, candidates: set<Robot>)
    requires Sound(awards, bids, whos, candidates)
    requires forall r :: r in candidates ==> LowerName(r)
    ensures forall l, m :: 0 <= l < m < |awards| ==> Assignments(awards)[l].rsrc != Assignments(awards)[m].rsrc
  {
    forall l, m | 0 <= l < m < |awards| ensures Assignments(awards)[l].rsrc != Assignments(awards)[m].rsrc {
      if Upper(awards[l].robot) == Upper(awards[m].robot) {
        LowerUpper(awards[l].robot);
        LowerUpper(awards[m].robot);
      }
    }
  }
}
