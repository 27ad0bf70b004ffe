/**
 * One reconcile of an auctioneer: it classifies its reservations, completes and closes
 * auctions, opens new ones and asks for more orders.
 */
module AuctionCycle {
  import opened Common
  import opened Warehouse
  import opened StableSorting
  import Winners

  /** An OrderAuction is named after its reservation and its robot. */
  datatype Key = Key(res: string, robot: Robot)

  /** The custom resources; auctions are owned by their reservation and deleted with it. */
  datatype Store = Store(reservations: map<string, Reservation>, auctions: map<Key, OrderAuction>)

  datatype Config = Config(owner: string, scope: Scope, minOrders: int, maxOrders: int, minPerAuction: int)

  datatype RobotStates = RobotStates(inScope: set<Robot>, available: set<Robot>)

  /** Which writes to the cluster fail during a reconcile. */
  datatype Failures = Failures(
    deletions: set<string>, assignments: set<string>, closings: set<Key>, completions: set<Key>,
    creations: set<Key>, request: bool)

  datatype Class = ToCreate | ToClose | ToComplete | Running | Waiting | Inconsistent | Unclassified

  const TIME_BUFFER_ORDER_RESERVATION := 10

  const KEPT_RESERVATIONS := 50

  /** Reading a counter that was never set yields zero. */
  function At(counts: map<Robot, int>, r: Robot): int {
    if r in counts then counts[r] else 0
  }

  function OwnedNames(s: Store, owner: string): set<string> {
    set n | n in s.reservations && s.reservations[n].owner == owner
  }

  function KeysOf(s: Store, n: string): set<Key> {
    set k | k in s.auctions && k.res == n
  }

  /** The uncompleted auctions of a robot for one auctioneer. */
  function UncompletedOf(s: Store, owner: string, r: Robot): set<Key> {
    set k | k in s.auctions && k.robot == r && k.res in OwnedNames(s, owner) && s.auctions[k].status != AuctionCompleted
  }

  /** The orders running on a robot, by the resources labeled with it. */
  function RunningOn(running: map<Ident, Robot>, r: Robot): set<Ident> {
    set id | id in running && running[id] == r
  }

  /* ---------- Classification ---------- */

  /** Whether the auction has to be waited for: its robot may bid and did not finish yet. */
  predicate StillBidding(oa: OrderAuction, available: set<Robot>, now: int) {
    oa.robot in available && !oa.bidCompleted && oa.validUntil > now
  }

  function Classify(res: Reservation, crs: set<OrderAuction>, available: set<Robot>, now: int): Class {
    match res.status
    case Reservations =>
      if crs == {} then ToCreate
      else if res.assignments != [] then Waiting
      else if exists oa :: oa in crs && oa.whos != res.whos then Inconsistent
      else if exists oa :: oa in crs && StillBidding(oa, available, now) then Running
      else ToClose
    case Succeeded => ToComplete
    case Timeout => ToComplete
    case New => Waiting
    case Accepted => Waiting
    case Unset => Waiting
    case Failed => Unclassified
  }

  /** The orders are reserved, and the auctioneer has not decided yet. */
  predicate Undecided(res: Reservation) {
    res.status == Reservations && res.assignments == []
  }

  /** One of the auctions is for other orders than the reservation has. */
  ghost predicate Mismatched(res: Reservation, crs: set<OrderAuction>) {
    exists oa :: oa in crs && oa.whos != res.whos
  }

  /** A robot that is available has not finished bidding, and there is time left. */
  ghost predicate SomeoneBids(crs: set<OrderAuction>, available: set<Robot>, now: int) {
    exists oa :: oa in crs && oa.robot in available && !oa.bidCompleted && now < oa.validUntil
  }

  /** What each class means for the reservation and its auctions. */
  ghost predicate ClassFits(c: Class, res: Reservation, crs: set<OrderAuction>, available: set<Robot>, now: int) {
    && (c == ToComplete <==> res.status == Succeeded || res.status == Timeout)
    && (c == ToCreate <==> res.status == Reservations && crs == {})
    && (c == Inconsistent <==> Undecided(res) && Mismatched(res, crs))
    && (c == ToClose <==> Undecided(res) && crs != {} && !Mismatched(res, crs) && !SomeoneBids(crs, available, now))
    && (c == Running <==> Undecided(res) && !Mismatched(res, crs) && SomeoneBids(crs, available, now))
    && (c == Waiting <==> res.status == Unset || res.status == New || res.status == Accepted
                          || (res.status == Reservations && crs != {} && res.assignments != []))
    && (c == Unclassified <==> res.status == Failed)
  }

  lemma ClassIs(res: Reservation, crs: set<OrderAuction>, available: set<Robot>, now: int)
    ensures ClassFits(Classify(res, crs, available, now), res, crs, available, now)
  {
    if oa :| oa in crs && oa.robot in available && !oa.bidCompleted && now < oa.validUntil {
      assert StillBidding(oa, available, now);
    }
  }

  function ResourcesOf(s: Store, n: string): set<OrderAuction> {
    set k | k in KeysOf(s, n) :: s.auctions[k]
  }

  function ClassOf(s: Store, n: string, available: set<Robot>, now: int): Class
    requires n in s.reservations
  {
    Classify(s.reservations[n], ResourcesOf(s, n), available, now)
  }

  /** The names in class c, in the order of the list. */
  function WithClass(s: Store, names: seq<string>, c: Class, available: set<Robot>, now: int): (r: seq<string>)
    ensures forall n :: n in r <==> n in names && n in s.reservations && ClassOf(s, n, available, now) == c
  {
    if names == [] then [] else
      var init, last := names[..|names| - 1], names[|names| - 1];
      assert names == init + [last];
      WithClass(s, init, c, available, now)
      + if last in s.reservations && ClassOf(s, last, available, now) == c then [last] else []
  }

  /** The list of a class grows with a reservation of this class. */
  lemma WithClassNext(s: Store, names: seq<string>, i: nat, available: set<Robot>, now: int, c: Class)
    requires i < |names| && names[i] in s.reservations && c == ClassOf(s, names[i], available, now)
    ensures forall d :: WithClass(s, names[..i + 1], d, available, now) ==
                        WithClass(s, names[..i], d, available, now) + if d == c then [names[i]] else []
  {
    assert names[..i + 1][..i] == names[..i];
  }

  /** The lists hold the reservations which are to be deleted, completed, closed, opened or waited for. */
  ghost predicate Sorted(s: Store, names: seq<string>, available: set<Robot>, now: int, inconsistent: seq<string>,
                         toComplete: seq<string>, toClose: seq<string>, toCreate: seq<string>, waiting: seq<string>)
  {
    forall n | n in names && n in s.reservations ::
      var res, crs := s.reservations[n], ResourcesOf(s, n);
      && (n in inconsistent <==> Undecided(res) && Mismatched(res, crs))
      && (n in toComplete <==> res.status == Succeeded || res.status == Timeout)
      && (n in toClose <==>
          Undecided(res) && crs != {} && !Mismatched(res, crs) && !SomeoneBids(crs, available, now))
      && (n in toCreate <==> res.status == Reservations && crs == {})
      && (n in waiting <==> res.status == Unset || res.status == New || res.status == Accepted
                            || (res.status == Reservations && crs != {} && res.assignments != []))
  }

  lemma SortedByClass(s: Store, names: seq<string>, available: set<Robot>, now: int)
    ensures Sorted(s, names, available, now, WithClass(s, names, Inconsistent, available, now),
                   WithClass(s, names, ToComplete, available, now), WithClass(s, names, ToClose, available, now),
                   WithClass(s, names, ToCreate, available, now), WithClass(s, names, Waiting, available, now))
  {
    forall n | n in names && n in s.reservations
      ensures ClassFits(ClassOf(s, n, available, now), s.reservations[n], ResourcesOf(s, n), available, now)
    {
      ClassIs(s.reservations[n], ResourcesOf(s, n), available, now);
    }
  }

  lemma {:induction false} WithClassNoDuplicates(s: Store, names: seq<string>, c: Class, available: set<Robot>,
                                                 now: int)
    requires NoDuplicates(names)
    ensures NoDuplicates(WithClass(s, names, c, available, now))
  {
    if names != [] {
      WithClassNoDuplicates(s, names[..|names| - 1], c, available, now);
    }
  }

  method ClassifyAuction(res: Reservation, crs: seq<OrderAuction>, available: set<Robot>, now: int) returns (c: Class)
    ensures c == Classify(res, Elements(crs), available, now)
    ensures ClassFits(c, res, Elements(crs), available, now)
  {
    ClassIs(res, Elements(crs), available, now);
    match res.status {
      case Reservations =>
        if |crs| == 0 {
          c := ToCreate;
        } else {
          assert crs[0] in Elements(crs);
          if res.assignments != [] {
            c := Waiting;
          } else {
            var inconsistent, toClose := false, true;
            for i := 0 to |crs|
              invariant !inconsistent && forall k :: 0 <= k < i ==> crs[k].whos == res.whos
              invariant toClose <==> forall k :: 0 <= k < i ==> !StillBidding(crs[k], available, now)
            {
              if crs[i].whos != res.whos {
                inconsistent := true;
                assert crs[i] in Elements(crs);
                break;
              }
              if crs[i].robot in available && !crs[i].bidCompleted && crs[i].validUntil > now {
                toClose := false;
                assert crs[i] in Elements(crs);
              }
            }
            c := if inconsistent then Inconsistent else if toClose then ToClose else Running;
          }
        }
      case Succeeded => c := ToComplete;
      case Timeout => c := ToComplete;
      case New => c := Waiting;
      case Accepted => c := Waiting;
      case Unset => c := Waiting;
      case Failed => c := Unclassified;
    }
  }

  /* ---------- The phases of a reconcile ---------- */

  /** Deleting reservations takes their auctions with them. */
  function WithoutReservations(s: Store, names: set<string>): Store {
    Store(s.reservations - names, map k | k in s.auctions && k.res !in names :: s.auctions[k])
  }

  function WithStatus(s: Store, names: set<string>, failed: set<Key>, status: AuctionStatus): Store {
    s.(auctions := map k | k in s.auctions ::
      if k.res in names && k !in failed then s.auctions[k].(status := status) else s.auctions[k])
  }

  /** The auction resources of a reservation in the order in which the cluster lists them. */
  ghost predicate Lists(s: Store, n: string, crs: seq<OrderAuction>) {
    Elements(crs) == ResourcesOf(s, n)
  }

  /** Closing one auction: its winners are written, unless there are none or the write fails. */
  ghost predicate CloseStep(s: Store, t: Store, n: string, rs: RobotStates, now: int, f: Failures) {
    n in s.reservations &&
    exists crs, awards, count ::
      && Lists(s, n, crs)
      && Winners.Outcome(s.reservations[n].whos, crs, rs.available, now, awards, count)
      && t == Closed(s, n, Winners.Assignments(awards), f)
  }

  function Closed(s: Store, n: string, assignments: seq<OrderAssignment>, f: Failures): Store
    requires n in s.reservations
  {
    if assignments == [] || n in f.assignments then s
    else WithStatus(s.(reservations := s.reservations[n := s.reservations[n].(assignments := assignments)]),
                    {n}, f.closings, AuctionClosed)
  }

  /** The successive states while the auctions of the list are closed one after the other. */
  ghost predicate ClosingTrace(states: seq<Store>, names: seq<string>, rs: RobotStates, now: int, f: Failures) {
    && |states| == |names| + 1
    && forall i :: 0 <= i < |names| ==> CloseStep(states[i], states[i + 1], names[i], rs, now, f)
  }

  /** A robot may take part in another auction: it has room for one more order and no auction runs for it. */
  predicate MightWork(r: Robot, opr: map<Robot, int>, apr: map<Robot, int>, maxOrders: int) {
    At(opr, r) < maxOrders && At(apr, r) == 0
  }

  function Invited(n: string, opr: map<Robot, int>, apr: map<Robot, int>, cfg: Config, rs: RobotStates,
                   f: Failures): set<Robot> {
    set r | r in rs.available && MightWork(r, opr, apr, cfg.maxOrders) && Key(n, r) !in f.creations
  }

  function NewAuction(res: Reservation, r: Robot): OrderAuction {
    OrderAuction(r, res.whos, AuctionOpen, res.validUntil - TIME_BUFFER_ORDER_RESERVATION, false, [])
  }

  function KeysFor(n: string, robots: set<Robot>): (r: set<Key>)
    ensures forall k :: k in r <==> k.res == n && k.robot in robots
  {
    set robot | robot in robots :: Key(n, robot)
  }

  function WithAuctions(s: Store, n: string, robots: set<Robot>): Store
    requires n in s.reservations
  {
    s.(auctions := map k | k in s.auctions.Keys + KeysFor(n, robots) ::
      if k in KeysFor(n, robots) then NewAuction(s.reservations[n], k.robot) else s.auctions[k])
  }

  function Increased(apr: map<Robot, int>, robots: set<Robot>): map<Robot, int> {
    apr + map r | r in robots :: At(apr, r) + 1
  }

  /** The resources and the counters after auctions were opened for the first i reservations. */
  function CreateUpTo(s: Store, apr: map<Robot, int>, names: seq<string>, i: nat, opr: map<Robot, int>, cfg: Config,
                      rs: RobotStates, f: Failures): (r: (Store, map<Robot, int>))
    requires i <= |names|
    ensures r.0.reservations == s.reservations
  {
    if i == 0 then (s, apr) else
      var (t, counts) := CreateUpTo(s, apr, names, i - 1, opr, cfg, rs, f);
      var robots := Invited(names[i - 1], opr, counts, cfg, rs, f);
      if names[i - 1] in s.reservations then (WithAuctions(t, names[i - 1], robots), Increased(counts, robots))
      else (t, counts)
  }

  /** The first waiting reservation for the auctioneer's own scope. */
  function OpenRequest(s: Store, waiting: seq<string>, scope: Scope): (r: Option<string>)
    ensures r.Some? ==> r.value in waiting && r.value in s.reservations && s.reservations[r.value].scope == scope
    ensures r.None? ==> forall n :: n in waiting && n in s.reservations ==> s.reservations[n].scope != scope
  {
    if waiting == [] then None
    else if waiting[0] in s.reservations && s.reservations[waiting[0]].scope == scope then Some(waiting[0])
    else OpenRequest(s, waiting[1..], scope)
  }

  function Willing(opr: map<Robot, int>, apr: map<Robot, int>, cfg: Config, rs: RobotStates): set<Robot> {
    set r | r in rs.available && MightWork(r, opr, apr, cfg.maxOrders)
  }

  predicate ReserveOrders(opr: map<Robot, int>, apr: map<Robot, int>, cfg: Config, rs: RobotStates) {
    exists r :: r in Willing(opr, apr, cfg, rs) && At(opr, r) < cfg.minOrders
  }

  function Quantity(willing: nat, cfg: Config): int {
    if willing * 3 > cfg.minPerAuction then willing * 3 else cfg.minPerAuction
  }

  /** A new request, or a changed quantity of a request that is still in status NEW. */
  function Requested(s: Store, waiting: seq<string>, opr: map<Robot, int>, apr: map<Robot, int>, cfg: Config,
                     rs: RobotStates, newName: string, now: int, f: Failures): Store
  {
    var request := OpenRequest(s, waiting, cfg.scope);
    var quantity := Quantity(|Willing(opr, apr, cfg, rs)|, cfg);
    if request.Some? && s.reservations[request.value].status != New then s
    else if !ReserveOrders(opr, apr, cfg, rs) || f.request then s
    else if request.Some? then
      s.(reservations := s.reservations[request.value := s.reservations[request.value].(quantity := quantity)])
    else if newName in s.reservations then s
    else
      var added := Reservation(cfg.owner, now, cfg.scope, quantity, [], Unset, 0, [], []);
      s.(reservations := s.reservations[newName := added])
  }

  /** Orders the completed reservations by creation time, the youngest first. */
  function ByAge(s: Store, names: seq<string>): seq<string> {
    StableSort(names, AgeKey(s))
  }

  /** The completed reservations beyond the fifty youngest are deleted. */
  function CleanedUp(s: Store, completed: seq<string>, f: Failures): Store {
    var sorted := ByAge(s, completed);
    if |sorted| <= KEPT_RESERVATIONS then s
    else WithoutReservations(s, Elements(sorted[KEPT_RESERVATIONS..]) - f.deletions)
  }

  function AgeKey(s: Store): string -> real {
    n => if n in s.reservations then -(s.reservations[n].created as real) else 0.0
  }

  lemma ByAgeSorts(s: Store, completed: seq<string>)
    requires NoDuplicates(completed)
    ensures SortedBy(ByAge(s, completed), AgeKey(s)) && NoDuplicates(ByAge(s, completed))
    ensures |ByAge(s, completed)| == |completed|
    ensures forall n :: n in ByAge(s, completed) <==> n in completed
  {
    StableSortProps(completed, AgeKey(s));
    SortKeepsElements(completed, AgeKey(s));
    assert ByAge(s, completed) == StableSort(completed, AgeKey(s));
    NoDuplicatesCard(completed);
    assert Elements(ByAge(s, completed)) == Elements(completed);
    CardNoDuplicates(ByAge(s, completed));
  }

  /** The completed reservations that are kept: the first fifty by age. */
  function Young(s: Store, completed: seq<string>): seq<string> {
    var sorted := ByAge(s, completed);
    if |sorted| <= KEPT_RESERVATIONS then sorted else sorted[..KEPT_RESERVATIONS]
  }

  function Old(s: Store, completed: seq<string>): seq<string> {
    ByAge(s, completed)[|Young(s, completed)|..]
  }

  /** None of the others is younger than one that is kept. */
  lemma OldAreOlder(s: Store, completed: seq<string>, m: string, n: string)
    requires NoDuplicates(completed) && m in Old(s, completed) && n in Young(s, completed) && m in s.reservations
    requires n in s.reservations
    ensures s.reservations[m].created <= s.reservations[n].created
  {
    var sorted, young, others := ByAge(s, completed), Young(s, completed), Old(s, completed);
    ByAgeSorts(s, completed);
    var i :| 0 <= i < |young| && young[i] == n;
    var j :| 0 <= j < |others| && others[j] == m;
    assert sorted[i] == n && sorted[|young| + j] == m;
    assert AgeKey(s)(sorted[i]) <= AgeKey(s)(sorted[|young| + j]);
  }

  lemma YoungAreKept(s: Store, completed: seq<string>, f: Failures, n: string)
    requires f.deletions == {} && NoDuplicates(completed) && n in completed && n in s.reservations
    ensures n in CleanedUp(s, completed, f).reservations <==> n in Young(s, completed)
    ensures n in Young(s, completed) <==> n !in Old(s, completed)
  {
    var sorted, young, others := ByAge(s, completed), Young(s, completed), Old(s, completed);
    ByAgeSorts(s, completed);
    assert sorted == young + others && n in sorted;
    forall j | 0 <= j < |others| ensures others[j] !in young {
      assert sorted[|young| + j] == others[j] && forall i :: 0 <= i < |young| ==> young[i] == sorted[i];
    }
  }

  lemma YoungCount(s: Store, completed: seq<string>)
    requires NoDuplicates(completed)
    ensures NoDuplicates(Young(s, completed)) && forall n :: n in Young(s, completed) ==> n in completed
    ensures |Elements(Young(s, completed))| ==
            if |completed| <= KEPT_RESERVATIONS then |completed| else KEPT_RESERVATIONS
  {
    ByAgeSorts(s, completed);
    NoDuplicatesCard(Young(s, completed));
  }

  /** Fifty completed reservations are kept, none of them older than one that is deleted; others are left alone. */
  lemma CleanupKeepsYoungest(s: Store, completed: seq<string>, f: Failures)
    requires f.deletions == {} && NoDuplicates(completed) && forall n :: n in completed ==> n in s.reservations
    ensures var kept := CleanedUp(s, completed, f).reservations;
      && (forall n :: n in kept ==> n in s.reservations && kept[n] == s.reservations[n])
      && (forall n :: n in s.reservations && n !in completed ==> n in kept)
      && |set n | n in completed && n in kept| ==
         (if |completed| <= KEPT_RESERVATIONS then |completed| else KEPT_RESERVATIONS)
      && (forall m, n :: m in completed && m !in kept && n in completed && n in kept ==>
            s.reservations[m].created <= s.reservations[n].created)
  {
    var kept := CleanedUp(s, completed, f).reservations;
    ByAgeSorts(s, completed);
    YoungCount(s, completed);
    forall n | n in completed
      ensures (n in kept <==> n in Young(s, completed)) && (n !in kept <==> n in Old(s, completed))
    {
      YoungAreKept(s, completed, f, n);
    }
    assert (set n | n in completed && n in kept) == Elements(Young(s, completed));
    forall m, n | m in completed && m !in kept && n in completed && n in kept
      ensures s.reservations[m].created <= s.reservations[n].created
    {
      OldAreOlder(s, completed, m, n);
    }
  }

  /* ---------- What every reconcile keeps ---------- */

  predicate Pending(status: ReservationStatus) {
    status == Unset || status == New || status == Accepted
  }

  /** Which robots belong to which auctioneer; the scopes of the auctioneers do not overlap. */
  type Fleet = map<string, set<Robot>>

  ghost predicate Scoped(fleet: Fleet) {
    && (forall o :: o in fleet ==> forall r :: r in fleet[o] ==> LowerName(r))
    && (forall o, p :: o in fleet && p in fleet && o != p ==> fleet[o] !! fleet[p])
  }

  /** Auctions have a reservation and belong to robots of its owner. */
  ghost predicate Rooted(s: Store, fleet: Fleet) {
    forall k :: k in s.auctions ==>
      && k.res in s.reservations && s.auctions[k].robot == k.robot
      && s.reservations[k.res].owner in fleet && k.robot in fleet[s.reservations[k.res].owner]
  }

  /** No robot takes part in two uncompleted auctions. */
  ghost predicate OneAuctionPerRobot(s: Store) {
    forall k, l | k in s.auctions && l in s.auctions && k.robot == l.robot
      && s.auctions[k].status != AuctionCompleted && s.auctions[l].status != AuctionCompleted :: k == l
  }

  /** No auctioneer waits for two reservations of the same scope. */
  ghost predicate OneRequestPerScope(s: Store) {
    forall m, n | m in s.reservations && n in s.reservations
      && Pending(s.reservations[m].status) && Pending(s.reservations[n].status)
      && s.reservations[m].owner == s.reservations[n].owner
      && s.reservations[m].scope == s.reservations[n].scope :: m == n
  }

  /** An auction is completed only after its reservation succeeded or timed out. */
  ghost predicate CompletedAfterwards(s: Store) {
    forall k :: k in s.auctions && s.auctions[k].status == AuctionCompleted && k.res in s.reservations ==>
      s.reservations[k.res].status in {Succeeded, Timeout}
  }

  /** The assignment names the resource of a robot that takes part in the auction of the reservation. */
  predicate ForParticipant(s: Store, n: string, a: OrderAssignment) {
    exists k :: k in s.auctions && k.res == n && Upper(k.robot) == a.rsrc
  }

  /** Assignments go to different robots of the auction; they exist only once the orders are reserved. */
  ghost predicate AssignedToParticipants(s: Store) {
    forall n :: n in s.reservations && s.reservations[n].assignments != [] ==>
      && s.reservations[n].status in {Reservations, Succeeded}
      && (forall a :: a in s.reservations[n].assignments ==> ForParticipant(s, n, a))
      && DifferentResources(s.reservations[n].assignments)
  }

  ghost predicate DifferentResources(assignments: seq<OrderAssignment>) {
    forall i, j :: 0 <= i < j < |assignments| ==>
      assignments[i].rsrc != assignments[j].rsrc && assignments[i].id != assignments[j].id
  }

  ghost predicate Inv(s: Store, fleet: Fleet) {
    && Scoped(fleet)
    && Rooted(s, fleet)
    && OneAuctionPerRobot(s)
    && OneRequestPerScope(s)
    && CompletedAfterwards(s)
    && AssignedToParticipants(s)
  }

  /** The counters do not undercount the uncompleted auctions of any robot. */
  ghost predicate NoUndercount(s: Store, owner: string, apr: map<Robot, int>) {
    forall r :: At(apr, r) >= |UncompletedOf(s, owner, r)|
  }

  /** Reservations whose assignments and auctions are kept stay consistent with each other. */
  lemma ParticipantsKept(s: Store, t: Store)
    requires AssignedToParticipants(s)
    requires forall n :: n in t.reservations && t.reservations[n].assignments != [] ==>
               && n in s.reservations && t.reservations[n].assignments == s.reservations[n].assignments
               && t.reservations[n].status in {Reservations, Succeeded}
    requires forall k :: k in s.auctions && k.res in t.reservations ==> k in t.auctions
    ensures AssignedToParticipants(t)
  {
  }

  lemma DeletionKeepsInv(s: Store, fleet: Fleet, names: set<string>)
    requires Inv(s, fleet)
    ensures Inv(WithoutReservations(s, names), fleet)
  {
    ParticipantsKept(s, WithoutReservations(s, names));
  }

  lemma StatusKeepsInv(s: Store, fleet: Fleet, names: set<string>, failed: set<Key>, status: AuctionStatus)
    requires Inv(s, fleet)
    requires status == AuctionCompleted ==> forall n :: n in names && n in s.reservations ==>
               s.reservations[n].status in {Succeeded, Timeout}
    requires status != AuctionCompleted ==> forall n :: n in names && n in s.reservations ==>
               s.reservations[n].status == Reservations
    ensures Inv(WithStatus(s, names, failed, status), fleet)
  {
    var t := WithStatus(s, names, failed, status);
    assert t.auctions.Keys == s.auctions.Keys;
    ParticipantsKept(s, t);
    assert CompletedAfterwards(t);
    StatusKeepsSingle(s, names, failed, status);
  }

  lemma StatusKeepsSingle(s: Store, names: set<string>, failed: set<Key>, status: AuctionStatus)
    requires OneAuctionPerRobot(s) && CompletedAfterwards(s)
    requires forall k :: k in s.auctions ==> k.res in s.reservations
    requires status != AuctionCompleted ==> forall n :: n in names && n in s.reservations ==>
               s.reservations[n].status == Reservations
    ensures OneAuctionPerRobot(WithStatus(s, names, failed, status))
  {
  }

  lemma WinnersFit(s: Store, n: string, crs: seq<OrderAuction>, awards: seq<Winners.Award>, count: nat,
                   rs: RobotStates, now: int, fleet: Fleet)
    requires Inv(s, fleet) && n in s.reservations && Lists(s, n, crs)
    requires Winners.Outcome(s.reservations[n].whos, crs, rs.available, now, awards, count)
    ensures DifferentResources(Winners.Assignments(awards))
    ensures forall a :: a in Winners.Assignments(awards) ==> ForParticipant(s, n, a)
  {
    var candidates := rs.available * Winners.RobotsIn(crs);
    forall r | r in candidates ensures Key(n, r) in s.auctions && LowerName(r) {
      var i :| 0 <= i < |crs| && crs[i].robot == r;
      assert crs[i] in Elements(crs);
      var k :| k in KeysOf(s, n) && s.auctions[k] == crs[i];
      assert k == Key(n, r);
    }
    Winners.ResourcesDiffer(awards, Winners.SortedBids(crs, s.reservations[n].whos, rs.available),
                            s.reservations[n].whos, candidates);
    forall a | a in Winners.Assignments(awards) ensures ForParticipant(s, n, a) {
      var m :| 0 <= m < |awards| && Winners.Assignments(awards)[m] == a;
      assert Key(n, awards[m].robot) in s.auctions;
    }
  }

  function WithAssignments(s: Store, n: string, a: seq<OrderAssignment>): Store
    requires n in s.reservations
  {
    s.(reservations := s.reservations[n := s.reservations[n].(assignments := a)])
  }

  lemma AssignmentsKeepInv(s: Store, n: string, a: seq<OrderAssignment>, fleet: Fleet)
    requires Inv(s, fleet) && n in s.reservations && s.reservations[n].status == Reservations
    requires DifferentResources(a) && forall b :: b in a ==> ForParticipant(s, n, b)
    ensures Inv(WithAssignments(s, n, a), fleet)
  {
    var t := WithAssignments(s, n, a);
    assert AssignedToParticipants(t) by {
      forall m, b | m in t.reservations && b in t.reservations[m].assignments ensures ForParticipant(t, m, b) {
        assert ForParticipant(s, m, b);
      }
    }
    assert Rooted(t, fleet) && OneRequestPerScope(t);
  }

  /** Apart from the assignments of n, closing it leaves the reservations alone. */
  ghost predicate OnlyAssigns(s: Store, t: Store, n: string) {
    && t.auctions.Keys == s.auctions.Keys && t.reservations.Keys == s.reservations.Keys
    && (forall m :: m in s.reservations && m != n ==> t.reservations[m] == s.reservations[m])
    && (n in s.reservations ==> t.reservations[n] == s.reservations[n].(assignments := t.reservations[n].assignments))
    && (forall k :: k in s.auctions && s.auctions[k].status != t.auctions[k].status ==>
        k.res == n && t.auctions[k].status == AuctionClosed)
  }

  lemma ClosedOnlyAssigns(s: Store, n: string, a: seq<OrderAssignment>, f: Failures)
    requires n in s.reservations
    ensures OnlyAssigns(s, Closed(s, n, a, f), n)
  {
  }

  lemma ClosedKeepsInv(s: Store, n: string, a: seq<OrderAssignment>, f: Failures, fleet: Fleet)
    requires Inv(s, fleet) && n in s.reservations && s.reservations[n].status == Reservations
    requires DifferentResources(a) && forall b :: b in a ==> ForParticipant(s, n, b)
    ensures Inv(Closed(s, n, a, f), fleet)
  {
    AssignmentsKeepInv(s, n, a, fleet);
    StatusKeepsInv(WithAssignments(s, n, a), fleet, {n}, f.closings, AuctionClosed);
  }

  /** Closing an auction whose orders are reserved and not assigned yet keeps the invariant. */
  lemma CloseKeepsInv(s: Store, t: Store, n: string, rs: RobotStates, now: int, f: Failures, fleet: Fleet)
    requires Inv(s, fleet) && CloseStep(s, t, n, rs, now, f)
    requires s.reservations[n].status == Reservations
    ensures Inv(t, fleet) && OnlyAssigns(s, t, n)
  {
    var crs, awards, count :| Lists(s, n, crs)
      && Winners.Outcome(s.reservations[n].whos, crs, rs.available, now, awards, count)
      && t == Closed(s, n, Winners.Assignments(awards), f);
    WinnersFit(s, n, crs, awards, count, rs, now, fleet);
    ClosedKeepsInv(s, n, Winners.Assignments(awards), f, fleet);
    ClosedOnlyAssigns(s, n, Winners.Assignments(awards), f);
  }

  /* ---------- Opening auctions ---------- */

  /** A robot whose counter is zero takes part in no uncompleted auction at all. */
  lemma ZeroMeansFree(s: Store, fleet: Fleet, owner: string, apr: map<Robot, int>, k: Key)
    requires Inv(s, fleet) && NoUndercount(s, owner, apr) && owner in fleet
    requires k.robot in fleet[owner] && At(apr, k.robot) == 0 && k in s.auctions
    ensures s.auctions[k].status == AuctionCompleted
  {
    var o := s.reservations[k.res].owner;
    assert k.robot in fleet[o] * fleet[owner];
    assert UncompletedOf(s, owner, k.robot) == {};
    assert k !in UncompletedOf(s, owner, k.robot);
  }

  /** The robots that are invited have no uncompleted auction, and none in this reservation. */
  ghost predicate FreeRobots(s: Store, n: string, robots: set<Robot>) {
    && (forall k :: k in s.auctions && k.robot in robots ==> s.auctions[k].status == AuctionCompleted)
    && (forall r :: r in robots ==> Key(n, r) !in s.auctions)
  }

  lemma InvitedAreFree(s: Store, fleet: Fleet, n: string, apr: map<Robot, int>, robots: set<Robot>)
    requires Inv(s, fleet) && n in s.reservations && s.reservations[n].status == Reservations
    requires s.reservations[n].owner in fleet && robots <= fleet[s.reservations[n].owner]
    requires NoUndercount(s, s.reservations[n].owner, apr) && forall r :: r in robots ==> At(apr, r) == 0
    ensures FreeRobots(s, n, robots)
  {
    forall k | k in s.auctions && k.robot in robots ensures s.auctions[k].status == AuctionCompleted {
      ZeroMeansFree(s, fleet, s.reservations[n].owner, apr, k);
    }
    assert forall k :: k in s.auctions && k.robot in robots ==> k.res != n;
  }

  lemma InvitationKeepsSingle(s: Store, n: string, robots: set<Robot>)
    requires OneAuctionPerRobot(s) && n in s.reservations && FreeRobots(s, n, robots)
    ensures OneAuctionPerRobot(WithAuctions(s, n, robots))
  {
  }

  lemma InvitationKeepsInv(s: Store, fleet: Fleet, n: string, robots: set<Robot>)
    requires Inv(s, fleet) && n in s.reservations && s.reservations[n].status == Reservations
    requires s.reservations[n].owner in fleet && robots <= fleet[s.reservations[n].owner]
    requires FreeRobots(s, n, robots)
    ensures Inv(WithAuctions(s, n, robots), fleet)
  {
    var t := WithAuctions(s, n, robots);
    ParticipantsKept(s, t);
    InvitationKeepsSingle(s, n, robots);
    assert Rooted(t, fleet) && CompletedAfterwards(t);
  }

  lemma InvitationKeepsCount(s: Store, n: string, apr: map<Robot, int>, robots: set<Robot>)
    requires n in s.reservations && NoUndercount(s, s.reservations[n].owner, apr) && FreeRobots(s, n, robots)
    ensures NoUndercount(WithAuctions(s, n, robots), s.reservations[n].owner, Increased(apr, robots))
  {
    var t, owner := WithAuctions(s, n, robots), s.reservations[n].owner;
    forall r ensures At(Increased(apr, robots), r) >= |UncompletedOf(t, owner, r)| {
      if r in robots {
        SubsetCard(UncompletedOf(t, owner, r), UncompletedOf(s, owner, r) + {Key(n, r)});
      } else {
        SubsetCard(UncompletedOf(t, owner, r), UncompletedOf(s, owner, r));
      }
    }
  }

  /** New auctions are for available robots with room for one more order. */
  ghost predicate OnlyInvites(s: Store, t: Store, opr: map<Robot, int>, cfg: Config, rs: RobotStates) {
    && t.reservations == s.reservations
    && (forall k :: k in s.auctions ==> k in t.auctions && t.auctions[k] == s.auctions[k])
    && (forall k :: k in t.auctions && k !in s.auctions ==> k.robot in rs.available && At(opr, k.robot) < cfg.maxOrders)
  }

  lemma CreateStepKeeps(s: Store, fleet: Fleet, n: string, apr: map<Robot, int>, opr: map<Robot, int>, cfg: Config,
                        rs: RobotStates, f: Failures)
    requires Inv(s, fleet) && n in s.reservations && s.reservations[n].status == Reservations
    requires s.reservations[n].owner == cfg.owner && cfg.owner in fleet && rs.available <= fleet[cfg.owner]
    requires NoUndercount(s, cfg.owner, apr)
    ensures var robots := Invited(n, opr, apr, cfg, rs, f);
      && Inv(WithAuctions(s, n, robots), fleet)
      && NoUndercount(WithAuctions(s, n, robots), cfg.owner, Increased(apr, robots))
      && OnlyInvites(s, WithAuctions(s, n, robots), opr, cfg, rs)
  {
    var robots := Invited(n, opr, apr, cfg, rs, f);
    InvitedAreFree(s, fleet, n, apr, robots);
    InvitationKeepsInv(s, fleet, n, robots);
    InvitationKeepsCount(s, n, apr, robots);
  }

  lemma {:induction false} CreateKeepsInv(s: Store, fleet: Fleet, apr: map<Robot, int>, names: seq<string>, i: nat,
                                          opr: map<Robot, int>, cfg: Config, rs: RobotStates, f: Failures)
    requires i <= |names| && Inv(s, fleet) && cfg.owner in fleet && rs.available <= fleet[cfg.owner]
    requires NoUndercount(s, cfg.owner, apr)
    requires forall n :: n in names && n in s.reservations ==>
               s.reservations[n].status == Reservations && s.reservations[n].owner == cfg.owner
    ensures var r := CreateUpTo(s, apr, names, i, opr, cfg, rs, f);
      Inv(r.0, fleet) && NoUndercount(r.0, cfg.owner, r.1) && OnlyInvites(s, r.0, opr, cfg, rs)
  {
    if i > 0 {
      CreateKeepsInv(s, fleet, apr, names, i - 1, opr, cfg, rs, f);
      if names[i - 1] in s.reservations {
        var before := CreateUpTo(s, apr, names, i - 1, opr, cfg, rs, f);
        CreateStepKeeps(before.0, fleet, names[i - 1], before.1, opr, cfg, rs, f);
        var after := CreateUpTo(s, apr, names, i, opr, cfg, rs, f);
        InvitesTransitive(s, before.0, after.0, opr, cfg, rs);
      }
    }
  }

  lemma InvitesTransitive(s: Store, t: Store, u: Store, opr: map<Robot, int>, cfg: Config, rs: RobotStates)
    requires OnlyInvites(s, t, opr, cfg, rs) && OnlyInvites(t, u, opr, cfg, rs)
    ensures OnlyInvites(s, u, opr, cfg, rs)
  {
  }

  /* ---------- Requesting orders ---------- */

  /** The list holds every reservation of the auctioneer the order manager still works on. */
  ghost predicate ListsPending(s: Store, owner: string, waiting: seq<string>) {
    forall n :: n in s.reservations && s.reservations[n].owner == owner && Pending(s.reservations[n].status) ==>
        n in waiting
  }

  /** The auctioneer asks for orders of its scope. */
  predicate IsRequest(res: Reservation, cfg: Config) {
    && res.owner == cfg.owner && res.scope == cfg.scope
    && res.status == Unset && res.whos == [] && res.delivered == [] && res.assignments == []
  }

  lemma AddedRequestKeepsInv(s: Store, fleet: Fleet, n: string, res: Reservation, cfg: Config)
    requires Inv(s, fleet) && n !in s.reservations && IsRequest(res, cfg)
    requires forall m ::
               m in s.reservations && s.reservations[m].owner == res.owner && Pending(s.reservations[m].status) ==>
               s.reservations[m].scope != res.scope
    ensures Inv(s.(reservations := s.reservations[n := res]), fleet)
  {
    var t := s.(reservations := s.reservations[n := res]);
    ParticipantsKept(s, t);
    assert Rooted(t, fleet) && OneRequestPerScope(t);
  }

  lemma ChangedQuantityKeepsInv(s: Store, fleet: Fleet, n: string, quantity: int)
    requires Inv(s, fleet) && n in s.reservations
    ensures Inv(s.(reservations := s.reservations[n := s.reservations[n].(quantity := quantity)]), fleet)
  {
    var t := s.(reservations := s.reservations[n := s.reservations[n].(quantity := quantity)]);
    ParticipantsKept(s, t);
    assert Rooted(t, fleet) && OneRequestPerScope(t);
  }

  lemma RequestKeepsInv(s: Store, fleet: Fleet, waiting: seq<string>, opr: map<Robot, int>, apr: map<Robot, int>,
                        cfg: Config, rs: RobotStates, newName: string, now: int, f: Failures)
    requires Inv(s, fleet) && ListsPending(s, cfg.owner, waiting)
    ensures Inv(Requested(s, waiting, opr, apr, cfg, rs, newName, now, f), fleet)
  {
    var request := OpenRequest(s, waiting, cfg.scope);
    var quantity := Quantity(|Willing(opr, apr, cfg, rs)|, cfg);
    if request.Some? {
      ChangedQuantityKeepsInv(s, fleet, request.value, quantity);
    } else if newName !in s.reservations {
      AddedRequestKeepsInv(s, fleet, newName, Reservation(cfg.owner, now, cfg.scope, quantity, [], Unset, 0, [], []),
                           cfg);
    }
  }

  /* ---------- A whole reconcile ---------- */

  /** What a reconcile reads: the robots, the orders running on them, the time; and what goes wrong. */
  datatype Round = Round(rs: RobotStates, opr: map<Robot, int>, now: int, newName: string, f: Failures)

  /** The order in which resources were listed, the counters after completing, and the closing of auctions. */
  datatype Course = Course(names: seq<string>, counts: map<Robot, int>, closing: seq<Store>)

  function InClass(s: Store, c: Class, r: Round, course: Course): (names: seq<string>)
    ensures forall n :: n in names <==>
              n in course.names && n in s.reservations && ClassOf(s, n, r.rs.available, r.now) == c
  {
    WithClass(s, course.names, c, r.rs.available, r.now)
  }

  function AfterDeletion(s: Store, r: Round, course: Course): Store {
    WithoutReservations(s, Elements(InClass(s, Inconsistent, r, course)) - r.f.deletions)
  }

  function AfterCompletion(s: Store, r: Round, course: Course): Store {
    WithStatus(AfterDeletion(s, r, course), Elements(InClass(s, ToComplete, r, course)), r.f.completions,
               AuctionCompleted)
  }

  /** The counters fall exactly by the auctions that were completed. */
  ghost predicate CountsCompleted(s: Store, owner: string, r: Round, course: Course) {
    forall robot :: At(course.counts, robot) ==
      |UncompletedOf(s, owner, robot)|
      - (|UncompletedOf(AfterDeletion(s, r, course), owner, robot)|
         - |UncompletedOf(AfterCompletion(s, r, course), owner, robot)|)
  }

  /** Requesting orders and cleaning up, once the auctions were opened. */
  function AfterCreation(cfg: Config, s: Store, created: (Store, map<Robot, int>), r: Round, course: Course): Store {
    CleanedUp(Requested(created.0, InClass(s, Waiting, r, course), r.opr, created.1, cfg, r.rs, r.newName, r.now, r.f),
              InClass(s, ToComplete, r, course), r.f)
  }

  ghost predicate Reconciles(cfg: Config, s: Store, t: Store, r: Round, course: Course) {
    var toClose, toCreate := InClass(s, ToClose, r, course), InClass(s, ToCreate, r, course);
    && Elements(course.names) == OwnedNames(s, cfg.owner) && NoDuplicates(course.names)
    && CountsCompleted(s, cfg.owner, r, course)
    && ClosingTrace(course.closing, toClose, r.rs, r.now, r.f)
    && course.closing[0] == AfterCompletion(s, r, course)
    && t == AfterCreation(cfg, s,
                          CreateUpTo(course.closing[|toClose|], course.counts, toCreate, |toCreate|, r.opr, cfg, r.rs,
                                     r.f), r, course)
  }

  /** The reservation is the same one, with its first assignments or another quantity at most. */
  predicate Continues(s: Store, t: Store, n: string) {
    && n in s.reservations && n in t.reservations
    && (s.reservations[n].assignments != [] ==> t.reservations[n].assignments == s.reservations[n].assignments)
    && t.reservations[n] == s.reservations[n].(assignments := t.reservations[n].assignments,
                                               quantity := t.reservations[n].quantity)
  }

  ghost predicate ReservationsFrame(s: Store, t: Store, cfg: Config) {
    forall n :: n in t.reservations ==> Continues(s, t, n) || IsRequest(t.reservations[n], cfg)
  }

  /** Auctions never become uncompleted again; new ones are for available robots with room for an order. */
  ghost predicate AuctionsFrame(s: Store, t: Store, cfg: Config, r: Round) {
    forall k :: k in t.auctions ==>
      && Continues(s, t, k.res)
      && (k in s.auctions && s.auctions[k].status == AuctionCompleted ==> t.auctions[k].status == AuctionCompleted)
      && (k !in s.auctions ==> k.robot in r.rs.available && At(r.opr, k.robot) < cfg.maxOrders)
  }

  lemma {:induction false} ClosingKeepsInv(fleet: Fleet, states: seq<Store>, names: seq<string>, r: Round, i: nat)
    requires ClosingTrace(states, names, r.rs, r.now, r.f) && i <= |names| && Inv(states[0], fleet)
    requires NoDuplicates(names)
    requires forall n :: n in names ==> ReadyToClose(states[0], n)
    ensures Inv(states[i], fleet) && OnlyCloses(states[0], states[i])
    ensures forall j :: i <= j < |names| ==> ReadyToClose(states[i], names[j])
  {
    if i > 0 {
      ClosingKeepsInv(fleet, states, names, r, i - 1);
      assert names[i - 1] in names && Continues(states[0], states[i - 1], names[i - 1]);
      CloseKeepsInv(states[i - 1], states[i], names[i - 1], r.rs, r.now, r.f, fleet);
      ClosesTransitive(states[0], states[i - 1], states[i], names[i - 1]);
      forall j | i <= j < |names| ensures ReadyToClose(states[i], names[j]) {
        assert names[j] != names[i - 1] && ReadyToClose(states[i - 1], names[j]);
      }
    }
  }

  /** The orders are reserved and not assigned yet. */
  predicate ReadyToClose(s: Store, n: string) {
    n in s.reservations && s.reservations[n].status == Reservations && s.reservations[n].assignments == []
  }

  lemma ClosesTransitive(s: Store, t: Store, u: Store, n: string)
    requires OnlyCloses(s, t) && OnlyAssigns(t, u, n) && ReadyToClose(s, n) && ReadyToClose(t, n)
    ensures OnlyCloses(s, u)
  {
  }

  /** Closing touches only the auctions of reservations whose orders are reserved. */
  ghost predicate OnlyCloses(s: Store, t: Store) {
    && t.reservations.Keys == s.reservations.Keys && t.auctions.Keys == s.auctions.Keys
    && (forall n :: n in s.reservations ==> Continues(s, t, n))
    && (forall k :: k in s.auctions && s.auctions[k].status != t.auctions[k].status ==>
          && k.res in s.reservations && s.reservations[k.res].status == Reservations
          && t.auctions[k].status == AuctionClosed)
  }

  lemma CompletionKeepsInv(s: Store, fleet: Fleet, r: Round, course: Course)
    requires Inv(s, fleet)
    ensures Inv(AfterCompletion(s, r, course), fleet)
  {
    DeletionKeepsInv(s, fleet, Elements(InClass(s, Inconsistent, r, course)) - r.f.deletions);
    StatusKeepsInv(AfterDeletion(s, r, course), fleet, Elements(InClass(s, ToComplete, r, course)), r.f.completions,
                   AuctionCompleted);
  }

  lemma CompletionKeepsCount(cfg: Config, s: Store, r: Round, course: Course)
    requires CountsCompleted(s, cfg.owner, r, course)
    ensures NoUndercount(AfterCompletion(s, r, course), cfg.owner, course.counts)
  {
    forall robot ensures At(course.counts, robot) >= |UncompletedOf(AfterCompletion(s, r, course), cfg.owner, robot)| {
      SubsetCard(UncompletedOf(AfterDeletion(s, r, course), cfg.owner, robot), UncompletedOf(s, cfg.owner, robot));
    }
  }

  /** Closing changes no counter: the uncompleted auctions stay the same. */
  lemma ClosingKeepsCount(s: Store, t: Store, owner: string, apr: map<Robot, int>)
    requires NoUndercount(s, owner, apr) && CompletedAfterwards(s) && OnlyCloses(s, t)
    ensures NoUndercount(t, owner, apr)
  {
    assert forall n :: n in s.reservations ==> Continues(s, t, n);
    forall r ensures At(apr, r) >= |UncompletedOf(t, owner, r)| {
      assert UncompletedOf(t, owner, r) == UncompletedOf(s, owner, r);
    }
  }

  /** What is left of the resources after closing: the same reservations and auctions, completed ones stay so. */
  ghost predicate Shrunk(s: Store, t: Store) {
    && (forall n :: n in t.reservations ==> Continues(s, t, n))
    && (forall k :: k in t.auctions ==>
          k in s.auctions && (s.auctions[k].status == AuctionCompleted ==> t.auctions[k].status == AuctionCompleted))
    && (forall k :: k in s.auctions && k.res in t.reservations ==> k in t.auctions)
  }

  lemma ShrunkTransitive(s: Store, t: Store, u: Store)
    requires Shrunk(s, t) && Shrunk(t, u)
    ensures Shrunk(s, u)
  {
  }

  lemma CompletionShrinks(s: Store, r: Round, course: Course)
    ensures Shrunk(s, AfterCompletion(s, r, course))
  {
  }

  lemma ClosesShrinks(s: Store, t: Store)
    requires OnlyCloses(s, t) && CompletedAfterwards(s)
    ensures Shrunk(s, t)
  {
  }

  lemma ClosingTraceCloses(cfg: Config, s: Store, fleet: Fleet, r: Round, course: Course)
    requires Inv(AfterCompletion(s, r, course), fleet)
    requires ClosingTrace(course.closing, InClass(s, ToClose, r, course), r.rs, r.now, r.f)
    requires NoDuplicates(course.names)
    requires course.closing[0] == AfterCompletion(s, r, course)
    ensures var s3 := course.closing[|InClass(s, ToClose, r, course)|];
      Inv(s3, fleet) && OnlyCloses(AfterCompletion(s, r, course), s3)
  {
    var toClose, s2 := InClass(s, ToClose, r, course), AfterCompletion(s, r, course);
    CompletionShrinks(s, r, course);
    ToCloseSurvives(s, r, course);
    WithClassNoDuplicates(s, course.names, ToClose, r.rs.available, r.now);
    forall n | n in toClose ensures ReadyToClose(s2, n) {
      assert s2.reservations[n] == s.reservations[n];
      assert Continues(s, s2, n) && ClassOf(s, n, r.rs.available, r.now) == ToClose;
    }
    ClosingKeepsInv(fleet, course.closing, toClose, r, |toClose|);
  }

  lemma ClosingStage(cfg: Config, s: Store, fleet: Fleet, r: Round, course: Course)
    requires Inv(s, fleet) && CountsCompleted(s, cfg.owner, r, course)
    requires ClosingTrace(course.closing, InClass(s, ToClose, r, course), r.rs, r.now, r.f)
    requires NoDuplicates(course.names)
    requires course.closing[0] == AfterCompletion(s, r, course)
    ensures var s3 := course.closing[|InClass(s, ToClose, r, course)|];
      Inv(s3, fleet) && NoUndercount(s3, cfg.owner, course.counts) && Shrunk(s, s3)
  {
    var s2, s3 := AfterCompletion(s, r, course), course.closing[|InClass(s, ToClose, r, course)|];
    CompletionKeepsInv(s, fleet, r, course);
    CompletionKeepsCount(cfg, s, r, course);
    CompletionShrinks(s, r, course);
    ClosingTraceCloses(cfg, s, fleet, r, course);
    ClosingKeepsCount(s2, s3, cfg.owner, course.counts);
    ClosesShrinks(s2, s3);
    ShrunkTransitive(s, s2, s3);
  }

  /** Only inconsistent reservations are deleted before the auctions are closed. */
  lemma ToCloseSurvives(s: Store, r: Round, course: Course)
    ensures forall n :: n in InClass(s, ToClose, r, course) ==> n in AfterCompletion(s, r, course).reservations
  {
  }

  lemma CreationStage(cfg: Config, s: Store, s3: Store, fleet: Fleet, r: Round, course: Course)
    requires Inv(s3, fleet) && NoUndercount(s3, cfg.owner, course.counts) && Shrunk(s, s3)
    requires cfg.owner in fleet && r.rs.available <= fleet[cfg.owner]
    requires Elements(course.names) == OwnedNames(s, cfg.owner)
    ensures var toCreate := InClass(s, ToCreate, r, course);
      var c := CreateUpTo(s3, course.counts, toCreate, |toCreate|, r.opr, cfg, r.rs, r.f);
      && Inv(c.0, fleet) && OnlyInvites(s3, c.0, r.opr, cfg, r.rs)
      && NoUndercount(c.0, cfg.owner, c.1)
      && ListsPending(c.0, cfg.owner, InClass(s, Waiting, r, course))
  {
    var toCreate, waiting := InClass(s, ToCreate, r, course), InClass(s, Waiting, r, course);
    forall n | n in toCreate && n in s3.reservations
      ensures s3.reservations[n].status == Reservations && s3.reservations[n].owner == cfg.owner
    {
      assert Continues(s, s3, n) && n in Elements(course.names) && ClassOf(s, n, r.rs.available, r.now) == ToCreate;
    }
    CreateKeepsInv(s3, fleet, course.counts, toCreate, |toCreate|, r.opr, cfg, r.rs, r.f);
    var t := CreateUpTo(s3, course.counts, toCreate, |toCreate|, r.opr, cfg, r.rs, r.f).0;
    forall n | n in t.reservations && t.reservations[n].owner == cfg.owner && Pending(t.reservations[n].status)
      ensures n in waiting
    {
      assert Continues(s, s3, n) && n in OwnedNames(s, cfg.owner) && n in Elements(course.names);
    }
  }

  /** Every reservation goes on or is a new request; auctions only disappear. */
  ghost predicate OnlyRequests(s: Store, t: Store, cfg: Config) {
    && (forall n :: n in t.reservations ==>
          (n in s.reservations && Continues(s, t, n)) || (n !in s.reservations && IsRequest(t.reservations[n], cfg)))
    && (forall k :: k in t.auctions ==> k in s.auctions && t.auctions[k] == s.auctions[k])
  }

  lemma RequestedOnlyRequests(s: Store, waiting: seq<string>, opr: map<Robot, int>, apr: map<Robot, int>, cfg: Config,
                              rs: RobotStates, newName: string, now: int, f: Failures, gone: set<string>)
    ensures OnlyRequests(s, Requested(s, waiting, opr, apr, cfg, rs, newName, now, f), cfg)
    ensures OnlyRequests(s, WithoutReservations(Requested(s, waiting, opr, apr, cfg, rs, newName, now, f), gone), cfg)
  {
  }

  lemma RequestStage(cfg: Config, s: Store, created: (Store, map<Robot, int>), fleet: Fleet, r: Round, course: Course)
    requires Inv(created.0, fleet) && ListsPending(created.0, cfg.owner, InClass(s, Waiting, r, course))
    ensures Inv(AfterCreation(cfg, s, created, r, course), fleet)
    ensures OnlyRequests(created.0, AfterCreation(cfg, s, created, r, course), cfg)
  {
    var waiting, completed := InClass(s, Waiting, r, course), InClass(s, ToComplete, r, course);
    RequestKeepsInv(created.0, fleet, waiting, r.opr, created.1, cfg, r.rs, r.newName, r.now, r.f);
    var s5 := Requested(created.0, waiting, r.opr, created.1, cfg, r.rs, r.newName, r.now, r.f);
    var sorted := ByAge(s5, completed);
    var gone := if |sorted| > KEPT_RESERVATIONS then Elements(sorted[KEPT_RESERVATIONS..]) - r.f.deletions else {};
    DeletionKeepsInv(s5, fleet, gone);
    RequestedOnlyRequests(created.0, waiting, r.opr, created.1, cfg, r.rs, r.newName, r.now, r.f, gone);
  }

  /**
   * Every reconcile keeps the invariant: whatever writes fail, no robot ends up in two
   * uncompleted auctions, no auctioneer waits for two reservations of one scope, and
   * assignments go to different robots of their auction.
   */
  lemma ReconcileKeepsInv(cfg: Config, s: Store, t: Store, fleet: Fleet, r: Round, course: Course)
    requires Inv(s, fleet) && Reconciles(cfg, s, t, r, course)
    requires cfg.owner in fleet && r.rs.available <= fleet[cfg.owner]
    ensures Inv(t, fleet) && ReservationsFrame(s, t, cfg) && AuctionsFrame(s, t, cfg, r)
  {
    ClosingStage(cfg, s, fleet, r, course);
    var s3, toCreate := course.closing[|InClass(s, ToClose, r, course)|], InClass(s, ToCreate, r, course);
    CreationStage(cfg, s, s3, fleet, r, course);
    var created := CreateUpTo(s3, course.counts, toCreate, |toCreate|, r.opr, cfg, r.rs, r.f);
    RequestStage(cfg, s, created, fleet, r, course);
    ReconcileFrames(cfg, s, s3, created.0, t, fleet, r);
  }

  lemma ReconcileFrames(cfg: Config, s: Store, s3: Store, s4: Store, t: Store, fleet: Fleet, r: Round)
    requires Shrunk(s, s3) && OnlyInvites(s3, s4, r.opr, cfg, r.rs) && Rooted(s4, fleet) && Rooted(t, fleet)
    requires OnlyRequests(s4, t, cfg)
    ensures ReservationsFrame(s, t, cfg) && AuctionsFrame(s, t, cfg, r)
  {
  }
}
