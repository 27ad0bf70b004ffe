/**
 * What a reconcile does to every reservation and every auction of its auctioneer, told by their
 * status: what is completed, deleted, decided, opened and requested, and what is left alone.
 */
module ReconcileEffects {
  import opened Common
  import opened Warehouse
  import opened AuctionCycle
  import opened StableSorting
  import Winners

  predicate Owned(s: Store, owner: string, n: string) {
    n in s.reservations && s.reservations[n].owner == owner
  }

  predicate Over(res: Reservation) {
    res.status == Succeeded || res.status == Timeout
  }

  /** Its auctions do not fit the reservation, and it can be deleted. */
  ghost predicate Deleted(s: Store, owner: string, r: Round, n: string) {
    && Owned(s, owner, n) && Undecided(s.reservations[n]) && Mismatched(s.reservations[n], ResourcesOf(s, n))
    && n !in r.f.deletions
  }

  /** The auction belongs to a reservation that is over, and completing it does not fail. */
  predicate CompletedNow(s: Store, owner: string, r: Round, k: Key) {
    k in s.auctions && Owned(s, owner, k.res) && Over(s.reservations[k.res]) && k !in r.f.completions
  }

  /** Nothing about the reservation and its auctions differs. */
  ghost predicate SameFor(s: Store, t: Store, n: string) {
    && (n in s.reservations <==> n in t.reservations)
    && (n in s.reservations ==> s.reservations[n] == t.reservations[n]) && SameAuctions(s, t, n)
  }

  ghost predicate SameAuctions(s: Store, t: Store, n: string) {
    forall k: Key | k.res == n ::
      (k in s.auctions <==> k in t.auctions) && (k in s.auctions ==> s.auctions[k] == t.auctions[k])
  }

  /* ---------- Deleting and completing ---------- */

  /** What the classes of the reconcile mean. */
  ghost predicate Classified(s: Store, owner: string, r: Round, course: Course) {
    && (forall n :: n in InClass(s, Inconsistent, r, course) <==>
          Owned(s, owner, n) && Undecided(s.reservations[n]) && Mismatched(s.reservations[n], ResourcesOf(s, n)))
    && (forall n :: n in InClass(s, ToComplete, r, course) <==> Owned(s, owner, n) && Over(s.reservations[n]))
    && (forall n :: n in InClass(s, ToClose, r, course) <==> Decidable(s, owner, r, n))
    && (forall n :: n in InClass(s, ToCreate, r, course) <==> Openable(s, owner, n))
    && (forall n :: n in InClass(s, Waiting, r, course) <==> Awaited(s, owner, n))
  }

  /** The orders are reserved and auctioned, nobody bids any more, and there is no decision. */
  ghost predicate Decidable(s: Store, owner: string, r: Round, n: string) {
    && Owned(s, owner, n) && Undecided(s.reservations[n]) && ResourcesOf(s, n) != {}
    && !Mismatched(s.reservations[n], ResourcesOf(s, n)) && !SomeoneBids(ResourcesOf(s, n), r.rs.available, r.now)
  }

  /** The orders are reserved, and not auctioned yet. */
  predicate Openable(s: Store, owner: string, n: string) {
    Owned(s, owner, n) && s.reservations[n].status == Reservations && ResourcesOf(s, n) == {}
  }

  /** The order manager has to act: on the request, or on the decision. */
  predicate Awaited(s: Store, owner: string, n: string) {
    Owned(s, owner, n) &&
    (s.reservations[n].status in {Unset, New, Accepted}
     || (s.reservations[n].status == Reservations && s.reservations[n].assignments != [] && ResourcesOf(s, n) != {}))
  }

  lemma ClassesAre(s: Store, owner: string, r: Round, course: Course)
    requires Elements(course.names) == OwnedNames(s, owner)
    ensures Classified(s, owner, r, course)
  {
    SortedByClass(s, course.names, r.rs.available, r.now);
    assert forall n :: n in course.names <==> n in OwnedNames(s, owner);
  }

  ghost function DeletedNames(s: Store, owner: string, r: Round): set<string> {
    set n | n in s.reservations && Deleted(s, owner, r, n)
  }

  function CompletedKeys(s: Store, owner: string, r: Round): set<Key> {
    set k | k in s.auctions && CompletedNow(s, owner, r, k)
  }

  /** Some reservations are gone with their auctions, and some auctions are completed. */
  ghost predicate Left(s: Store, t: Store, gone: set<string>, done: set<Key>) {
    && (forall n :: n in t.reservations <==> n in s.reservations && n !in gone)
    && (forall n :: n in t.reservations ==> t.reservations[n] == s.reservations[n])
    && (forall k :: k in t.auctions <==> k in s.auctions && k.res !in gone)
    && (forall k :: k in t.auctions ==>
          t.auctions[k] == if k in done then s.auctions[k].(status := AuctionCompleted) else s.auctions[k])
  }

  lemma DeletionLeaves(s: Store, owner: string, r: Round, course: Course)
    requires Classified(s, owner, r, course)
    ensures Left(s, AfterDeletion(s, r, course), DeletedNames(s, owner, r), {})
  {
    var gone := Elements(InClass(s, Inconsistent, r, course)) - r.f.deletions;
    assert forall n :: n in gone <==> Deleted(s, owner, r, n);
  }

  lemma CompletionLeaves(s: Store, owner: string, r: Round, course: Course)
    requires Classified(s, owner, r, course)
    ensures Left(s, AfterCompletion(s, r, course), DeletedNames(s, owner, r), CompletedKeys(s, owner, r))
  {
    DeletionLeaves(s, owner, r, course);
    var names := Elements(InClass(s, ToComplete, r, course));
    assert forall n :: n in names <==> Owned(s, owner, n) && Over(s.reservations[n]);
  }

  /* ---------- Who is free ---------- */

  /** The robot takes part in no auction of the auctioneer but those completed now. */
  ghost predicate Free(s: Store, owner: string, r: Round, robot: Robot) {
    forall k | k in s.auctions && k.robot == robot && Owned(s, owner, k.res) && s.auctions[k].status != AuctionCompleted
      :: CompletedNow(s, owner, r, k)
  }

  lemma DifferenceCard<T>(a: set<T>, b: set<T>)
    requires b <= a
    ensures |a - b| == |a| - |b|
  {
    assert a == b + (a - b) && b !! (a - b);
  }

  lemma UncompletedAreLeft(s: Store, t: Store, owner: string, robot: Robot, gone: set<string>, done: set<Key>)
    requires Left(s, t, gone, done)
    ensures UncompletedOf(t, owner, robot) ==
            set k | k in UncompletedOf(s, owner, robot) && k.res !in gone && k !in done
  {
  }

  /** Counting down by what was completed, although some were deleted, counts what was not completed. */
  lemma LeftCard(u: set<Key>, ud: set<Key>, uc: set<Key>, left: set<Key>)
    requires uc <= ud <= u && left <= u && ud - uc == u - left
    ensures |u| - (|ud| - |uc|) == |left|
  {
    DifferenceCard(ud, uc);
    DifferenceCard(u, left);
  }

  lemma FreeIff(s: Store, owner: string, r: Round, robot: Robot, left: set<Key>)
    requires left == set k | k in UncompletedOf(s, owner, robot) && k !in CompletedKeys(s, owner, r)
    ensures left == {} <==> Free(s, owner, r, robot)
  {
    if Free(s, owner, r, robot) {
      assert forall k :: k !in left;
    } else {
      var k :| k in s.auctions && k.robot == robot && Owned(s, owner, k.res) && s.auctions[k].status != AuctionCompleted
        && !CompletedNow(s, owner, r, k);
      assert k in left;
    }
  }

  /** The counter of a robot is zero exactly when the robot is free. */
  lemma ZeroIffFree(s: Store, owner: string, r: Round, course: Course, robot: Robot)
    requires Classified(s, owner, r, course) && CountsCompleted(s, owner, r, course)
    ensures At(course.counts, robot) == 0 <==> Free(s, owner, r, robot)
  {
    DeletionLeaves(s, owner, r, course);
    CompletionLeaves(s, owner, r, course);
    var gone, done := DeletedNames(s, owner, r), CompletedKeys(s, owner, r);
    var left := set k | k in UncompletedOf(s, owner, robot) && k !in done;
    CompletedStay(s, owner, r);
    FreeIff(s, owner, r, robot, left);
    CountIs(s, AfterDeletion(s, r, course), AfterCompletion(s, r, course), owner, robot, gone, done, left);
  }

  lemma CompletedStay(s: Store, owner: string, r: Round)
    ensures forall k :: k in CompletedKeys(s, owner, r) ==> k.res !in DeletedNames(s, owner, r)
  {
  }

  lemma CountIs(s: Store, d: Store, c: Store, owner: string, robot: Robot, gone: set<string>, done: set<Key>,
                left: set<Key>)
    requires Left(s, d, gone, {}) && Left(s, c, gone, done) && forall k :: k in done ==> k.res !in gone
    requires left == set k | k in UncompletedOf(s, owner, robot) && k !in done
    ensures |UncompletedOf(s, owner, robot)| - (|UncompletedOf(d, owner, robot)| - |UncompletedOf(c, owner, robot)|)
            == |left|
  {
    UncompletedAreLeft(s, d, owner, robot, gone, {});
    UncompletedAreLeft(s, c, owner, robot, gone, done);
    var u, ud, uc := UncompletedOf(s, owner, robot), UncompletedOf(d, owner, robot), UncompletedOf(c, owner, robot);
    assert ud - uc == u - left;
    LeftCard(u, ud, uc, left);
  }

  /* ---------- Closing ---------- */

  /** The auctions of the reservation are closed, except where the write fails. */
  ghost predicate ClosedAuctions(s: Store, t: Store, n: string, r: Round) {
    forall k: Key | k.res == n ::
      && (k in s.auctions <==> k in t.auctions)
      && (k in s.auctions ==>
            t.auctions[k] == if k in r.f.closings then s.auctions[k] else s.auctions[k].(status := AuctionClosed))
  }

  /** The winners are written and the auctions are closed; without winners nothing happens. */
  ghost predicate Writes(s: Store, t: Store, n: string, r: Round, assignments: seq<OrderAssignment>) {
    if assignments == [] || n in r.f.assignments then SameFor(s, t, n)
    else
      && n in s.reservations && n in t.reservations
      && t.reservations[n] == s.reservations[n].(assignments := assignments) && ClosedAuctions(s, t, n, r)
  }

  /** The auction is decided with winners that the selection promises. */
  ghost predicate Decided(s: Store, t: Store, n: string, r: Round) {
    n in s.reservations &&
    exists crs, awards, count ::
      && Elements(crs) == ResourcesOf(s, n)
      && Winners.Outcome(s.reservations[n].whos, crs, r.rs.available, r.now, awards, count)
      && Writes(s, t, n, r, Winners.Assignments(awards))
  }

  lemma SameResources(s: Store, t: Store, n: string)
    requires SameAuctions(s, t, n)
    ensures ResourcesOf(s, n) == ResourcesOf(t, n)
  {
    assert KeysOf(s, n) == KeysOf(t, n);
  }

  lemma StepDecides(s: Store, t: Store, n: string, r: Round)
    requires CloseStep(s, t, n, r.rs, r.now, r.f)
    ensures Decided(s, t, n, r)
  {
    var crs, awards, count :| Lists(s, n, crs)
      && Winners.Outcome(s.reservations[n].whos, crs, r.rs.available, r.now, awards, count)
      && t == Closed(s, n, Winners.Assignments(awards), r.f);
    assert Writes(s, t, n, r, Winners.Assignments(awards));
  }

  lemma StepLeavesOthers(s: Store, t: Store, n: string, r: Round, m: string)
    requires CloseStep(s, t, n, r.rs, r.now, r.f) && m != n
    ensures SameFor(s, t, m)
  {
  }

  lemma DecidedThenSame(s: Store, t: Store, u: Store, n: string, r: Round)
    requires Decided(s, t, n, r) && SameFor(t, u, n)
    ensures Decided(s, u, n, r)
  {
    var crs, awards, count :| Elements(crs) == ResourcesOf(s, n)
      && Winners.Outcome(s.reservations[n].whos, crs, r.rs.available, r.now, awards, count)
      && Writes(s, t, n, r, Winners.Assignments(awards));
    assert Writes(s, u, n, r, Winners.Assignments(awards));
  }

  lemma SameThenDecided(s: Store, t: Store, u: Store, n: string, r: Round)
    requires SameFor(s, t, n) && Decided(t, u, n, r)
    ensures Decided(s, u, n, r)
  {
    SameResources(s, t, n);
    var crs, awards, count :| Elements(crs) == ResourcesOf(t, n)
      && Winners.Outcome(t.reservations[n].whos, crs, r.rs.available, r.now, awards, count)
      && Writes(t, u, n, r, Winners.Assignments(awards));
    assert Writes(s, u, n, r, Winners.Assignments(awards));
  }

  /** Exactly the reservations of the list are decided. */
  ghost predicate Closes(s: Store, t: Store, names: seq<string>, r: Round) {
    && (forall n :: n in names ==> Decided(s, t, n, r))
    && (forall n :: n !in names ==> SameFor(s, t, n))
  }

  lemma ClosesOneMore(s: Store, t: Store, u: Store, names: seq<string>, last: string, r: Round)
    requires Closes(s, t, names, r) && last !in names && CloseStep(t, u, last, r.rs, r.now, r.f)
    ensures Closes(s, u, names + [last], r)
  {
    StepDecides(t, u, last, r);
    assert SameFor(s, t, last);
    SameThenDecided(s, t, u, last, r);
    forall n | n != last ensures SameFor(t, u, n) {
      StepLeavesOthers(t, u, last, r, n);
    }
    forall n | n in names ensures Decided(s, u, n, r) {
      DecidedThenSame(s, t, u, n, r);
    }
    forall n | n !in names + [last] ensures SameFor(s, u, n) {
      SameTransitive(s, t, u, n);
    }
  }

  lemma {:induction false} ClosingDecides(states: seq<Store>, names: seq<string>, r: Round, i: nat)
    requires ClosingTrace(states, names, r.rs, r.now, r.f) && NoDuplicates(names) && i <= |names|
    ensures Closes(states[0], states[i], names[..i], r)
  {
    if i > 0 {
      ClosingDecides(states, names, r, i - 1);
      assert names[..i] == names[..i - 1] + [names[i - 1]] && names[i - 1] !in names[..i - 1];
      ClosesOneMore(states[0], states[i - 1], states[i], names[..i - 1], names[i - 1], r);
    }
  }

  /* ---------- Opening ---------- */

  /** The robot is available, may work on one more order, and its counter is zero. */
  predicate Wants(cfg: Config, r: Round, apr: map<Robot, int>, robot: Robot) {
    robot in r.rs.available && At(r.opr, robot) < cfg.maxOrders && At(apr, robot) == 0
  }

  /** The robot is invited by reservation j: it was not by an earlier one, and creating its auction works. */
  predicate InvitedBy(cfg: Config, r: Round, apr: map<Robot, int>, names: seq<string>, robot: Robot, j: nat) {
    && j < |names| && Wants(cfg, r, apr, robot) && Key(names[j], robot) !in r.f.creations
    && forall k :: 0 <= k < j ==> Key(names[k], robot) in r.f.creations
  }

  /** The auctions for which the first i reservations invite robots. */
  ghost function NewKeys(cfg: Config, r: Round, apr: map<Robot, int>, names: seq<string>, i: nat): set<Key> {
    set j, robot | 0 <= j < i && j < |names| && robot in r.rs.available && InvitedBy(cfg, r, apr, names, robot, j)
      :: Key(names[j], robot)
  }

  predicate Has(keys: set<Key>, robot: Robot) {
    exists k :: k in keys && k.robot == robot
  }

  /** An auction without bids for all orders of the reservation, until ten seconds before its end. */
  function Invitation(res: Reservation, robot: Robot): OrderAuction {
    OrderAuction(robot, res.whos, AuctionOpen, res.validUntil - 10, false, [])
  }

  /** Exactly these auctions were opened. */
  ghost predicate Opens(s: Store, t: Store, keys: set<Key>) {
    && t.reservations == s.reservations && t.auctions.Keys == s.auctions.Keys + keys
    && (forall k :: k in s.auctions && k !in keys ==> t.auctions[k] == s.auctions[k])
    && (forall k :: k in keys ==>
          k.res in s.reservations && t.auctions[k] == Invitation(s.reservations[k.res], k.robot))
  }

  /** The counters of the robots of these auctions increased by one. */
  ghost predicate Counts(keys: set<Key>, apr: map<Robot, int>, counts: map<Robot, int>) {
    forall robot :: At(counts, robot) == At(apr, robot) + if Has(keys, robot) then 1 else 0
  }

  lemma OpensMore(s: Store, t: Store, u: Store, keys: set<Key>, n: string, robots: set<Robot>)
    requires Opens(s, t, keys) && n in s.reservations && u == WithAuctions(t, n, robots)
    ensures Opens(s, u, keys + KeysFor(n, robots))
  {
  }

  lemma CountsMore(keys: set<Key>, n: string, robots: set<Robot>, apr: map<Robot, int>, counts: map<Robot, int>)
    requires Counts(keys, apr, counts) && forall robot :: robot in robots ==> !Has(keys, robot)
    ensures Counts(keys + KeysFor(n, robots), apr, Increased(counts, robots))
  {
    var both := keys + KeysFor(n, robots);
    forall robot ensures Has(both, robot) <==> Has(keys, robot) || robot in robots {
      if robot in robots {
        assert Key(n, robot) in both;
      }
      if Has(keys, robot) {
        var k :| k in keys && k.robot == robot;
        assert k in both;
      }
    }
  }

  /** The robots invited now are those that no earlier reservation invited. */
  lemma InvitedNow(cfg: Config, r: Round, apr: map<Robot, int>, counts: map<Robot, int>, names: seq<string>, i: nat,
                   robot: Robot)
    requires i < |names|
    requires At(counts, robot) == At(apr, robot) + if Has(NewKeys(cfg, r, apr, names, i), robot) then 1 else 0
    requires At(apr, robot) >= 0
    ensures robot in AuctionCycle.Invited(names[i], r.opr, counts, cfg, r.rs, r.f) <==>
            InvitedBy(cfg, r, apr, names, robot, i)
  {
    if Wants(cfg, r, apr, robot) && !(forall k :: 0 <= k < i ==> Key(names[k], robot) in r.f.creations) {
      var k :| 0 <= k < i && Key(names[k], robot) !in r.f.creations;
      FirstInvites(cfg, r, apr, names, robot, k);
      var j :| 0 <= j <= k && InvitedBy(cfg, r, apr, names, robot, j);
      assert Key(names[j], robot) in NewKeys(cfg, r, apr, names, i);
    }
  }

  lemma NewKeysNext(cfg: Config, r: Round, apr: map<Robot, int>, names: seq<string>, i: nat, robots: set<Robot>)
    requires i < |names|
    requires forall robot :: robot in robots <==> InvitedBy(cfg, r, apr, names, robot, i)
    ensures NewKeys(cfg, r, apr, names, i + 1) == NewKeys(cfg, r, apr, names, i) + KeysFor(names[i], robots)
    ensures forall robot :: robot in robots ==> !Has(NewKeys(cfg, r, apr, names, i), robot)
  {
  }

  lemma CreationNext(s: Store, t: Store, cfg: Config, r: Round, apr: map<Robot, int>, counts: map<Robot, int>,
                     names: seq<string>, i: nat, robots: set<Robot>)
    requires i < |names| && names[i] in s.reservations && forall robot :: At(apr, robot) >= 0
    requires Opens(s, t, NewKeys(cfg, r, apr, names, i)) && Counts(NewKeys(cfg, r, apr, names, i), apr, counts)
    requires robots == AuctionCycle.Invited(names[i], r.opr, counts, cfg, r.rs, r.f)
    ensures Opens(s, WithAuctions(t, names[i], robots), NewKeys(cfg, r, apr, names, i + 1))
    ensures Counts(NewKeys(cfg, r, apr, names, i + 1), apr, Increased(counts, robots))
  {
    forall robot ensures robot in robots <==> InvitedBy(cfg, r, apr, names, robot, i) {
      InvitedNow(cfg, r, apr, counts, names, i, robot);
    }
    NewKeysNext(cfg, r, apr, names, i, robots);
    OpensMore(s, t, WithAuctions(t, names[i], robots), NewKeys(cfg, r, apr, names, i), names[i], robots);
    CountsMore(NewKeys(cfg, r, apr, names, i), names[i], robots, apr, counts);
  }

  /** The auctions and counters after the first i reservations invited their robots. */
  ghost predicate InvitedUpTo(s: Store, cfg: Config, r: Round, apr: map<Robot, int>, names: seq<string>, i: nat,
                              c: (Store, map<Robot, int>))
  {
    forall keys :: keys == NewKeys(cfg, r, apr, names, i) ==> Opens(s, c.0, keys) && Counts(keys, apr, c.1)
  }

  /** All states of the loop that opens auctions. */
  ghost predicate Creates(s: Store, cfg: Config, r: Round, apr: map<Robot, int>, names: seq<string>,
                          states: seq<(Store, map<Robot, int>)>)
  {
    && |states| == |names| + 1 && states[0] == (s, apr)
    && forall i :: 0 <= i < |names| ==> CreatesOne(s, cfg, r, names[i], states[i], states[i + 1])
  }

  predicate CreatesOne(s: Store, cfg: Config, r: Round, n: string, c: (Store, map<Robot, int>),
                       d: (Store, map<Robot, int>))
  {
    && n in s.reservations && c.0.reservations == s.reservations
    && var robots := AuctionCycle.Invited(n, r.opr, c.1, cfg, r.rs, r.f);
       d == (WithAuctions(c.0, n, robots), Increased(c.1, robots))
  }

  function CreationStates(s: Store, cfg: Config, r: Round, apr: map<Robot, int>, names: seq<string>)
    : (states: seq<(Store, map<Robot, int>)>)
    ensures |states| == |names| + 1
    ensures states[|names|] == CreateUpTo(s, apr, names, |names|, r.opr, cfg, r.rs, r.f)
  {
    seq(|names| + 1, i requires 0 <= i <= |names| => CreateUpTo(s, apr, names, i, r.opr, cfg, r.rs, r.f))
  }

  lemma CreationStatesCreate(s: Store, cfg: Config, r: Round, apr: map<Robot, int>, names: seq<string>)
    requires forall n :: n in names ==> n in s.reservations
    ensures Creates(s, cfg, r, apr, names, CreationStates(s, cfg, r, apr, names))
  {
    var states := CreationStates(s, cfg, r, apr, names);
    forall i | 0 <= i < |names| ensures CreatesOne(s, cfg, r, names[i], states[i], states[i + 1]) {
      assert names[i] in names;
    }
  }

  lemma {:induction false} CreationOpens(s: Store, cfg: Config, r: Round, apr: map<Robot, int>, names: seq<string>,
                                         states: seq<(Store, map<Robot, int>)>, i: nat)
    requires i <= |names| && Creates(s, cfg, r, apr, names, states) && forall robot :: At(apr, robot) >= 0
    ensures InvitedUpTo(s, cfg, r, apr, names, i, states[i])
  {
    if i == 0 {
      assert NewKeys(cfg, r, apr, names, 0) == {};
    } else {
      CreationOpens(s, cfg, r, apr, names, states, i - 1);
      assert CreatesOne(s, cfg, r, names[i - 1], states[i - 1], states[i]);
      CreatesNext(s, cfg, r, apr, names, i - 1, states[i - 1]);
    }
  }

  lemma CreatesNext(s: Store, cfg: Config, r: Round, apr: map<Robot, int>, names: seq<string>, i: nat,
                    c: (Store, map<Robot, int>))
    requires i < |names| && names[i] in s.reservations && forall robot :: At(apr, robot) >= 0
    requires InvitedUpTo(s, cfg, r, apr, names, i, c) && c.0.reservations == s.reservations
    ensures var robots := AuctionCycle.Invited(names[i], r.opr, c.1, cfg, r.rs, r.f);
      InvitedUpTo(s, cfg, r, apr, names, i + 1, (WithAuctions(c.0, names[i], robots), Increased(c.1, robots)))
  {
    assert Opens(s, c.0, NewKeys(cfg, r, apr, names, i)) && Counts(NewKeys(cfg, r, apr, names, i), apr, c.1);
    CreationNext(s, c.0, cfg, r, apr, c.1, names, i, AuctionCycle.Invited(names[i], r.opr, c.1, cfg, r.rs, r.f));
  }

  /** A robot that wants to is invited by the first reservation for which that works. */
  lemma {:induction false} FirstInvites(cfg: Config, r: Round, apr: map<Robot, int>, names: seq<string>, robot: Robot,
                                        k: nat)
    requires k < |names| && Wants(cfg, r, apr, robot) && Key(names[k], robot) !in r.f.creations
    ensures exists j :: 0 <= j <= k && InvitedBy(cfg, r, apr, names, robot, j)
  {
    if !InvitedBy(cfg, r, apr, names, robot, k) {
      var l :| 0 <= l < k && Key(names[l], robot) !in r.f.creations;
      FirstInvites(cfg, r, apr, names, robot, l);
    }
  }

  /** Invitations are for robots that want them, where creating the auction works; each such robot gets one. */
  lemma NewKeysAre(cfg: Config, r: Round, apr: map<Robot, int>, names: seq<string>)
    ensures var keys := NewKeys(cfg, r, apr, names, |names|);
      && (forall k :: k in keys ==> k.res in names && Wants(cfg, r, apr, k.robot) && k !in r.f.creations)
      && (forall k, l | k in keys && l in keys && k.robot == l.robot :: k == l)
      && (forall robot, n | Wants(cfg, r, apr, robot) && n in names && Key(n, robot) !in r.f.creations ::
            Has(keys, robot))
  {
    var keys := NewKeys(cfg, r, apr, names, |names|);
    forall k | k in keys ensures k.res in names {
      var j :| 0 <= j < |names| && InvitedBy(cfg, r, apr, names, k.robot, j) && Key(names[j], k.robot) == k;
    }
    forall robot, n | Wants(cfg, r, apr, robot) && n in names && Key(n, robot) !in r.f.creations
      ensures Has(keys, robot)
    {
      var k :| 0 <= k < |names| && names[k] == n;
      FirstInvites(cfg, r, apr, names, robot, k);
      var j :| 0 <= j <= k && InvitedBy(cfg, r, apr, names, robot, j);
      assert Key(names[j], robot) in keys;
    }
  }

  /* ---------- The stages of a reconcile ---------- */

  /** The states between the phases of a reconcile. */
  datatype Stages = Stages(completed: Store, closed: Store, invited: Store, requested: Store, counts: map<Robot, int>,
                           keys: set<Key>)

  /** How the phases follow each other, and what each of them does. */
  ghost predicate Phases(cfg: Config, s: Store, t: Store, r: Round, course: Course, p: Stages) {
    && Left(s, p.completed, DeletedNames(s, cfg.owner, r), CompletedKeys(s, cfg.owner, r))
    && Closes(p.completed, p.closed, InClass(s, ToClose, r, course), r)
    && Opens(p.closed, p.invited, p.keys) && Counts(p.keys, course.counts, p.counts)
    && p.requested == Requested(p.invited, InClass(s, Waiting, r, course), r.opr, p.counts, cfg, r.rs, r.newName, r.now,
                                r.f)
    && t == CleanedUp(p.requested, InClass(s, ToComplete, r, course), r.f)
  }

  /** The robot is available and free, and may work on one more order. */
  ghost predicate WantsWork(s: Store, cfg: Config, r: Round, robot: Robot) {
    robot in r.rs.available && At(r.opr, robot) < cfg.maxOrders && Free(s, cfg.owner, r, robot)
  }

  /** Each robot that wants work is invited to one auction, if one is to be opened and that works. */
  ghost predicate InvitesRobots(s: Store, cfg: Config, r: Round, keys: set<Key>) {
    && (forall k :: k in keys ==>
          Openable(s, cfg.owner, k.res) && WantsWork(s, cfg, r, k.robot) && k !in r.f.creations)
    && (forall k, l | k in keys && l in keys && k.robot == l.robot :: k == l)
    && (forall robot, n | WantsWork(s, cfg, r, robot) && Openable(s, cfg.owner, n) && Key(n, robot) !in r.f.creations ::
          Has(keys, robot))
  }

  lemma CountsAreNatural(s: Store, owner: string, r: Round, course: Course)
    requires CountsCompleted(s, owner, r, course)
    ensures forall robot :: At(course.counts, robot) >= 0
  {
    forall robot ensures At(course.counts, robot) >= 0 {
      SubsetCard(UncompletedOf(AfterDeletion(s, r, course), owner, robot), UncompletedOf(s, owner, robot));
    }
  }

  lemma WantsIff(s: Store, cfg: Config, r: Round, course: Course, robot: Robot)
    requires Classified(s, cfg.owner, r, course) && CountsCompleted(s, cfg.owner, r, course)
    ensures Wants(cfg, r, course.counts, robot) <==> WantsWork(s, cfg, r, robot)
  {
    ZeroIffFree(s, cfg.owner, r, course, robot);
  }

  lemma InvitationsAre(s: Store, cfg: Config, r: Round, course: Course, keys: set<Key>, names: seq<string>)
    requires Classified(s, cfg.owner, r, course) && CountsCompleted(s, cfg.owner, r, course)
    requires names == InClass(s, ToCreate, r, course)
    requires keys == NewKeys(cfg, r, course.counts, names, |names|)
    ensures InvitesRobots(s, cfg, r, keys)
  {
    NewKeysAre(cfg, r, course.counts, names);
    forall robot ensures Wants(cfg, r, course.counts, robot) <==> WantsWork(s, cfg, r, robot) {
      WantsIff(s, cfg, r, course, robot);
    }
    assert forall n :: n in names <==> Openable(s, cfg.owner, n);
  }

  lemma ReconcileHasPhases(cfg: Config, s: Store, t: Store, r: Round, course: Course) returns (p: Stages)
    requires Reconciles(cfg, s, t, r, course)
    ensures Phases(cfg, s, t, r, course, p) && InvitesRobots(s, cfg, r, p.keys)
    ensures Classified(s, cfg.owner, r, course)
  {
    var toClose, toCreate := InClass(s, ToClose, r, course), InClass(s, ToCreate, r, course);
    ClassesAre(s, cfg.owner, r, course);
    CompletionLeaves(s, cfg.owner, r, course);
    WithClassNoDuplicates(s, course.names, ToClose, r.rs.available, r.now);
    ClosingDecides(course.closing, toClose, r, |toClose|);
    assert toClose[..|toClose|] == toClose;
    var closed := course.closing[|toClose|];
    CountsAreNatural(s, cfg.owner, r, course);
    OpenableStay(s, AfterCompletion(s, r, course), closed, cfg.owner, r, toClose, toCreate);
    var created := CreateUpTo(closed, course.counts, toCreate, |toCreate|, r.opr, cfg, r.rs, r.f);
    CreationStatesCreate(closed, cfg, r, course.counts, toCreate);
    CreationOpens(closed, cfg, r, course.counts, toCreate, CreationStates(closed, cfg, r, course.counts, toCreate),
                  |toCreate|);
    var keys := NewKeys(cfg, r, course.counts, toCreate, |toCreate|);
    assert Opens(closed, created.0, keys) && Counts(keys, course.counts, created.1);
    InvitationsAre(s, cfg, r, course, keys, toCreate);
    var requested := Requested(created.0, InClass(s, Waiting, r, course), r.opr, created.1, cfg, r.rs, r.newName, r.now,
                               r.f);
    p := Stages(AfterCompletion(s, r, course), closed, created.0, requested, created.1, keys);
  }

  /** Reservations whose auctions are to be opened are neither deleted nor decided. */
  lemma OpenableStay(s: Store, c: Store, closed: Store, owner: string, r: Round, toClose: seq<string>,
                     toCreate: seq<string>)
    requires Left(s, c, DeletedNames(s, owner, r), CompletedKeys(s, owner, r)) && Closes(c, closed, toClose, r)
    requires forall n :: n in toClose ==> Decidable(s, owner, r, n)
    requires forall n :: n in toCreate ==> Openable(s, owner, n)
    ensures forall n :: n in toCreate ==> n in closed.reservations
  {
    forall n | n in toCreate ensures n in closed.reservations {
      assert n !in toClose && SameFor(c, closed, n) && n !in DeletedNames(s, owner, r);
    }
  }

  /* ---------- What becomes of a reservation ---------- */

  ghost predicate Finished(s: Store, owner: string, n: string) {
    Owned(s, owner, n) && Over(s.reservations[n])
  }

  /** Up to the quantity of a request that is still new, nothing about the reservation and its auctions differs. */
  ghost predicate SameButQuantity(s: Store, t: Store, n: string) {
    && n in s.reservations && n in t.reservations && SameAuctions(s, t, n)
    && t.reservations[n] == s.reservations[n].(quantity := t.reservations[n].quantity)
    && (s.reservations[n].status != New ==> t.reservations[n] == s.reservations[n])
  }

  lemma SameTransitive(s: Store, t: Store, u: Store, n: string)
    requires SameFor(s, t, n) && SameFor(t, u, n)
    ensures SameFor(s, u, n)
  {
  }

  lemma CompletedSame(s: Store, c: Store, owner: string, r: Round, n: string)
    requires Left(s, c, DeletedNames(s, owner, r), CompletedKeys(s, owner, r))
    requires n in s.reservations && !Deleted(s, owner, r, n) && !Finished(s, owner, n)
    ensures SameFor(s, c, n)
  {
  }

  lemma OpenedSame(s: Store, t: Store, cfg: Config, r: Round, start: Store, keys: set<Key>, n: string)
    requires Opens(s, t, keys) && InvitesRobots(start, cfg, r, keys) && !Openable(start, cfg.owner, n)
    ensures SameFor(s, t, n)
  {
    forall k: Key | k.res == n ensures k !in keys {
    }
  }

  lemma RequestedSame(s: Store, waiting: seq<string>, r: Round, counts: map<Robot, int>, cfg: Config, n: string)
    requires n in s.reservations
    ensures SameButQuantity(s, Requested(s, waiting, r.opr, counts, cfg, r.rs, r.newName, r.now, r.f), n)
  {
  }

  lemma CleanedSame(s: Store, completed: seq<string>, f: Failures, n: string)
    requires n !in completed
    ensures SameFor(s, CleanedUp(s, completed, f), n)
  {
    SortKeepsElements(completed, AgeKey(s));
    var sorted := ByAge(s, completed);
    assert forall x :: x in sorted <==> x in completed;
  }

  /** After the auctions were closed, only requests and completed reservations change. */
  lemma LaterSame(cfg: Config, s: Store, t: Store, r: Round, course: Course, p: Stages, n: string)
    requires Phases(cfg, s, t, r, course, p) && InvitesRobots(s, cfg, r, p.keys) && Classified(s, cfg.owner, r, course)
    requires n in p.closed.reservations && !Openable(s, cfg.owner, n) && !Finished(s, cfg.owner, n)
    ensures SameButQuantity(p.closed, t, n)
  {
    OpenedSame(p.closed, p.invited, cfg, r, s, p.keys, n);
    RequestedSame(p.invited, InClass(s, Waiting, r, course), r, p.counts, cfg, n);
    CleanedSame(p.requested, InClass(s, ToComplete, r, course), r.f, n);
  }

  /** Reservations that are not concerned are left alone. */
  lemma LeavesAlone(cfg: Config, s: Store, t: Store, r: Round, course: Course, n: string)
    requires Reconciles(cfg, s, t, r, course) && n in s.reservations
    requires !Deleted(s, cfg.owner, r, n) && !Decidable(s, cfg.owner, r, n) && !Openable(s, cfg.owner, n)
    requires !Finished(s, cfg.owner, n)
    ensures SameButQuantity(s, t, n)
  {
    var p := ReconcileHasPhases(cfg, s, t, r, course);
    CompletedSame(s, p.completed, cfg.owner, r, n);
    assert SameFor(p.completed, p.closed, n);
    LaterSame(cfg, s, t, r, course, p, n);
  }

  /**
   * A reservation whose auctions nobody bids in any more is decided with winners that the selection
   * promises; the winners are written and the auctions closed, except where writes fail.
   */
  lemma DecidesAuctions(cfg: Config, s: Store, t: Store, r: Round, course: Course, n: string)
    requires Reconciles(cfg, s, t, r, course) && Decidable(s, cfg.owner, r, n)
    ensures Decided(s, t, n, r)
  {
    var p := ReconcileHasPhases(cfg, s, t, r, course);
    CompletedSame(s, p.completed, cfg.owner, r, n);
    LaterSame(cfg, s, t, r, course, p, n);
    ClosesDecided(s, p.completed, p.closed, t, InClass(s, ToClose, r, course), r, n);
  }

  lemma ClosesDecided(s: Store, c: Store, closed: Store, t: Store, names: seq<string>, r: Round, n: string)
    requires SameFor(s, c, n) && Closes(c, closed, names, r) && n in names && SameButQuantity(closed, t, n)
    requires n in s.reservations && s.reservations[n].status == Reservations
    ensures Decided(s, t, n, r)
  {
    assert Decided(c, closed, n, r);
    SameThenDecided(s, c, closed, n, r);
    assert SameFor(closed, t, n);
    DecidedThenSame(s, closed, t, n, r);
  }

  /* ---------- Reservations that are over, or do not fit ---------- */

  /** The auctions of a reservation that is over are completed, except where the write fails. */
  ghost predicate CompletedAuctions(s: Store, t: Store, n: string, r: Round) {
    && n in s.reservations && n in t.reservations && t.reservations[n] == s.reservations[n]
    && forall k: Key | k.res == n ::
         && (k in s.auctions <==> k in t.auctions)
         && (k in s.auctions ==>
               t.auctions[k] == if k in r.f.completions then s.auctions[k]
                                else s.auctions[k].(status := AuctionCompleted))
  }

  lemma CleanedKept(s: Store, completed: seq<string>, f: Failures, n: string)
    requires n in CleanedUp(s, completed, f).reservations
    ensures SameFor(s, CleanedUp(s, completed, f), n)
  {
  }

  lemma LeftCompletes(s: Store, c: Store, owner: string, r: Round, n: string)
    requires Left(s, c, DeletedNames(s, owner, r), CompletedKeys(s, owner, r)) && Finished(s, owner, n)
    ensures CompletedAuctions(s, c, n, r)
  {
    assert n !in DeletedNames(s, owner, r);
    forall k: Key | k.res == n && k in s.auctions ensures k in CompletedKeys(s, owner, r) <==> k !in r.f.completions {
    }
  }

  /** The auctions of every reservation that succeeded or timed out are completed, while it is kept. */
  lemma CompletesFinished(cfg: Config, s: Store, t: Store, r: Round, course: Course, n: string)
    requires Reconciles(cfg, s, t, r, course) && Finished(s, cfg.owner, n) && n in t.reservations
    ensures CompletedAuctions(s, t, n, r)
  {
    var p := ReconcileHasPhases(cfg, s, t, r, course);
    LeftCompletes(s, p.completed, cfg.owner, r, n);
    assert SameFor(p.completed, p.closed, n);
    OpenedSame(p.closed, p.invited, cfg, r, s, p.keys, n);
    RequestedSame(p.invited, InClass(s, Waiting, r, course), r, p.counts, cfg, n);
    CleanedKept(p.requested, InClass(s, ToComplete, r, course), r.f, n);
  }

  /** A reservation whose auctions do not fit is deleted together with them, unless that fails. */
  lemma DeletesMismatched(cfg: Config, s: Store, t: Store, r: Round, course: Course, n: string)
    requires Reconciles(cfg, s, t, r, course) && Owned(s, cfg.owner, n) && n != r.newName
    requires Undecided(s.reservations[n]) && Mismatched(s.reservations[n], ResourcesOf(s, n))
    ensures if n in r.f.deletions then SameFor(s, t, n)
            else Gone(t, n)
  {
    if n in r.f.deletions {
      LeavesAlone(cfg, s, t, r, course, n);
    } else {
      var p := ReconcileHasPhases(cfg, s, t, r, course);
      OpenedSame(p.closed, p.invited, cfg, r, s, p.keys, n);
      DeletedIsGone(s, p.completed, p.closed, cfg.owner, r, InClass(s, ToClose, r, course), n);
      StaysGone(p.invited, InClass(s, Waiting, r, course), r, p.counts, cfg, n, InClass(s, ToComplete, r, course));
    }
  }

  ghost predicate Gone(s: Store, n: string) {
    n !in s.reservations && forall k: Key | k.res == n :: k !in s.auctions
  }

  lemma DeletedIsGone(s: Store, c: Store, closed: Store, owner: string, r: Round, names: seq<string>, n: string)
    requires Left(s, c, DeletedNames(s, owner, r), CompletedKeys(s, owner, r)) && Deleted(s, owner, r, n)
    requires Closes(c, closed, names, r) && n !in names
    ensures Gone(closed, n)
  {
    assert n in DeletedNames(s, owner, r) && SameFor(c, closed, n);
  }

  lemma StaysGone(s: Store, waiting: seq<string>, r: Round, counts: map<Robot, int>, cfg: Config, n: string,
                  completed: seq<string>)
    requires Gone(s, n) && n != r.newName
    ensures Gone(CleanedUp(Requested(s, waiting, r.opr, counts, cfg, r.rs, r.newName, r.now, r.f), completed, r.f), n)
  {
  }

  /* ---------- New auctions ---------- */

  function NewAuctions(s: Store, t: Store): set<Key> {
    t.auctions.Keys - s.auctions.Keys
  }

  lemma OpenedStays(cfg: Config, s: Store, t: Store, r: Round, course: Course, p: Stages, n: string)
    requires Phases(cfg, s, t, r, course, p) && Classified(s, cfg.owner, r, course) && Openable(s, cfg.owner, n)
    ensures SameFor(s, p.closed, n)
    ensures n in t.reservations && t.reservations[n] == s.reservations[n] && SameAuctions(p.invited, t, n)
  {
    CompletedSame(s, p.completed, cfg.owner, r, n);
    assert SameFor(p.completed, p.closed, n);
    RequestedSame(p.invited, InClass(s, Waiting, r, course), r, p.counts, cfg, n);
    CleanedSame(p.requested, InClass(s, ToComplete, r, course), r.f, n);
  }

  /** The auction is a new one, for all orders of its reservation. */
  predicate InvitationStays(s: Store, t: Store, k: Key) {
    && k in t.auctions && k !in s.auctions && k.res in s.reservations
    && t.auctions[k] == Invitation(s.reservations[k.res], k.robot)
  }

  lemma NewStays(cfg: Config, s: Store, t: Store, r: Round, course: Course, p: Stages, k: Key)
    requires Phases(cfg, s, t, r, course, p) && InvitesRobots(s, cfg, r, p.keys) && Classified(s, cfg.owner, r, course)
    requires k in p.keys
    ensures InvitationStays(s, t, k)
  {
    OpenedStays(cfg, s, t, r, course, p, k.res);
    NothingBefore(s, k);
    assert k in p.invited.auctions;
  }

  lemma NewAuctionsAre(cfg: Config, s: Store, t: Store, r: Round, course: Course, p: Stages)
    requires Phases(cfg, s, t, r, course, p) && InvitesRobots(s, cfg, r, p.keys) && Classified(s, cfg.owner, r, course)
    ensures NewAuctions(s, t) == p.keys && forall k :: k in p.keys ==> InvitationStays(s, t, k)
  {
    NewOnesStay(cfg, s, t, r, course, p);
    NothingElseIsNew(cfg, s, t, r, course, p);
  }

  lemma NewOnesStay(cfg: Config, s: Store, t: Store, r: Round, course: Course, p: Stages)
    requires Phases(cfg, s, t, r, course, p) && InvitesRobots(s, cfg, r, p.keys) && Classified(s, cfg.owner, r, course)
    ensures forall k :: k in p.keys ==> InvitationStays(s, t, k)
  {
    forall k | k in p.keys ensures InvitationStays(s, t, k) {
      NewStays(cfg, s, t, r, course, p, k);
    }
  }

  lemma NothingElseIsNew(cfg: Config, s: Store, t: Store, r: Round, course: Course, p: Stages)
    requires Phases(cfg, s, t, r, course, p)
    ensures forall k :: k in t.auctions && k !in s.auctions ==> k in p.keys
  {
    forall k | k in t.auctions && k !in s.auctions ensures k in p.keys {
      assert k in p.requested.auctions && k in p.invited.auctions;
      ClosesKeys(p.completed, p.closed, InClass(s, ToClose, r, course), r, k);
    }
  }

  lemma NothingBefore(s: Store, k: Key)
    ensures k in s.auctions ==> ResourcesOf(s, k.res) != {}
  {
    if k in s.auctions {
      assert s.auctions[k] in ResourcesOf(s, k.res);
    }
  }

  lemma ClosesKeys(s: Store, t: Store, names: seq<string>, r: Round, k: Key)
    requires Closes(s, t, names, r)
    ensures k in s.auctions <==> k in t.auctions
  {
    if k.res in names {
      assert Decided(s, t, k.res, r);
    } else {
      assert SameFor(s, t, k.res);
    }
  }

  /**
   * Auctions are opened for reservations without any. Each robot that is available, free and has
   * room is invited to one of them, with all its orders, unless creating that fails for all.
   */
  lemma OpensAuctions(cfg: Config, s: Store, t: Store, r: Round, course: Course)
    requires Reconciles(cfg, s, t, r, course)
    ensures InvitesRobots(s, cfg, r, NewAuctions(s, t))
    ensures forall k :: k in NewAuctions(s, t) ==> InvitationStays(s, t, k)
    ensures forall n :: Openable(s, cfg.owner, n) ==> n in t.reservations && t.reservations[n] == s.reservations[n]
  {
    var p := ReconcileHasPhases(cfg, s, t, r, course);
    NewAuctionsAre(cfg, s, t, r, course, p);
    forall n | Openable(s, cfg.owner, n) ensures n in t.reservations && t.reservations[n] == s.reservations[n] {
      OpenedStays(cfg, s, t, r, course, p, n);
    }
  }

  /* ---------- New requests ---------- */

  /** The robots that want work and were not invited to any auction now. */
  ghost function Unoccupied(s: Store, t: Store, cfg: Config, r: Round): set<Robot> {
    set robot | robot in r.rs.available && WantsWork(s, cfg, r, robot) && !Has(NewAuctions(s, t), robot)
  }

  /** One of them works on too few orders, and writing a request works. */
  ghost predicate MustRequest(s: Store, t: Store, cfg: Config, r: Round) {
    (exists robot :: robot in Unoccupied(s, t, cfg, r) && At(r.opr, robot) < cfg.minOrders) && !r.f.request
  }

  /** Three orders for each of them, but no fewer than configured. */
  ghost predicate Requests(s: Store, t: Store, cfg: Config, r: Round, quantity: int) {
    var wanted := 3 * |Unoccupied(s, t, cfg, r)|;
    quantity >= wanted && quantity >= cfg.minPerAuction && (quantity == wanted || quantity == cfg.minPerAuction)
  }

  lemma WillingAre(s: Store, t: Store, cfg: Config, r: Round, course: Course, counts: map<Robot, int>)
    requires Classified(s, cfg.owner, r, course) && CountsCompleted(s, cfg.owner, r, course)
    requires Counts(NewAuctions(s, t), course.counts, counts)
    ensures Willing(r.opr, counts, cfg, r.rs) == Unoccupied(s, t, cfg, r)
  {
    CountsAreNatural(s, cfg.owner, r, course);
    forall robot | robot in r.rs.available
      ensures robot in Willing(r.opr, counts, cfg, r.rs) <==> robot in Unoccupied(s, t, cfg, r)
    {
      ZeroIffFree(s, cfg.owner, r, course, robot);
    }
  }

  /** No reservation of the scope is waited for. */
  ghost predicate NothingAwaited(s: Store, cfg: Config) {
    forall n :: Awaited(s, cfg.owner, n) ==> s.reservations[n].scope != cfg.scope
  }

  function Greater(a: int, b: int): int {
    if a > b then a else b
  }

  lemma RequestedIs(s: Store, t: Store, waiting: seq<string>, r: Round, counts: map<Robot, int>, cfg: Config)
    requires t == Requested(s, waiting, r.opr, counts, cfg, r.rs, r.newName, r.now, r.f) && r.newName !in s.reservations
    requires forall n :: n in waiting && n in s.reservations ==> s.reservations[n].scope != cfg.scope
    ensures var willing := Willing(r.opr, counts, cfg, r.rs);
      var needed := (exists robot :: robot in willing && At(r.opr, robot) < cfg.minOrders) && !r.f.request;
      && (r.newName in t.reservations <==> needed)
      && (needed ==>
            t.reservations[r.newName] ==
            Reservation(cfg.owner, r.now, cfg.scope, Greater(3 * |willing|, cfg.minPerAuction), [], Unset, 0, [], []))
  {
  }

  /**
   * When nothing of its scope is awaited, orders are requested exactly if a robot that wants work
   * and was not invited has fewer orders than the minimum, unless that fails.
   */
  lemma RequestResult(cfg: Config, s: Store, t: Store, r: Round, course: Course)
    requires Reconciles(cfg, s, t, r, course) && r.newName !in s.reservations && NothingAwaited(s, cfg)
    ensures r.newName in t.reservations <==> MustRequest(s, t, cfg, r)
    ensures r.newName in t.reservations ==>
              && IsRequest(t.reservations[r.newName], cfg) && t.reservations[r.newName].created == r.now
              && Requests(s, t, cfg, r, t.reservations[r.newName].quantity)
  {
    var p := ReconcileHasPhases(cfg, s, t, r, course);
    NewAuctionsAre(cfg, s, t, r, course, p);
    WillingAre(s, t, cfg, r, course, p.counts);
    NewNameIsNew(cfg, s, t, r, course, p);
    RequestedIs(p.invited, p.requested, InClass(s, Waiting, r, course), r, p.counts, cfg);
    CleanedSame(p.requested, InClass(s, ToComplete, r, course), r.f, r.newName);
  }

  lemma NewNameIsNew(cfg: Config, s: Store, t: Store, r: Round, course: Course, p: Stages)
    requires Phases(cfg, s, t, r, course, p) && Classified(s, cfg.owner, r, course)
    requires r.newName !in s.reservations && NothingAwaited(s, cfg)
    ensures r.newName !in p.invited.reservations
    ensures forall n :: n in InClass(s, Waiting, r, course) && n in p.invited.reservations ==>
              p.invited.reservations[n].scope != cfg.scope
  {
    assert SameFor(p.completed, p.closed, r.newName);
    forall n | n in InClass(s, Waiting, r, course) && n in p.invited.reservations
      ensures p.invited.reservations[n].scope != cfg.scope
    {
      CompletedSame(s, p.completed, cfg.owner, r, n);
      assert SameFor(p.completed, p.closed, n);
    }
  }

  /** While something of its scope is awaited no other orders are requested. */
  lemma NoSecondRequest(cfg: Config, s: Store, t: Store, r: Round, course: Course, n: string)
    requires Reconciles(cfg, s, t, r, course) && r.newName !in s.reservations
    requires Awaited(s, cfg.owner, n) && s.reservations[n].scope == cfg.scope
    ensures r.newName !in t.reservations
  {
    var p := ReconcileHasPhases(cfg, s, t, r, course);
    CompletedSame(s, p.completed, cfg.owner, r, n);
    assert SameFor(p.completed, p.closed, n) && SameFor(p.completed, p.closed, r.newName);
    assert n in InClass(s, Waiting, r, course) && n in p.invited.reservations;
  }

  /** A request that EWM did not answer yet is the only one awaited; its quantity follows the robots that want work. */
  lemma AdjustsQuantity(cfg: Config, s: Store, t: Store, r: Round, course: Course, n: string)
    requires Reconciles(cfg, s, t, r, course) && Awaited(s, cfg.owner, n) && s.reservations[n].status == New
    requires forall m :: (Awaited(s, cfg.owner, m) && s.reservations[m].scope == cfg.scope) <==> m == n
    ensures n in t.reservations && t.reservations[n] == s.reservations[n].(quantity := t.reservations[n].quantity)
    ensures if MustRequest(s, t, cfg, r) then Requests(s, t, cfg, r, t.reservations[n].quantity)
            else t.reservations[n] == s.reservations[n]
  {
    var p := ReconcileHasPhases(cfg, s, t, r, course);
    NewAuctionsAre(cfg, s, t, r, course, p);
    WillingAre(s, t, cfg, r, course, p.counts);
    OnlyAwaited(cfg, s, r, course, p, n);
    QuantityIs(p.invited, p.requested, InClass(s, Waiting, r, course), r, p.counts, cfg, n);
    CleanedSame(p.requested, InClass(s, ToComplete, r, course), r.f, n);
  }

  predicate AwaitedIn(s: Store, waiting: seq<string>, scope: Scope, n: string) {
    n in waiting && n in s.reservations && s.reservations[n].scope == scope
  }

  lemma OnlyAwaited(cfg: Config, s: Store, r: Round, course: Course, p: Stages, n: string)
    requires Left(s, p.completed, DeletedNames(s, cfg.owner, r), CompletedKeys(s, cfg.owner, r))
    requires Closes(p.completed, p.closed, InClass(s, ToClose, r, course), r) && Opens(p.closed, p.invited, p.keys)
    requires Classified(s, cfg.owner, r, course) && Awaited(s, cfg.owner, n)
    requires forall m :: (Awaited(s, cfg.owner, m) && s.reservations[m].scope == cfg.scope) <==> m == n
    ensures n in p.invited.reservations && p.invited.reservations[n] == s.reservations[n]
    ensures forall m :: AwaitedIn(p.invited, InClass(s, Waiting, r, course), cfg.scope, m) <==> m == n
  {
    forall m | Awaited(s, cfg.owner, m) ensures SameFor(s, p.closed, m) {
      CompletedSame(s, p.completed, cfg.owner, r, m);
      assert SameFor(p.completed, p.closed, m);
    }
  }

  lemma QuantityIs(s: Store, t: Store, waiting: seq<string>, r: Round, counts: map<Robot, int>, cfg: Config, n: string)
    requires t == Requested(s, waiting, r.opr, counts, cfg, r.rs, r.newName, r.now, r.f)
    requires n in s.reservations && s.reservations[n].status == New
    requires forall m :: AwaitedIn(s, waiting, cfg.scope, m) <==> m == n
    ensures var willing := Willing(r.opr, counts, cfg, r.rs);
      var needed := (exists robot :: robot in willing && At(r.opr, robot) < cfg.minOrders) && !r.f.request;
      n in t.reservations && t.reservations[n] ==
        if needed then s.reservations[n].(quantity := Greater(3 * |willing|, cfg.minPerAuction)) else s.reservations[n]
  {
    assert AwaitedIn(s, waiting, cfg.scope, n);
    var request := OpenRequest(s, waiting, cfg.scope);
    assert request.Some? && AwaitedIn(s, waiting, cfg.scope, request.value);
  }
}
