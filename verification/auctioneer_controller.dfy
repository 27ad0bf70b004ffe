/** The auctioneer's controller: the loops of a reconcile over the cluster's resources. */
module AuctioneerController {
  import opened Common
  import opened Warehouse
  import opened AuctionCycle
  import Winners

  /** The elements of a set in some order. */
  method Listed<T(==)>(items: set<T>) returns (s: seq<T>)
    ensures Elements(s) == items && NoDuplicates(s)
  {
    s := [];
    var rest := items;
    while rest != {}
      invariant rest <= items && Elements(s) == items - rest && NoDuplicates(s)
    {
      var x :| x in rest;
      ElementsAppend(s, x);
      assert x !in Elements(s);
      s := s + [x];
      rest := rest - {x};
    }
  }

  /** The uncompleted ones of the given auctions that belong to the robot. */
  function UncompletedIn(s: Store, keys: set<Key>, r: Robot): set<Key> {
    set k | k in keys && k in s.auctions && k.robot == r && s.auctions[k].status != AuctionCompleted
  }

  /** The counters say how many of the given auctions are uncompleted, robot by robot. */
  ghost predicate CountedIn(s: Store, keys: set<Key>, apr: map<Robot, int>) {
    forall r :: At(apr, r) == |UncompletedIn(s, keys, r)|
  }

  /** The resources after the given auctions changed their status. */
  function WithStatusOf(s: Store, keys: set<Key>, status: AuctionStatus): Store {
    s.(auctions := map k | k in s.auctions :: if k in keys then s.auctions[k].(status := status) else s.auctions[k])
  }

  /** The counters moved as far as the number of uncompleted auctions did. */
  ghost predicate Balanced(owner: string, s: Store, apr: map<Robot, int>, t: Store, after: map<Robot, int>) {
    forall r :: At(after, r) - |UncompletedOf(t, owner, r)| == At(apr, r) - |UncompletedOf(s, owner, r)|
  }

  lemma CompletingOne(s: Store, owner: string, k: Key, apr: map<Robot, int>)
    requires k in s.auctions && s.auctions[k].status != AuctionCompleted && k.res in OwnedNames(s, owner)
    ensures Balanced(owner, s, apr, WithStatusOf(s, {k}, AuctionCompleted), apr[k.robot := At(apr, k.robot) - 1])
  {
    var t := WithStatusOf(s, {k}, AuctionCompleted);
    forall r ensures UncompletedOf(t, owner, r) == UncompletedOf(s, owner, r) - {k} {
    }
    assert forall r :: k in UncompletedOf(s, owner, r) <==> r == k.robot;
  }

  /** Completing one auction; its robot's counter falls unless the write fails. */
  function CompleteOne(s: Store, apr: map<Robot, int>, k: Key, f: Failures): (Store, map<Robot, int>) {
    if k in s.auctions && s.auctions[k].status != AuctionCompleted && k !in f.completions then
      (WithStatusOf(s, {k}, AuctionCompleted), apr[k.robot := At(apr, k.robot) - 1])
    else (s, apr)
  }

  /** Resources and counters after the first j listed auctions were completed. */
  function CompletedUpTo(s: Store, apr: map<Robot, int>, keys: seq<Key>, j: nat, f: Failures): (Store, map<Robot, int>)
    requires j <= |keys|
  {
    if j == 0 then (s, apr) else
      var before := CompletedUpTo(s, apr, keys, j - 1, f);
      CompleteOne(before.0, before.1, keys[j - 1], f)
  }

  lemma {:induction false} CompletedStatus(s: Store, apr: map<Robot, int>, keys: seq<Key>, j: nat, f: Failures)
    requires j <= |keys|
    ensures CompletedUpTo(s, apr, keys, j, f).0 ==
            WithStatusOf(s, Elements(keys[..j]) - f.completions, AuctionCompleted)
  {
    if j > 0 {
      CompletedStatus(s, apr, keys, j - 1, f);
      assert keys[..j] == keys[..j - 1] + [keys[j - 1]];
      ElementsAppend(keys[..j - 1], keys[j - 1]);
    } else {
      assert s == WithStatusOf(s, {}, AuctionCompleted);
    }
  }

  lemma CompletedOwned(s: Store, apr: map<Robot, int>, keys: seq<Key>, j: nat, f: Failures, owner: string)
    requires j <= |keys|
    ensures OwnedNames(CompletedUpTo(s, apr, keys, j, f).0, owner) == OwnedNames(s, owner)
  {
  }

  lemma CompleteOneBalance(s: Store, apr: map<Robot, int>, k: Key, f: Failures, owner: string)
    requires k.res in OwnedNames(s, owner)
    ensures Balanced(owner, s, apr, CompleteOne(s, apr, k, f).0, CompleteOne(s, apr, k, f).1)
  {
    if k in s.auctions && s.auctions[k].status != AuctionCompleted && k !in f.completions {
      CompletingOne(s, owner, k, apr);
    }
  }

  lemma {:induction false} CompletedBalance(s: Store, apr: map<Robot, int>, keys: seq<Key>, j: nat, f: Failures,
                                            owner: string)
    requires j <= |keys| && forall k :: k in keys ==> k.res in OwnedNames(s, owner)
    ensures Balanced(owner, s, apr, CompletedUpTo(s, apr, keys, j, f).0, CompletedUpTo(s, apr, keys, j, f).1)
  {
    if j > 0 {
      CompletedBalance(s, apr, keys, j - 1, f, owner);
      CompletedOwned(s, apr, keys, j - 1, f, owner);
      var before, after := CompletedUpTo(s, apr, keys, j - 1, f), CompletedUpTo(s, apr, keys, j, f);
      CompleteOneBalance(before.0, before.1, keys[j - 1], f, owner);
      BalancedTransitive(owner, s, apr, before.0, before.1, after.0, after.1);
    }
  }

  lemma BalancedTransitive(owner: string, s: Store, apr: map<Robot, int>, t: Store, mid: map<Robot, int>, u: Store,
                           after: map<Robot, int>)
    requires Balanced(owner, s, apr, t, mid) && Balanced(owner, t, mid, u, after)
    ensures Balanced(owner, s, apr, u, after)
  {
  }

  /** The counters say how many of the orders seen so far run on each robot in scope. */
  ghost predicate Counted(running: map<Ident, Robot>, rs: RobotStates, seen: set<Ident>, opr: map<Robot, int>) {
    forall r :: At(opr, r) == if r in rs.inScope then |RunningOn(running, r) * seen| else 0
  }

  function CountOrder(opr: map<Robot, int>, rs: RobotStates, robot: Robot): map<Robot, int> {
    if robot in rs.inScope then opr[robot := At(opr, robot) + 1] else opr
  }

  lemma RunningStep(running: map<Ident, Robot>, seen: set<Ident>, id: Ident, r: Robot)
    requires id in running && id !in seen
    ensures |RunningOn(running, r) * (seen + {id})| ==
            |RunningOn(running, r) * seen| + if r == running[id] then 1 else 0
  {
    assert RunningOn(running, r) * (seen + {id}) ==
           RunningOn(running, r) * seen + if r == running[id] then {id} else {};
  }

  lemma CountedStep(running: map<Ident, Robot>, rs: RobotStates, seen: set<Ident>, opr: map<Robot, int>, id: Ident)
    requires Counted(running, rs, seen, opr) && id in running && id !in seen
    ensures Counted(running, rs, seen + {id}, CountOrder(opr, rs, running[id]))
  {
    forall r
      ensures At(CountOrder(opr, rs, running[id]), r) ==
              if r in rs.inScope then |RunningOn(running, r) * (seen + {id})| else 0
    {
      RunningStep(running, seen, id, r);
    }
  }

  /** The orders running on each robot in scope. */
  method MapWarehouseOrders(running: map<Ident, Robot>, rs: RobotStates) returns (opr: map<Robot, int>)
    ensures forall r :: At(opr, r) == if r in rs.inScope then |RunningOn(running, r)| else 0
  {
    opr := map[];
    var items := Listed(running.Keys);
    for i := 0 to |items|
      invariant Counted(running, rs, Elements(items[..i]), opr)
    {
      assert items[i] in Elements(items) && items[i] !in Elements(items[..i]);
      CountedStep(running, rs, Elements(items[..i]), opr, items[i]);
      ElementsAppend(items[..i], items[i]);
      assert items[..i + 1] == items[..i] + [items[i]];
      if running[items[i]] in rs.inScope {
        opr := opr[running[items[i]] := At(opr, running[items[i]]) + 1];
      }
    }
    assert items[..|items|] == items;
    assert forall r :: RunningOn(running, r) * running.Keys == RunningOn(running, r);
  }

  class Auctioneer {
    const cfg: Config
    var store: Store
    var apr: map<Robot, int>

    constructor (cfg: Config, store: Store)
      ensures this.cfg == cfg && this.store == store && apr == map[]
    {
      this.cfg := cfg;
      this.store := store;
      this.apr := map[];
    }

    /** Counts the uncompleted auctions of one reservation on top of those seen before. */
    method CollectAuctionsOf(n: string, ghost seen: set<Key>)
      requires forall k :: k in store.auctions ==> store.auctions[k].robot == k.robot
      requires seen !! KeysOf(store, n) && CountedIn(store, seen, apr)
      modifies this`apr
      ensures CountedIn(store, seen + KeysOf(store, n), apr)
    {
      var keys := Listed(KeysOf(store, n));
      ghost var done := seen;
      for j := 0 to |keys|
        invariant done == seen + Elements(keys[..j])
        invariant CountedIn(store, done, apr)
      {
        var k := keys[j];
        assert k in Elements(keys);
        assert k !in done;
        ElementsAppend(keys[..j], k);
        assert keys[..j + 1] == keys[..j] + [k];
        CountOne(store, done, k);
        done := done + {k};
        if store.auctions[k].status != AuctionCompleted {
          apr := apr[store.auctions[k].robot := At(apr, store.auctions[k].robot) + 1];
        }
      }
      assert keys[..|keys|] == keys;
    }

    /** Counts the uncompleted auctions of every robot in the reservations of this auctioneer. */
    method CollectAuctions(names: seq<string>)
      requires Elements(names) == OwnedNames(store, cfg.owner) && NoDuplicates(names)
      requires forall k :: k in store.auctions ==> store.auctions[k].robot == k.robot
      modifies this`apr
      ensures forall r :: At(apr, r) == |UncompletedOf(store, cfg.owner, r)|
    {
      apr := map[];
      ghost var done: set<Key> := {};
      for i := 0 to |names|
        invariant forall k :: k in done <==> k in store.auctions && k.res in names[..i]
        invariant CountedIn(store, done, apr)
      {
        assert names[i] !in names[..i];
        CollectAuctionsOf(names[i], done);
        done := done + KeysOf(store, names[i]);
        assert names[..i + 1] == names[..i] + [names[i]];
      }
      assert names[..|names|] == names;
      forall r ensures UncompletedIn(store, done, r) == UncompletedOf(store, cfg.owner, r) {
        assert forall n :: n in names <==> n in Elements(names);
      }
    }

    static lemma CountOne(s: Store, done: set<Key>, k: Key)
      requires k !in done && k in s.auctions
      ensures forall r :: |UncompletedIn(s, done + {k}, r)| ==
                          |UncompletedIn(s, done, r)|
                          + if r == k.robot && s.auctions[k].status != AuctionCompleted then 1 else 0
    {
      forall r ensures |UncompletedIn(s, done + {k}, r)| ==
                       |UncompletedIn(s, done, r)|
                       + if r == k.robot && s.auctions[k].status != AuctionCompleted then 1 else 0
      {
        if r == k.robot && s.auctions[k].status != AuctionCompleted {
          assert UncompletedIn(s, done + {k}, r) == UncompletedIn(s, done, r) + {k};
        } else {
          assert UncompletedIn(s, done + {k}, r) == UncompletedIn(s, done, r);
        }
      }
    }

    method DeleteReservations(names: seq<string>, f: Failures)
      modifies this`store
      ensures store == WithoutReservations(old(store), Elements(names) - f.deletions)
    {
      for i := 0 to |names|
        invariant store == WithoutReservations(old(store), Elements(names[..i]) - f.deletions)
      {
        assert names[..i + 1] == names[..i] + [names[i]];
        if names[i] !in f.deletions {
          store := WithoutReservations(store, {names[i]});
        }
      }
      assert names[..|names|] == names;
    }

    /** Completes the auctions of one reservation and lowers the counters of their robots. */
    method CompleteAuctionsOf(n: string, f: Failures)
      requires n in OwnedNames(store, cfg.owner)
      requires forall k :: k in store.auctions ==> store.auctions[k].robot == k.robot
      modifies this
      ensures store == WithStatus(old(store), {n}, f.completions, AuctionCompleted)
      ensures Balanced(cfg.owner, old(store), old(apr), store, apr)
    {
      var keys := Listed(KeysOf(store, n));
      assert forall k :: k in keys <==> k in Elements(keys);
      for j := 0 to |keys|
        invariant store == CompletedUpTo(old(store), old(apr), keys, j, f).0
        invariant apr == CompletedUpTo(old(store), old(apr), keys, j, f).1
      {
        var k := keys[j];
        CompletedStatus(old(store), old(apr), keys, j, f);
        assert k in Elements(keys);
        if store.auctions[k].status != AuctionCompleted && k !in f.completions {
          assert store.(auctions := store.auctions[k := store.auctions[k].(status := AuctionCompleted)])
              == WithStatusOf(store, {k}, AuctionCompleted);
          apr := apr[store.auctions[k].robot := At(apr, store.auctions[k].robot) - 1];
          store := store.(auctions := store.auctions[k := store.auctions[k].(status := AuctionCompleted)]);
        }
      }
      CompletedStatus(old(store), old(apr), keys, |keys|, f);
      CompletedBalance(old(store), old(apr), keys, |keys|, f, cfg.owner);
      assert keys[..|keys|] == keys;
    }

    method DoCompleteAuctions(names: seq<string>, f: Failures)
      requires forall n :: n in names ==> n in OwnedNames(store, cfg.owner)
      requires forall k :: k in store.auctions ==> store.auctions[k].robot == k.robot
      modifies this
      ensures store == WithStatus(old(store), Elements(names), f.completions, AuctionCompleted)
      ensures Balanced(cfg.owner, old(store), old(apr), store, apr)
    {
      NothingCompleted(store, f);
      for i := 0 to |names|
        invariant store == WithStatus(old(store), Elements(names[..i]), f.completions, AuctionCompleted)
        invariant Balanced(cfg.owner, old(store), old(apr), store, apr)
      {
        assert names[i] in names;
        ghost var before, counts := store, apr;
        CompletionKeepsRobots(old(store), Elements(names[..i]), f, cfg.owner);
        CompleteAuctionsOf(names[i], f);
        BalancedTransitive(cfg.owner, old(store), old(apr), before, counts, store, apr);
        CompletedMore(old(store), names, i, f);
      }
      assert names[..|names|] == names;
    }

    static lemma NothingCompleted(s: Store, f: Failures)
      ensures s == WithStatus(s, Elements([]), f.completions, AuctionCompleted)
    {
    }

    static lemma CompletionKeepsRobots(s: Store, names: set<string>, f: Failures, owner: string)
      requires forall k :: k in s.auctions ==> s.auctions[k].robot == k.robot
      ensures var t := WithStatus(s, names, f.completions, AuctionCompleted);
        OwnedNames(t, owner) == OwnedNames(s, owner) && forall k :: k in t.auctions ==> t.auctions[k].robot == k.robot
    {
    }

    static lemma CompletedMore(s: Store, names: seq<string>, i: nat, f: Failures)
      requires i < |names|
      ensures WithStatus(WithStatus(s, Elements(names[..i]), f.completions, AuctionCompleted), {names[i]},
                         f.completions, AuctionCompleted)
           == WithStatus(s, Elements(names[..i + 1]), f.completions, AuctionCompleted)
    {
    }

    /** Closes the auctions of one reservation after its winners were written. */
    method CloseAuctionsOf(n: string, f: Failures)
      modifies this`store
      ensures store == WithStatus(old(store), {n}, f.closings, AuctionClosed)
    {
      var keys := Listed(KeysOf(store, n));
      assert store == WithStatusOf(store, {}, AuctionClosed);
      for j := 0 to |keys|
        invariant store == WithStatusOf(old(store), Elements(keys[..j]) - f.closings, AuctionClosed)
      {
        var k := keys[j];
        assert k in Elements(keys);
        ElementsAppend(keys[..j], k);
        assert keys[..j + 1] == keys[..j] + [k];
        if store.auctions[k].status != AuctionClosed && k !in f.closings {
          store := store.(auctions := store.auctions[k := store.auctions[k].(status := AuctionClosed)]);
        }
      }
      assert keys[..|keys|] == keys;
    }

    /** Identifies the winners of every listed auction; an auction without winners stays open. */
    method DoCloseAuctions(names: seq<string>, rs: RobotStates, now: int, f: Failures)
      returns (ghost states: seq<Store>)
      requires forall n :: n in names ==> n in store.reservations
      modifies this`store
      ensures ClosingTrace(states, names, rs, now, f)
      ensures states[0] == old(store) && states[|names|] == store
      ensures store.reservations.Keys == old(store).reservations.Keys
    {
      states := [store];
      for i := 0 to |names|
        invariant ClosingTrace(states, names[..i], rs, now, f)
        invariant states[0] == old(store) && states[i] == store
        invariant store.reservations.Keys == old(store).reservations.Keys
      {
        var n := names[i];
        assert n in names;
        ghost var before := store;
        var crs := ListAuctions(n);
        var orderAssignments := Winners.GetAuctionWinners(store.reservations[n].whos, crs, rs.available, now);
        if orderAssignments != [] && n !in f.assignments {
          var closed := store.reservations[n].(assignments := orderAssignments);
          store := store.(reservations := store.reservations[n := closed]);
          CloseAuctionsOf(n, f);
        }
        assert store == Closed(before, n, orderAssignments, f);
        assert CloseStep(before, store, n, rs, now, f);
        ClosingTraceAppend(states, store, names, i, rs, now, f);
        states := states + [store];
      }
      assert names[..|names|] == names;
    }

    static lemma ClosingTraceAppend(states: seq<Store>, t: Store, names: seq<string>, i: nat, rs: RobotStates,
                                    now: int, f: Failures)
      requires i < |names| && ClosingTrace(states, names[..i], rs, now, f)
      requires CloseStep(states[i], t, names[i], rs, now, f)
      ensures ClosingTrace(states + [t], names[..i + 1], rs, now, f)
    {
    }

    /** The auction resources that belong to a reservation. */
    method ListAuctions(n: string) returns (crs: seq<OrderAuction>)
      ensures Lists(store, n, crs)
    {
      crs := [];
      var keys := Listed(KeysOf(store, n));
      for j := 0 to |keys|
        invariant |crs| == j && forall i :: 0 <= i < j ==>
                    keys[i] in store.auctions && crs[i] == store.auctions[keys[i]]
      {
        assert keys[j] in Elements(keys);
        crs := crs + [store.auctions[keys[j]]];
      }
      forall oa | oa in ResourcesOf(store, n) ensures oa in crs {
        var k :| k in KeysOf(store, n) && store.auctions[k] == oa;
        assert k in Elements(keys);
        var j :| 0 <= j < |keys| && keys[j] == k;
        assert crs[j] == oa;
      }
      forall oa | oa in crs ensures oa in ResourcesOf(store, n) {
        var j :| 0 <= j < |crs| && crs[j] == oa;
        assert keys[j] in Elements(keys);
      }
    }

    /** Opens the auction of one robot if it has room for an order and no running auction. */
    method InviteRobot(n: string, robot: Robot, opr: map<Robot, int>, f: Failures) returns (created: bool)
      requires n in store.reservations
      modifies this
      ensures created == (MightWork(robot, opr, old(apr), cfg.maxOrders) && Key(n, robot) !in f.creations)
      ensures store == if created then WithAuctions(old(store), n, {robot}) else old(store)
      ensures apr == if created then Increased(old(apr), {robot}) else old(apr)
    {
      created := At(opr, robot) < cfg.maxOrders && At(apr, robot) == 0 && Key(n, robot) !in f.creations;
      if created {
        CreateSingle(store, n, robot);
        IncreaseSingle(apr, robot);
        store := store.(auctions := store.auctions[Key(n, robot) := NewAuction(store.reservations[n], robot)]);
        apr := apr[robot := At(apr, robot) + 1];
      }
    }

    /** Invites every available robot with room for an order and without a running auction. */
    method InviteRobots(n: string, opr: map<Robot, int>, rs: RobotStates, f: Failures)
      requires n in store.reservations
      modifies this
      ensures store == WithAuctions(old(store), n, Invited(n, opr, old(apr), cfg, rs, f))
      ensures apr == Increased(old(apr), Invited(n, opr, old(apr), cfg, rs, f))
    {
      var robots := Listed(rs.available);
      ghost var invited: set<Robot> := {};
      NobodyInvited(store, apr, n);
      for j := 0 to |robots|
        invariant forall r :: r in invited <==> r in robots[..j] && r in Invited(n, opr, old(apr), cfg, rs, f)
        invariant store == WithAuctions(old(store), n, invited)
        invariant apr == Increased(old(apr), invited)
      {
        assert robots[j] in Elements(robots) && robots[j] !in robots[..j];
        InviteOneMore(old(store), old(apr), n, invited, robots[j]);
        var created := InviteRobot(n, robots[j], opr, f);
        if created {
          invited := invited + {robots[j]};
        }
      }
      assert forall r :: r in robots <==> r in Elements(robots);
      assert invited == Invited(n, opr, old(apr), cfg, rs, f);
    }

    static lemma NobodyInvited(s: Store, apr: map<Robot, int>, n: string)
      requires n in s.reservations
      ensures WithAuctions(s, n, {}) == s && Increased(apr, {}) == apr
    {
    }

    static lemma InviteOneMore(s: Store, apr: map<Robot, int>, n: string, robots: set<Robot>, r: Robot)
      requires n in s.reservations && r !in robots
      ensures WithAuctions(WithAuctions(s, n, robots), n, {r}) == WithAuctions(s, n, robots + {r})
      ensures Increased(Increased(apr, robots), {r}) == Increased(apr, robots + {r})
      ensures At(Increased(apr, robots), r) == At(apr, r)
    {
      CreateOne(s, n, robots, r);
      CreateSingle(WithAuctions(s, n, robots), n, r);
      IncreaseOne(apr, robots, r);
      IncreaseSingle(Increased(apr, robots), r);
    }

    static lemma CreateSingle(s: Store, n: string, r: Robot)
      requires n in s.reservations
      ensures WithAuctions(s, n, {r}) == s.(auctions := s.auctions[Key(n, r) := NewAuction(s.reservations[n], r)])
    {
    }

    static lemma IncreaseSingle(apr: map<Robot, int>, r: Robot)
      ensures Increased(apr, {r}) == apr[r := At(apr, r) + 1]
    {
    }

    static lemma CreateOne(s: Store, n: string, robots: set<Robot>, r: Robot)
      requires n in s.reservations
      ensures WithAuctions(s, n, robots + {r}) ==
              s.(auctions := WithAuctions(s, n, robots).auctions[Key(n, r) := NewAuction(s.reservations[n], r)])
    {
    }

    static lemma IncreaseOne(apr: map<Robot, int>, robots: set<Robot>, r: Robot)
      requires r !in robots
      ensures Increased(apr, robots + {r}) == Increased(apr, robots)[r := At(apr, r) + 1]
    {
    }

    method DoCreateAuctions(names: seq<string>, opr: map<Robot, int>, rs: RobotStates, f: Failures)
      requires forall n :: n in names ==> n in store.reservations
      modifies this
      ensures store == CreateUpTo(old(store), old(apr), names, |names|, opr, cfg, rs, f).0
      ensures apr == CreateUpTo(old(store), old(apr), names, |names|, opr, cfg, rs, f).1
    {
      for i := 0 to |names|
        invariant store == CreateUpTo(old(store), old(apr), names, i, opr, cfg, rs, f).0
        invariant apr == CreateUpTo(old(store), old(apr), names, i, opr, cfg, rs, f).1
      {
        assert names[i] in names;
        InviteRobots(names[i], opr, rs, f);
      }
    }

    /** The robots that might work; whether one of them has too few orders. */
    method CollectWilling(opr: map<Robot, int>, rs: RobotStates)
      returns (robotMightWork: seq<Robot>, reserveOrders: bool)
      ensures Elements(robotMightWork) == Willing(opr, apr, cfg, rs) && NoDuplicates(robotMightWork)
      ensures reserveOrders == ReserveOrders(opr, apr, cfg, rs)
    {
      robotMightWork, reserveOrders := [], false;
      var robots := Listed(rs.available);
      for j := 0 to |robots|
        invariant forall r :: r in robotMightWork <==> r in robots[..j] && MightWork(r, opr, apr, cfg.maxOrders)
        invariant NoDuplicates(robotMightWork)
        invariant reserveOrders <==> exists r :: r in robotMightWork && At(opr, r) < cfg.minOrders
      {
        var robot := robots[j];
        assert robot !in robots[..j];
        if At(opr, robot) < cfg.maxOrders && At(apr, robot) == 0 {
          robotMightWork := robotMightWork + [robot];
          assert robotMightWork[|robotMightWork| - 1] == robot;
          if At(opr, robot) < cfg.minOrders {
            reserveOrders := true;
          }
        }
      }
      assert forall r :: r in robots <==> r in Elements(robots);
      assert forall r :: r in robotMightWork <==> r in Willing(opr, apr, cfg, rs);
    }

    /** The first waiting reservation for the own scope. */
    method FindRequest(waiting: seq<string>) returns (request: Option<string>)
      ensures request == OpenRequest(store, waiting, cfg.scope)
    {
      request := None;
      for i := 0 to |waiting|
        invariant request == None
        invariant OpenRequest(store, waiting, cfg.scope) == OpenRequest(store, waiting[i..], cfg.scope)
      {
        assert waiting[i..][1..] == waiting[i + 1..];
        if waiting[i] in store.reservations && store.reservations[waiting[i]].scope == cfg.scope {
          return Some(waiting[i]);
        }
      }
    }

    /** Requests more orders, or changes the quantity while the request is still new. */
    method DoCreateReservations(waiting: seq<string>, opr: map<Robot, int>, rs: RobotStates, newName: string, now: int,
                                f: Failures)
      modifies this`store
      ensures store == Requested(old(store), waiting, opr, apr, cfg, rs, newName, now, f)
    {
      var request := FindRequest(waiting);
      if request.Some? && store.reservations[request.value].status != New {
        return;
      }
      var robotMightWork, reserveOrders := CollectWilling(opr, rs);
      NoDuplicatesCard(robotMightWork);
      if reserveOrders {
        var numberOfOrders := |robotMightWork| * 3;
        if numberOfOrders <= cfg.minPerAuction {
          numberOfOrders := cfg.minPerAuction;
        }
        if request.None? {
          if !f.request && newName !in store.reservations {
            var res := Reservation(cfg.owner, now, cfg.scope, numberOfOrders, [], Unset, 0, [], []);
            store := store.(reservations := store.reservations[newName := res]);
          }
        } else if store.reservations[request.value].quantity != numberOfOrders && !f.request {
          var res := store.reservations[request.value].(quantity := numberOfOrders);
          store := store.(reservations := store.reservations[request.value := res]);
        }
      }
    }

    /** Deletes completed reservations beyond the fifty youngest. */
    method CleanupReservations(completed: seq<string>, f: Failures)
      modifies this`store
      ensures store == CleanedUp(old(store), completed, f)
    {
      var sorted := ByAge(store, completed);
      if |sorted| > KEPT_RESERVATIONS {
        DeleteReservations(sorted[KEPT_RESERVATIONS..], f);
      }
    }

    /** One reconcile: reads everything once, then works through its phases whatever writes fail. */
    method Reconcile(running: map<Ident, Robot>, rs: RobotStates, now: int, newName: string, f: Failures)
      returns (ghost round: Round, ghost course: Course)
      requires forall k :: k in store.auctions ==> store.auctions[k].robot == k.robot
      modifies this
      ensures round.rs == rs && round.now == now && round.newName == newName && round.f == f
      ensures forall r :: At(round.opr, r) == if r in rs.inScope then |RunningOn(running, r)| else 0
      ensures Reconciles(cfg, old(store), store, round, course)
    {
      var names := Listed(OwnedNames(store, cfg.owner));
      CollectAuctions(names);
      var opr := MapWarehouseOrders(running, rs);
      course := RunAuctions(names, opr, rs, now, newName, f);
      round := Round(rs, opr, now, newName, f);
    }

    /** Deletes inconsistent reservations and completes the auctions of finished ones. */
    method CompleteFinished(inconsistent: seq<string>, toComplete: seq<string>, ghost r: Round,
                            ghost names: seq<string>, f: Failures)
      requires forall k :: k in store.auctions ==> store.auctions[k].robot == k.robot
      requires Elements(names) == OwnedNames(store, cfg.owner) && f == r.f
      requires forall robot :: At(apr, robot) == |UncompletedOf(store, cfg.owner, robot)|
      requires inconsistent == WithClass(store, names, Inconsistent, r.rs.available, r.now)
      requires toComplete == WithClass(store, names, ToComplete, r.rs.available, r.now)
      modifies this
      ensures store == AfterCompletion(old(store), r, Course(names, apr, []))
      ensures CountsCompleted(old(store), cfg.owner, r, Course(names, apr, []))
    {
      ListedSurvive(store, names, cfg.owner, ToComplete, r.rs, r.now, f);
      DeleteReservations(inconsistent, f);
      DoCompleteAuctions(toComplete, f);
      CountsAgree(cfg.owner, old(store), old(apr), r, Course(names, apr, []));
    }

    /** Puts every reservation into the list of its class. */
    method ClassifyAuctions(names: seq<string>, rs: RobotStates, now: int)
      returns (inconsistent: seq<string>, toComplete: seq<string>, toClose: seq<string>, toCreate: seq<string>,
               waiting: seq<string>)
      requires forall n :: n in names ==> n in store.reservations
      ensures inconsistent == WithClass(store, names, Inconsistent, rs.available, now)
      ensures toComplete == WithClass(store, names, ToComplete, rs.available, now)
      ensures toClose == WithClass(store, names, ToClose, rs.available, now)
      ensures toCreate == WithClass(store, names, ToCreate, rs.available, now)
      ensures waiting == WithClass(store, names, Waiting, rs.available, now)
      ensures Sorted(store, names, rs.available, now, inconsistent, toComplete, toClose, toCreate, waiting)
    {
      inconsistent, toComplete, toClose, toCreate, waiting := [], [], [], [], [];
      for i := 0 to |names|
        invariant inconsistent == WithClass(store, names[..i], Inconsistent, rs.available, now)
        invariant toComplete == WithClass(store, names[..i], ToComplete, rs.available, now)
        invariant toClose == WithClass(store, names[..i], ToClose, rs.available, now)
        invariant toCreate == WithClass(store, names[..i], ToCreate, rs.available, now)
        invariant waiting == WithClass(store, names[..i], Waiting, rs.available, now)
      {
        var crs := ListAuctions(names[i]);
        var c := ClassifyAuction(store.reservations[names[i]], crs, rs.available, now);
        WithClassNext(store, names, i, rs.available, now, c);
        match c {
          case Inconsistent => inconsistent := inconsistent + [names[i]];
          case ToComplete => toComplete := toComplete + [names[i]];
          case ToClose => toClose := toClose + [names[i]];
          case ToCreate => toCreate := toCreate + [names[i]];
          case Waiting => waiting := waiting + [names[i]];
          case _ =>
        }
      }
      assert names[..|names|] == names;
      SortedByClass(store, names, rs.available, now);
    }

    /** Completes, closes and creates auctions, requests more orders and cleans up. */
    method RunAuctions(names: seq<string>, opr: map<Robot, int>, rs: RobotStates, now: int, newName: string,
                       f: Failures)
      returns (ghost course: Course)
      requires forall k :: k in store.auctions ==> store.auctions[k].robot == k.robot
      requires Elements(names) == OwnedNames(store, cfg.owner) && NoDuplicates(names)
      requires forall r :: At(apr, r) == |UncompletedOf(store, cfg.owner, r)|
      modifies this
      ensures Reconciles(cfg, old(store), store, Round(rs, opr, now, newName, f), course)
    {
      ghost var round := Round(rs, opr, now, newName, f);
      assert forall n :: n in names ==> n in Elements(names);
      var inconsistent, toComplete, toClose, toCreate, waiting := ClassifyAuctions(names, rs, now);

      CompleteFinished(inconsistent, toComplete, round, names, f);
      course := Course(names, apr, []);
      Survive(old(store), round, course);
      var states := DoCloseAuctions(toClose, rs, now, f);
      course := course.(closing := states);
      DoCreateAuctions(toCreate, opr, rs, f);
      DoCreateReservations(waiting, opr, rs, newName, now, f);
      CleanupReservations(toComplete, f);
      assert CountsCompleted(old(store), cfg.owner, round, course);
    }

    static lemma Survive(s: Store, r: Round, course: Course)
      ensures forall n :: n in InClass(s, ToClose, r, course) ==> n in AfterCompletion(s, r, course).reservations
      ensures forall n :: n in InClass(s, ToCreate, r, course) ==> n in AfterCompletion(s, r, course).reservations
    {
    }

    /** Deleting inconsistent reservations spares the ones in other classes. */
    static lemma ListedSurvive(s: Store, names: seq<string>, owner: string, c: Class, rs: RobotStates, now: int,
                               f: Failures)
      requires Elements(names) == OwnedNames(s, owner) && c != Inconsistent
      ensures var gone := Elements(WithClass(s, names, Inconsistent, rs.available, now)) - f.deletions;
        forall n :: n in WithClass(s, names, c, rs.available, now) ==>
            n in OwnedNames(WithoutReservations(s, gone), owner)
    {
      assert forall n :: n in names <==> n in Elements(names);
    }

    static lemma CountsAgree(owner: string, s: Store, apr: map<Robot, int>, r: Round, course: Course)
      requires forall robot :: At(apr, robot) == |UncompletedOf(s, owner, robot)|
      requires Balanced(owner, AfterDeletion(s, r, course), apr, AfterCompletion(s, r, course), course.counts)
      ensures CountsCompleted(s, owner, r, course)
    {
    }
  }
}
