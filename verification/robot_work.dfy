/**
 * What a robot works on, and that it gets on with it: its queue is sorted, the first order of the
 * queue is taken up, and while missions succeed an order is brought to its end.
 */
module RobotWork {
  import opened Common
  import opened StableSorting
  import opened RobotConfig
  import opened RobotMachine
  import opened RobotRuns
  import opened RobotProtocol
  import opened RobotFaults

  /* ---------- The queue is sorted ---------- */

  ghost predicate DistinctIds(orders: seq<Queued>) {
    forall i, j | 0 <= i < j < |orders| :: orders[i].order.id != orders[j].order.id
  }

  /** Every order is in the queue once, and the queue is sorted by sequence. */
  ghost predicate Sequenced(orders: seq<Queued>) {
    DistinctIds(orders) && BySequence(orders)
  }

  /** The first one comes before the second one. */
  ghost predicate Ahead<T>(s: seq<T>, a: T, b: T) {
    exists i, j :: 0 <= i < j < |s| && s[i] == a && s[j] == b
  }

  lemma AheadAppend<T>(s: seq<T>, x: T, a: T, b: T)
    ensures Ahead(s + [x], a, b) <==> Ahead(s, a, b) || (a in s && b == x)
  {
    var t := s + [x];
    if Ahead(s, a, b) {
      var i, j :| 0 <= i < j < |s| && s[i] == a && s[j] == b;
      assert t[i] == a && t[j] == b;
    }
    if a in s && b == x {
      var i :| 0 <= i < |s| && s[i] == a;
      assert t[i] == a && t[|s|] == b;
    }
  }

  /** Among the elements with the same key only those between them count. */
  lemma {:induction false} WithKeyAhead<T>(s: seq<T>, key: T -> real, v: real, a: T, b: T)
    ensures a in WithKey(s, key, v) <==> a in s && key(a) == v
    ensures Ahead(WithKey(s, key, v), a, b) <==> Ahead(s, a, b) && key(a) == v && key(b) == v
  {
    if s != [] {
      var init, last := s[..|s| - 1], s[|s| - 1];
      assert s == init + [last];
      WithKeyAhead(init, key, v, a, b);
      AheadAppend(init, last, a, b);
      AheadAppend(WithKey(init, key, v), last, a, b);
      assert WithKey(init, key, v) + [] == WithKey(init, key, v);
    }
  }

  /** Sorting keeps the order of elements with equal keys. */
  lemma SortAhead<T(!new)>(s: seq<T>, key: T -> real, a: T, b: T)
    requires key(a) == key(b)
    ensures Ahead(StableSort(s, key), a, b) <==> Ahead(s, a, b)
  {
    StableSortProps(s, key);
    WithKeyAhead(s, key, key(a), a, b);
    WithKeyAhead(StableSort(s, key), key, key(a), a, b);
  }

  lemma {:induction false} InsertDistinct(s: seq<Queued>, x: Queued, key: Queued -> real)
    requires DistinctIds(s) && forall q :: q in s ==> q.order.id != x.order.id
    ensures DistinctIds(InsertAfterEqual(s, x, key))
    ensures forall q :: q in InsertAfterEqual(s, x, key) <==> q in s || q == x
  {
    if s != [] && key(s[|s| - 1]) > key(x) {
      var init, last := s[..|s| - 1], s[|s| - 1];
      assert s == init + [last];
      InsertDistinct(init, x, key);
      var r := InsertAfterEqual(init, x, key);
      forall i | 0 <= i < |r| ensures r[i].order.id != last.order.id {
        assert r[i] in r;
        if r[i] in init {
          var k :| 0 <= k < |init| && init[k] == r[i];
          assert s[k] == r[i] && s[|init|] == last;
        }
      }
    }
  }

  lemma {:induction false} SortDistinct(s: seq<Queued>, key: Queued -> real)
    requires DistinctIds(s)
    ensures DistinctIds(StableSort(s, key))
  {
    if s != [] {
      var init, last := s[..|s| - 1], s[|s| - 1];
      SortDistinct(init, key);
      SortKeepsElements(init, key);
      forall q | q in StableSort(init, key) ensures q.order.id != last.order.id {
        var k :| 0 <= k < |init| && init[k] == q;
        assert s[k] == q && s[|init|] == last;
      }
      InsertDistinct(StableSort(init, key), last, key);
    }
  }

  /** What is sorted when an order is enqueued. */
  function Arriving(orders: seq<Queued>, q: Queued): seq<Queued> {
    if Contains(orders, q.order.id) then Replaced(orders, q) else orders + [q]
  }

  lemma ArrivingDistinct(orders: seq<Queued>, q: Queued)
    requires DistinctIds(orders)
    ensures DistinctIds(Arriving(orders, q))
  {
    var after := Arriving(orders, q);
    forall i, j | 0 <= i < j < |after| ensures after[i].order.id != after[j].order.id {
      if i < |orders| && j < |orders| {
        assert orders[i].order.id != orders[j].order.id;
      } else {
        assert orders[i] in orders;
      }
    }
  }

  /** Enqueuing an order keeps the queue sorted by sequence, each order once. */
  lemma EnqueuedSequenced(orders: seq<Queued>, q: Queued)
    requires DistinctIds(orders)
    ensures Sequenced(Enqueued(orders, q))
    ensures forall x :: x in Enqueued(orders, q) <==> x == q || (x in orders && x.order.id != q.order.id)
  {
    var key := (x: Queued) => x.sequence as real;
    var after := Arriving(orders, q);
    assert Enqueued(orders, q) == StableSort(after, key);
    ArrivingDistinct(orders, q);
    SortDistinct(after, key);
    StableSortProps(after, key);
    SortKeepsElements(after, key);
    ArrivingElements(orders, q);
    var sorted := StableSort(after, key);
    forall i, j | 0 <= i < j < |sorted| ensures sorted[i].sequence <= sorted[j].sequence {
      assert key(sorted[i]) <= key(sorted[j]);
    }
  }

  lemma ArrivingElements(orders: seq<Queued>, q: Queued)
    ensures forall x :: x in Arriving(orders, q) <==> x == q || (x in orders && x.order.id != q.order.id)
  {
    var after := Arriving(orders, q);
    forall x | x in orders && x.order.id != q.order.id ensures x in after {
      var i :| 0 <= i < |orders| && orders[i] == x;
      assert after[i] == x;
    }
    if Contains(orders, q.order.id) {
      var y :| y in orders && y.order.id == q.order.id;
      var i :| 0 <= i < |orders| && orders[i] == y;
      assert after[i] == q;
    }
  }

  /** A new order comes after all that are in the queue with the same sequence. */
  lemma NewComesLast(orders: seq<Queued>, q: Queued, x: Queued)
    requires !Contains(orders, q.order.id) && x in orders && x.sequence == q.sequence
    ensures Ahead(Enqueued(orders, q), x, q)
  {
    AheadAppend(orders, q, x, q);
    SortAhead(orders + [q], (y: Queued) => y.sequence as real, x, q);
  }

  /** Orders of the same sequence keep their order when another one arrives or is updated. */
  lemma OthersKeepOrder(orders: seq<Queued>, q: Queued, x: Queued, y: Queued)
    requires DistinctIds(orders) && Ahead(orders, x, y) && x.sequence == y.sequence
    requires x.order.id != q.order.id && y.order.id != q.order.id
    ensures Ahead(Enqueued(orders, q), x, y)
  {
    var i, j :| 0 <= i < j < |orders| && orders[i] == x && orders[j] == y;
    var after := Arriving(orders, q);
    assert after[i] == x && after[j] == y;
    SortAhead(after, (z: Queued) => z.sequence as real, x, y);
  }

  lemma AheadPrepend<T>(x: T, s: seq<T>, a: T, b: T)
    ensures Ahead([x] + s, a, b) <==> Ahead(s, a, b) || (a == x && b in s)
  {
    var t := [x] + s;
    if Ahead(s, a, b) {
      var i, j :| 0 <= i < j < |s| && s[i] == a && s[j] == b;
      assert t[i + 1] == a && t[j + 1] == b;
    }
    if Ahead(t, a, b) {
      var i, j :| 0 <= i < j < |t| && t[i] == a && t[j] == b;
      assert s[j - 1] == b && (i > 0 ==> s[i - 1] == a);
    }
    if a == x && b in s {
      var j :| 0 <= j < |s| && s[j] == b;
      assert t[0] == a && t[j + 1] == b;
    }
  }

  lemma {:induction false} WithoutAhead(orders: seq<Queued>, id: string, x: Queued, y: Queued)
    ensures Ahead(Without(orders, id), x, y) <==> Ahead(orders, x, y) && x.order.id != id && y.order.id != id
  {
    if orders != [] {
      var head, rest := orders[0], orders[1..];
      assert orders == [head] + rest;
      WithoutAhead(rest, id, x, y);
      AheadPrepend(head, rest, x, y);
      AheadPrepend(head, Without(rest, id), x, y);
    }
  }

  /** The queue may have lost orders; the others are in the same order as before. */
  ghost predicate Shortened(before: seq<Queued>, after: seq<Queued>) {
    && (forall q :: q in after ==> q in before)
    && (forall x, y :: Ahead(after, x, y) ==> Ahead(before, x, y))
    && (forall x, y | Ahead(before, x, y) && x in after && y in after :: Ahead(after, x, y))
  }

  lemma WithoutShortens(orders: seq<Queued>, id: string)
    ensures Shortened(orders, Without(orders, id))
  {
    forall x, y
      ensures Ahead(Without(orders, id), x, y) <==> Ahead(orders, x, y) && x.order.id != id && y.order.id != id
    {
      WithoutAhead(orders, id, x, y);
    }
  }

  lemma ShortenedSequenced(before: seq<Queued>, after: seq<Queued>)
    requires Sequenced(before) && Shortened(before, after)
    ensures Sequenced(after)
  {
    forall i, j | 0 <= i < j < |after|
      ensures after[i].order.id != after[j].order.id && after[i].sequence <= after[j].sequence
    {
      assert Ahead(after, after[i], after[j]);
      var k, l :| 0 <= k < l < |before| && before[k] == after[i] && before[l] == after[j];
    }
  }

  lemma ShortenedTransitive(a: seq<Queued>, b: seq<Queued>, c: seq<Queued>)
    requires Shortened(a, b) && Shortened(b, c)
    ensures Shortened(a, c)
  {
  }

  /* ---------- The first order of the queue is taken up ---------- */

  ghost predicate TakesLeast(orders: seq<Queued>, queued: seq<Trigger>) {
    forall t :: t in queued && t.ProcessWarehouseOrder? ==> Least(orders, t.order)
  }

  lemma EnterTakesLeast(m: Machine, t: Trigger, env: Env)
    requires Sequenced(m.orders) && OnEnter(m, t, env).Entered?
    ensures OnEnter(m, t, env).m.orders == m.orders && TakesLeast(m.orders, OnEnter(m, t, env).queued)
  {
    if m.orders != [] {
      FirstIsLeast(m.orders);
    }
  }

  /** What a fired trigger leaves of the queue, and which order is taken up next. */
  ghost predicate KeepsQueue(orders: seq<Queued>, f: Fired) {
    !f.Rejected? ==> Shortened(orders, f.m.orders) && (f.Fired? ==> TakesLeast(f.m.orders, f.queued))
  }

  lemma BeforeShortens(m: Machine, t: Trigger, e: Effect, raise: Option<Raise>)
    requires NeedsTask(e) ==> m.wht.Some?
    ensures Shortened(m.orders, Before(m, t, e).orders)
    ensures Interrupted(m, t, e, raise).Some? ==> Shortened(m.orders, Interrupted(m, t, e, raise).value.orders)
  {
    if Closes(e) {
      BeforeClosingKeeps(m, e);
      ClosingInterrupted(m, t, e, raise);
      if m.who.Some? {
        WithoutShortens(m.orders, m.who.value.id);
      }
    }
  }

  lemma ArrivalKeepsQueue(before: RobotState, n: Machine, t: Trigger, env: Env, raise: Option<Raise>)
    requires Sequenced(n.orders)
    ensures KeepsQueue(n.orders, Arrive(before, n, t, env, raise))
  {
    if OnEnter(n, t, env).Entered? {
      EnterTakesLeast(n, t, env);
    }
  }

  lemma FireKeepsQueue(m: Machine, t: Trigger, env: Env, raise: Option<Raise>)
    requires Sequenced(m.orders)
    ensures KeepsQueue(m.orders, FireWith(m, t, env, raise))
  {
    var rule := FirstRule(Table(t, m.state), m, env);
    if rule.Some? && rule.value.dest.Some? && (NeedsTask(rule.value.effect) ==> m.wht.Some?) {
      MoveKeepsQueue(m, t, env, rule.value, raise);
    }
  }

  lemma MoveKeepsQueue(m: Machine, t: Trigger, env: Env, rule: Rule, raise: Option<Raise>)
    requires Sequenced(m.orders) && rule.dest.Some? && (NeedsTask(rule.effect) ==> m.wht.Some?)
    ensures KeepsQueue(m.orders, Execute(m, t, rule, env, raise))
  {
    BeforeShortens(m, t, rule.effect, raise);
    if Interrupted(m, t, rule.effect, raise).None? {
      var n := Entering(m, t, rule.effect, rule.dest.value);
      ExecuteMoves(m, t, rule, env, raise);
      ShortenedSequenced(m.orders, n.orders);
      ArrivalKeepsQueue(m.state, n, t, env, raise);
      MovedKeepsQueue(m.orders, n.orders, Execute(m, t, rule, env, raise));
    }
  }

  lemma MovedKeepsQueue(before: seq<Queued>, after: seq<Queued>, f: Fired)
    requires Shortened(before, after) && KeepsQueue(after, f)
    ensures KeepsQueue(before, f)
  {
    if !f.Rejected? {
      ShortenedTransitive(before, after, f.m.orders);
    }
  }

  /** Whenever an order is taken up while the triggers are worked off, it is the first one of the queue. */
  ghost predicate TakesInOrder(m: Machine, pending: seq<Trigger>, env: Env, fault: Option<Fault>)
    requires Orderly(m, pending)
    decreases OpenOrders(m), PendingRank(pending, m.state)
  {
    pending != [] ==>
      (DrainShrinks(m, pending, env, Now(fault));
       match FireWith(m, pending[0], env, Now(fault))
       case Fired(n, queued) =>
         TakesLeast(n.orders, queued) && TakesInOrder(n, pending[1..] + queued, env, Later(fault))
       case _ => true)
  }

  lemma {:induction false} DrainKeepsQueue(m: Machine, pending: seq<Trigger>, env: Env, fault: Option<Fault>)
    requires Orderly(m, pending) && Sequenced(m.orders)
    ensures TakesInOrder(m, pending, env, fault) && Shortened(m.orders, Drain(m, pending, env, fault).m.orders)
    decreases OpenOrders(m), PendingRank(pending, m.state)
  {
    if pending != [] {
      DrainShrinks(m, pending, env, Now(fault));
      FireKeepsQueue(m, pending[0], env, Now(fault));
      var f := FireWith(m, pending[0], env, Now(fault));
      if f.Fired? {
        ShortenedSequenced(m.orders, f.m.orders);
        DrainKeepsQueue(f.m, pending[1..] + f.queued, env, Later(fault));
        ShortenedTransitive(m.orders, f.m.orders, Drain(m, pending, env, fault).m.orders);
      }
    }
  }

  /** Before its triggers are worked off, a callback at most enqueues an order or deletes one. */
  lemma PrepareKeepsQueue(m: Machine, e: Event, env: Env)
    requires Sequenced(m.orders)
    ensures var (n, pending) := Prepare(m, e, env);
      && Sequenced(n.orders) && (!e.OrderUpdated? ==> Shortened(m.orders, n.orders) && TakesLeast(n.orders, pending))
      && (e.OrderUpdated? ==> n.orders == Enqueued(m.orders, Queued(e.order, e.sequence)))
  {
    match e
    case OrderUpdated(order, sequence) =>
      PreparedQueue(m, e, env);
      EnqueuedSequenced(m.orders, Queued(order, sequence));
    case OrderDeleted(id) =>
      PreparedQueue(m, e, env);
      WithoutShortens(m.orders, id);
      ShortenedSequenced(m.orders, Without(m.orders, id));
    case _ =>
      PreparedQueue(m, e, env);
      if m.orders != [] {
        FirstIsLeast(m.orders);
      }
  }

  /** The queue a callback starts with, and what it may take up of it. */
  lemma PreparedQueue(m: Machine, e: Event, env: Env)
    ensures var (n, pending) := Prepare(m, e, env);
      && n.orders == (match e
                      case OrderUpdated(order, sequence) => Enqueued(m.orders, Queued(order, sequence))
                      case OrderDeleted(id) => Without(m.orders, id)
                      case _ => m.orders)
      && (!e.OrderUpdated? ==>
            forall t <- pending :: t.ProcessWarehouseOrder? ==> n.orders != [] && t.order == n.orders[0].order)
  {
  }

  lemma StepKeepsQueue(m: Machine, input: Input)
    requires Orderly(m, []) && Sequenced(m.orders)
    ensures var (n, pending) := Prepare(m, input.event, input.env);
      Sequenced(Step(m, input).m.orders) && Shortened(n.orders, Step(m, input).m.orders)
  {
    PrepareKeeps(m, input.event, input.env);
    PrepareKeepsQueue(m, input.event, input.env);
    var (n, pending) := Prepare(m, input.event, input.env);
    DrainKeepsQueue(n, pending, input.env, if input.event.OrderUpdated? then Later(input.fault) else input.fault);
    ShortenedSequenced(n.orders, Step(m, input).m.orders);
  }

  /** In every run, whichever calls raise, the queue is sorted by sequence and has every order once. */
  lemma {:induction false} QueueIsSorted(inputs: seq<Input>)
    ensures Sequenced(Reached(inputs).orders)
  {
    if inputs != [] {
      QueueIsSorted(inputs[..|inputs| - 1]);
      StepKeepsQueue(Reached(inputs[..|inputs| - 1]), inputs[|inputs| - 1]);
    }
  }

  /**
   * In every run, whichever calls raise: an order that is taken up because the robot looks for
   * work, or ends charging, is the first one of the queue, with the least sequence.
   */
  lemma FirstOrderIsTaken(inputs: seq<Input>, input: Input)
    ensures var m := Reached(inputs);
      var (n, pending) := Prepare(m, input.event, input.env);
      && Orderly(n, pending) && (!input.event.OrderUpdated? ==> TakesLeast(n.orders, pending))
      && TakesInOrder(n, pending, input.env, if input.event.OrderUpdated? then Later(input.fault) else input.fault)
  {
    var m := Reached(inputs);
    QueueIsSorted(inputs);
    PrepareKeeps(m, input.event, input.env);
    PrepareKeepsQueue(m, input.event, input.env);
    var (n, pending) := Prepare(m, input.event, input.env);
    DrainKeepsQueue(n, pending, input.env, if input.event.OrderUpdated? then Later(input.fault) else input.fault);
  }

  /** Whenever the robot becomes idle, whichever trigger led there, it looks for work. */
  lemma IdleSeeksWork(m: Machine, t: Trigger, env: Env, raise: Option<Raise>)
    requires FireWith(m, t, env, raise).Fired? && t !in {CreateMission, CancelActiveMission}
    requires IdleState(FireWith(m, t, env, raise).m.state)
    ensures Seeks(FireWith(m, t, env, raise).m, env, FireWith(m, t, env, raise).queued)
  {
    LeadsByRule(m, t, env, raise);
    var rule := FirstRule(Table(t, m.state), m, env).value;
    ArrivalSeeks(m.state, Entering(m, t, rule.effect, rule.dest.value), t, env, raise);
  }

  /** A trigger that leads to an idle state executes a rule with a destination. */
  lemma LeadsByRule(m: Machine, t: Trigger, env: Env, raise: Option<Raise>)
    requires FireWith(m, t, env, raise).Fired? && t !in {CreateMission, CancelActiveMission}
    requires IdleState(FireWith(m, t, env, raise).m.state)
    ensures var r := FirstRule(Table(t, m.state), m, env);
      && r.Some? && r.value.dest.Some? && (NeedsTask(r.value.effect) ==> m.wht.Some?)
      && IdleState(r.value.dest.value)
      && FireWith(m, t, env, raise)
         == Arrive(m.state, Entering(m, t, r.value.effect, r.value.dest.value), t, env, raise)
  {
    FindsRule(m, t, env, raise);
    var rule := FirstRule(Table(t, m.state), m, env).value;
    ExecuteMoves(m, t, rule, env, raise);
    ArrivesThere(m.state, Entering(m, t, rule.effect, rule.dest.value), t, env, raise);
  }

  lemma FindsRule(m: Machine, t: Trigger, env: Env, raise: Option<Raise>)
    requires FireWith(m, t, env, raise).Fired? && t !in {CreateMission, CancelActiveMission}
    requires IdleState(FireWith(m, t, env, raise).m.state)
    ensures var r := FirstRule(Table(t, m.state), m, env);
      && r.Some? && r.value.dest.Some? && (NeedsTask(r.value.effect) ==> m.wht.Some?)
      && Interrupted(m, t, r.value.effect, raise).None?
  {
    TablesFire(t, m, env);
  }

  /** Only creating and cancelling missions, and a mission in RobotError, keep the state without entering it. */
  lemma TablesFire(t: Trigger, m: Machine, env: Env)
    requires t !in {CreateMission, CancelActiveMission} && Table(t, m.state) != []
    ensures var r := FirstRule(Table(t, m.state), m, env);
      (r.None? || r.value.dest.None?) ==> m.state == RobotError
  {
  }

  lemma ArrivesThere(before: RobotState, n: Machine, t: Trigger, env: Env, raise: Option<Raise>)
    ensures Arrive(before, n, t, env, raise).Fired? ==> Arrive(before, n, t, env, raise).m.state == n.state
  {
  }

  lemma ArrivalSeeks(before: RobotState, n: Machine, t: Trigger, env: Env, raise: Option<Raise>)
    requires IdleState(n.state)
    ensures var f := Arrive(before, n, t, env, raise);
      f.m.state == n.state && (f.Fired? ==> Seeks(f.m, env, f.queued))
  {
    var e := OnEnter(n, t, env);
    SeeksNext(e.m, env);
    assert WhatsNext(After(before, e.m, t), env) == WhatsNext(e.m, env);
    SeeksNext(After(before, e.m, t), env);
  }

  /** Two orders of the same sequence stay in the order in which they came to the queue. */
  lemma ArrivalOrderStays(inputs: seq<Input>, input: Input, x: Queued, y: Queued)
    requires x.sequence == y.sequence && x in Step(Reached(inputs), input).m.orders
    requires y in Step(Reached(inputs), input).m.orders
    requires input.event.OrderUpdated? ==> input.event.order.id != x.order.id
    requires Ahead(Reached(inputs).orders, x, y)
             || (input.event == OrderUpdated(y.order, y.sequence) && !Contains(Reached(inputs).orders, y.order.id))
    requires input.event.OrderUpdated? && input.event.order.id == y.order.id ==>
               !Contains(Reached(inputs).orders, y.order.id)
    ensures Ahead(Step(Reached(inputs), input).m.orders, x, y)
  {
    var m := Reached(inputs);
    QueueIsSorted(inputs);
    PrepareKeepsQueue(m, input.event, input.env);
    StepKeepsQueue(m, input);
    var (n, pending) := Prepare(m, input.event, input.env);
    if input.event.OrderUpdated? {
      var q := Queued(input.event.order, input.event.sequence);
      EnqueuedSequenced(m.orders, q);
      if q.order.id == y.order.id {
        NewComesLast(m.orders, q, x);
      } else {
        OthersKeepOrder(m.orders, q, x, y);
      }
    }
  }

  /* ---------- Orders are brought to their end ---------- */

  /** A mission succeeded, and no call raises. */
  function On(env: Env): Input {
    Input(MissionChanged(Succeeded), env, None)
  }

  ghost predicate AllTransports(tasks: seq<Task>) {
    forall t :: t in tasks ==> t.handlingUnit
  }

  /** The robot drives to the source bin of task k, or to its target bin. */
  ghost predicate Drives(m: Machine, s: RobotState, o: Order, k: nat) {
    m.state == s && m.mission != "" && OnTask(m, o, k) && AllTransports(m.who.value.tasks)
  }

  /** A trigger alone in the queue that has a mission created. */
  lemma FiresMission(m: Machine, t: Trigger, env: Env)
    requires Orderly(m, [t]) && Fire(m, t, env).Fired? && Fire(m, t, env).queued == [CreateMission]
    ensures Drain(m, [t], env, None) == Result(Fire(m, t, env).m.(mission := env.mission), NoError)
  {
    DrainsOn(m, t, env, None, Fire(m, t, env));
    CreateDrains(Fire(m, t, env).m, env);
  }

  /** The first two triggers of a callback after which an active mission is replaced by another one. */
  lemma CancelsFirst(m: Machine, t: Trigger, env: Env)
    requires Orderly(m, [CancelActiveMission, t])
    ensures Orderly(m.(mission := ""), [t])
    ensures Drain(m, [CancelActiveMission, t], env, None) == Drain(m.(mission := ""), [t], env, None)
  {
    DrainShrinks(m, [CancelActiveMission, t], env, None);
    assert Fire(m, CancelActiveMission, env) == Fired(m.(mission := ""), []);
    assert [CancelActiveMission, t][1..] + [] == [t];
  }

  /** The robot reached the source bin and loads: the first confirmation is sent, and it drives on. */
  lemma Loads(m: Machine, env: Env)
    requires Orderly(m, []) && m.state == MovingToSourceBin && m.mission != "" && m.wht.Some?
    ensures var n := Step(m, On(env)).m;
      && n.state == MovingToTargetBin && n.mission == env.mission && n.wht == m.wht
      && n.who == SourceDeleted(m).who && n.log == m.log + [Confirmed(m.wht.value.tanum, First, true)]
  {
    var a := m.(mission := "");
    assert Prepare(m, MissionChanged(Succeeded), env) == (a, [MissionSucceeded]);
    var b := Fire(a, MissionSucceeded, env);
    assert b.Fired? && b.queued == [MissionSucceeded] && b.m.state == LoadingTrolley;
    DrainsOn(a, MissionSucceeded, env, None, b);
    FiresMission(b.m, MissionSucceeded, env);
  }

  lemma SourceDeletedKeeps(m: Machine, n: Machine, o: Order, k: nat)
    requires OnTask(m, o, k) && AllTransports(m.who.value.tasks)
    requires n.wht == m.wht && n.who == SourceDeleted(m).who
    ensures OnTask(n, o, k) && AllTransports(n.who.value.tasks)
  {
    forall t | t in n.who.value.tasks ensures t.handlingUnit {
      var i :| 0 <= i < |n.who.value.tasks| && n.who.value.tasks[i] == t;
      assert m.who.value.tasks[i] in m.who.value.tasks;
    }
  }

  /** The robot reached the target bin and unloads. */
  lemma Arrives(m: Machine, env: Env) returns (b: Machine)
    requires Orderly(m, []) && m.state == MovingToTargetBin && m.mission != "" && m.wht.Some?
    ensures b == m.(mission := "", state := UnloadingTrolley, errors := b.errors)
    ensures Orderly(b, [MissionSucceeded]) && Step(m, On(env)) == Drain(b, [MissionSucceeded], env, None)
  {
    var a := m.(mission := "");
    assert Prepare(m, MissionChanged(Succeeded), env) == (a, [MissionSucceeded]);
    b := Fire(a, MissionSucceeded, env).m;
    assert Fire(a, MissionSucceeded, env) == Fired(b, [MissionSucceeded]);
    DrainsOn(a, MissionSucceeded, env, None, Fired(b, [MissionSucceeded]));
  }

  lemma FinishesTask(b: Machine, env: Env)
    requires b.state == UnloadingTrolley && b.who.Some? && b.wht.Some? && MoreWarehouseTasks(b)
    requires CloseWht(b).who.value.tasks != [] && CloseWht(b).who.value.tasks[0].handlingUnit
    ensures var f := Fire(b, MissionSucceeded, env);
      && f.Fired? && f.queued == [CreateMission] && f.m.state == MovingToSourceBin && f.m.who == CloseWht(b).who
      && f.m.wht == Some(CloseWht(b).who.value.tasks[0])
      && f.m.log == b.log + [Confirmed(b.wht.value.tanum, Second, true)]
  {
    var rule := Rule(MoreTasks, Some(MovingToSourceBin), FinishTask);
    assert FirstRule(Table(MissionSucceeded, b.state), b, env) == Some(rule);
    ExecuteMoves(b, MissionSucceeded, rule, env, None);
  }

  lemma FinishesOrder(b: Machine, env: Env)
    requires b.state == UnloadingTrolley && b.who.Some? && b.wht.Some? && !MoreWarehouseTasks(b)
    ensures var f := Fire(b, MissionSucceeded, env);
      && f.Fired? && f.m.state == Idle
      && f.m.log == b.log + [Confirmed(b.wht.value.tanum, Second, true)] + [Ended(b.who.value.id, true)]
  {
    var n := Before(b, MissionSucceeded, FinishOrder);
    assert n.log == b.log + [Confirmed(b.wht.value.tanum, Second, true)] + [Ended(b.who.value.id, true)];
  }

  /** The robot reached the target bin of a task that is not the last one: it goes for the next one. */
  lemma Unloads(m: Machine, env: Env, o: Order, k: nat)
    requires Orderly(m, []) && Drives(m, MovingToTargetBin, o, k) && env.mission != "" && k + 1 < |o.tasks|
    ensures var n := Step(m, On(env)).m;
      Drives(n, MovingToSourceBin, o, k + 1) && n.log == m.log + [Confirmed(o.tasks[k].tanum, Second, true)]
  {
    var b := Arrives(m, env);
    ClosingTask(b, o, k);
    var tasks := CloseWht(b).who.value.tasks;
    assert forall t :: t in tasks ==> t in m.who.value.tasks;
    assert tasks[0] in tasks;
    FinishesTask(b, env);
    FiresMission(b, MissionSucceeded, env);
  }

  /** The robot reached the target bin of the last task: the order succeeds. */
  lemma UnloadsLast(m: Machine, env: Env, o: Order, k: nat)
    requires Orderly(m, []) && Drives(m, MovingToTargetBin, o, k) && k + 1 == |o.tasks|
    ensures m.log + [Confirmed(o.tasks[k].tanum, Second, true)] + [Ended(o.id, true)] <= Step(m, On(env)).m.log
  {
    var b := Arrives(m, env);
    ClosingTask(b, o, k);
    FinishesOrder(b, env);
    var f := Fire(b, MissionSucceeded, env);
    DrainsOn(b, MissionSucceeded, env, None, f);
    DrainGrowsLog(f.m, f.queued, env, None);
  }

  /** All these callbacks report a mission that succeeded. */
  predicate Succeeding(inputs: seq<Input>) {
    forall input <- inputs :: input == On(input.env) && input.env.mission != ""
  }

  /** One task is brought to its target bin. */
  lemma BringsOne(m: Machine, first: Input, o: Order, k: nat)
    requires Orderly(m, []) && Drives(m, MovingToSourceBin, o, k)
    requires first == On(first.env) && first.env.mission != ""
    ensures var n := Step(m, first).m;
      Drives(n, MovingToTargetBin, o, k) && n.log == m.log + [Confirmed(o.tasks[k].tanum, First, true)]
  {
    Loads(m, first.env);
    SourceDeletedKeeps(m, Step(m, first).m, o, k);
  }

  /** No second errors. */
  function Flawless(o: Order): seq<nat> {
    seq(|o.tasks|, i => 0)
  }

  /** After two successful missions for each of the first j tasks, all of them were brought. */
  lemma {:induction false} BringsTasks(m: Machine, inputs: seq<Input>, o: Order, j: nat)
    requires Orderly(m, []) && Drives(m, MovingToSourceBin, o, 0) && Succeeding(inputs)
    requires |inputs| == 2 * j && j < |o.tasks|
    ensures var n := Follow(m, inputs).0;
      Drives(n, MovingToSourceBin, o, j) && n.log == m.log + Brought(o.tasks, Flawless(o), j)
  {
    if j > 0 {
      var init := inputs[..|inputs| - 2];
      assert Succeeding(init);
      BringsTasks(m, init, o, j - 1);
      FollowTwo(m, inputs);
      BringsAnother(Follow(m, init).0, inputs[|inputs| - 2], inputs[|inputs| - 1], Follow(m, inputs).0, o, j - 1);
      BroughtNext(m.log, Follow(m, init).0.log, o, j);
    }
  }

  /** Two missions bring a task to its target bin, and the next one is on its way. */
  lemma BringsAnother(m: Machine, first: Input, last: Input, n: Machine, o: Order, k: nat)
    requires Orderly(m, []) && Drives(m, MovingToSourceBin, o, k) && n == Step(Step(m, first).m, last).m
    requires first == On(first.env) && first.env.mission != "" && last == On(last.env) && last.env.mission != ""
    requires k + 1 < |o.tasks|
    ensures Drives(n, MovingToSourceBin, o, k + 1)
    ensures n.log == m.log + [Confirmed(o.tasks[k].tanum, First, true)] + [Confirmed(o.tasks[k].tanum, Second, true)]
  {
    BringsOne(m, first, o, k);
    Unloads(Step(m, first).m, last.env, o, k);
  }

  /** Two missions bring the last task to its target bin, and the order ends. */
  lemma BringsLast(m: Machine, first: Input, last: Input, n: Machine, o: Order, k: nat)
    requires Orderly(m, []) && Drives(m, MovingToSourceBin, o, k) && n == Step(Step(m, first).m, last).m
    requires first == On(first.env) && first.env.mission != "" && last == On(last.env)
    requires k + 1 == |o.tasks|
    ensures m.log + [Confirmed(o.tasks[k].tanum, First, true)] + [Confirmed(o.tasks[k].tanum, Second, true)]
            + [Ended(o.id, true)] <= n.log
  {
    BringsOne(m, first, o, k);
    UnloadsLast(Step(m, first).m, last.env, o, k);
  }

  /** The last two callbacks. */
  lemma FollowTwo(m: Machine, inputs: seq<Input>)
    requires Orderly(m, []) && |inputs| >= 2
    ensures var n := Follow(m, inputs[..|inputs| - 2]).0;
      Follow(m, inputs).0 == Step(Step(n, inputs[|inputs| - 2]).m, inputs[|inputs| - 1]).m
  {
    var mid := inputs[..|inputs| - 1];
    assert mid[..|mid| - 1] == inputs[..|inputs| - 2];
  }

  lemma BroughtNext(before: seq<LogEntry>, log: seq<LogEntry>, o: Order, j: nat)
    requires 0 < j <= |o.tasks| && log == before + Brought(o.tasks, Flawless(o), j - 1)
    ensures log + [Confirmed(o.tasks[j - 1].tanum, First, true)] + [Confirmed(o.tasks[j - 1].tanum, Second, true)]
            == before + Brought(o.tasks, Flawless(o), j)
  {
    assert Fetched(o.tasks[j - 1], 0) == [Confirmed(o.tasks[j - 1].tanum, First, true)];
  }

  /**
   * A robot on its way to the first task of an order whose missions all succeed brings all tasks
   * to their target bins, one after the other, and ends the order successfully.
   */
  lemma OrderCompletes(m: Machine, inputs: seq<Input>, o: Order)
    requires Orderly(m, []) && Drives(m, MovingToSourceBin, o, 0) && Succeeding(inputs)
    requires |inputs| == 2 * |o.tasks|
    ensures m.log + Brought(o.tasks, Flawless(o), |o.tasks|) + [Ended(o.id, true)] <= Follow(m, inputs).0.log
  {
    var init, k := inputs[..|inputs| - 2], |o.tasks| - 1;
    assert Succeeding(init) && |init| == 2 * k;
    BringsTasks(m, init, o, k);
    EndsLast(m, inputs, Follow(m, init).0, o, k);
  }

  lemma EndsLast(m: Machine, inputs: seq<Input>, n: Machine, o: Order, k: nat)
    requires Orderly(m, []) && |inputs| >= 2 && n == Follow(m, inputs[..|inputs| - 2]).0 && Succeeding(inputs)
    requires k + 1 == |o.tasks| && Drives(n, MovingToSourceBin, o, k)
    requires n.log == m.log + Brought(o.tasks, Flawless(o), k)
    ensures m.log + Brought(o.tasks, Flawless(o), |o.tasks|) + [Ended(o.id, true)] <= Follow(m, inputs).0.log
  {
    FollowTwo(m, inputs);
    BroughtLast(m.log, n, inputs[|inputs| - 2], inputs[|inputs| - 1], Follow(m, inputs).0, o, k);
  }

  lemma BroughtLast(log: seq<LogEntry>, m: Machine, first: Input, last: Input, n: Machine, o: Order, k: nat)
    requires Orderly(m, []) && Drives(m, MovingToSourceBin, o, k) && n == Step(Step(m, first).m, last).m
    requires first == On(first.env) && first.env.mission != "" && last == On(last.env)
    requires k + 1 == |o.tasks| && m.log == log + Brought(o.tasks, Flawless(o), k)
    ensures log + Brought(o.tasks, Flawless(o), k + 1) + [Ended(o.id, true)] <= n.log
  {
    BringsLast(m, first, last, n, o, k);
    BroughtNext(log, m.log, o, k + 1);
  }

  /* ---------- How callbacks are answered ---------- */

  /** The robot took up the order: it drives to the source bin of its first task. */
  ghost predicate TookUp(m: Machine, n: Machine, order: Order, env: Env)
    requires order.tasks != []
  {
    && n.state == MovingToSourceBin && n.mission == env.mission && n.who == Some(order)
    && n.wht == Some(order.tasks[0]) && n.log == m.log + [Started(order)]
  }

  lemma TakingUp(m: Machine, order: Order, env: Env)
    requires Orderly(m, [ProcessWarehouseOrder(order)]) && m.state in {Idle, AtStaging, MovingToStaging, Charging}
    requires order.tasks != [] && order.tasks[0].handlingUnit
    ensures TookUp(m, Drain(m, [ProcessWarehouseOrder(order)], env, None).m, order, env)
  {
    var f := Fire(m, ProcessWarehouseOrder(order), env);
    assert f.Fired? && f.queued == [CreateMission] && TookUp(m, f.m.(mission := env.mission), order, env);
    FiresMission(m, ProcessWarehouseOrder(order), env);
  }

  /**
   * In mode Run, a robot without an active order that is idle, on its way to the staging area, or
   * charging with its battery above the minimum takes up an order as soon as it gets it.
   */
  lemma NewOrderIsTakenUp(m: Machine, order: Order, sequence: int, env: Env)
    requires Orderly(m, []) && m.who.None? && env.mode == Run
    requires IdleState(m.state) || m.state == MovingToStaging || (m.state == Charging && env.battery >= env.batteryMin)
    requires order.tasks != [] && order.tasks[0].handlingUnit
    ensures TookUp(m, Step(m, Input(OrderUpdated(order, sequence), env, None)).m, order, env)
  {
    var n := Updated(m, order, sequence);
    PrepareKeeps(m, OrderUpdated(order, sequence), env);
    var pending := AfterUpdate(n, order, env).1;
    if IdleState(m.state) {
      TakingUp(n, order, env);
    } else {
      CancelsFirst(n, ProcessWarehouseOrder(order), env);
      TakingUp(n.(mission := ""), order, env);
    }
    UpdateDrains(m, order, sequence, env, pending);
  }

  lemma UpdateDrains(m: Machine, order: Order, sequence: int, env: Env, pending: seq<Trigger>)
    requires Orderly(m, []) && Orderly(Updated(m, order, sequence), pending)
    requires AfterUpdate(Updated(m, order, sequence), order, env) == (Updated(m, order, sequence), pending)
    ensures Step(m, Input(OrderUpdated(order, sequence), env, None)) ==
            Drain(Updated(m, order, sequence), pending, env, None)
  {
  }

  /** An order that came to such a robot is completed when all its missions succeed. */
  lemma NewOrderCompletes(m: Machine, order: Order, sequence: int, env: Env, inputs: seq<Input>)
    requires Orderly(m, []) && m.who.None? && env.mode == Run && env.mission != ""
    requires IdleState(m.state) || m.state == MovingToStaging || (m.state == Charging && env.battery >= env.batteryMin)
    requires order.tasks != [] && AllTransports(order.tasks) && DifferentTasks(order.tasks)
    requires Succeeding(inputs) && |inputs| == 2 * |order.tasks|
    ensures var n := Step(m, Input(OrderUpdated(order, sequence), env, None)).m;
      m.log + [Started(order)] + Brought(order.tasks, Flawless(order), |order.tasks|) + [Ended(order.id, true)]
      <= Follow(n, inputs).0.log
  {
    assert order.tasks[0] in order.tasks;
    NewOrderIsTakenUp(m, order, sequence, env);
    OrderCompletes(Step(m, Input(OrderUpdated(order, sequence), env, None)).m, inputs, order);
  }

  /** A charging robot whose battery is above the minimum takes up the first order of its queue. */
  lemma ChargedTakesUp(m: Machine, battery: real, env: Env)
    requires Orderly(m, []) && m.state == Charging && m.orders != [] && battery > env.batteryMin
    requires m.orders[0].order.tasks != [] && m.orders[0].order.tasks[0].handlingUnit
    ensures TookUp(m, Step(m, Input(RobotReported(battery), env, None)).m, m.orders[0].order, env)
  {
    var order := m.orders[0].order;
    PrepareKeeps(m, RobotReported(battery), env);
    CancelsFirst(m, ProcessWarehouseOrder(order), env);
    TakingUp(m.(mission := ""), order, env);
  }

  /** A robot without work that reports a low battery goes to charge. */
  lemma LowBatteryCharges(m: Machine, battery: real, env: Env)
    requires Orderly(m, [])
    requires || (m.state == AtStaging && battery < env.batteryIdle)
             || (m.state in {MovingToStaging, RobotError} && battery < env.batteryMin)
    ensures var n := Step(m, Input(RobotReported(battery), env, None)).m;
      n.state == Charging && n.mission == env.mission && n.orders == m.orders && n.log == m.log
  {
    PrepareKeeps(m, RobotReported(battery), env);
    if m.state == AtStaging {
      Charges(m, env);
    } else {
      CancelsFirst(m, ChargeBattery, env);
      Charges(m.(mission := ""), env);
    }
  }

  lemma Charges(m: Machine, env: Env)
    requires Orderly(m, [ChargeBattery]) && m.state in {Idle, AtStaging, MovingToStaging, RobotError}
    ensures var n := Drain(m, [ChargeBattery], env, None).m;
      n.state == Charging && n.mission == env.mission && n.orders == m.orders && n.log == m.log
  {
    var f := Fire(m, ChargeBattery, env);
    assert f.Fired? && f.queued == [CreateMission] && f.m.state == Charging && f.m.orders == m.orders;
    FiresMission(m, ChargeBattery, env);
  }

  /** A robot that waits for recovery with an order on it tries to bring the order to its target bin again. */
  lemma RecoveredGoesOn(m: Machine, env: Env)
    requires Orderly(m, []) && m.state == WaitingForErrorRecovery && m.wht.Some?
    ensures var n := Step(m, Input(RecoverRequested, env, None)).m;
      && n.state == MovingToTargetBin && n.mission == env.mission && n.who == m.who && n.wht == m.wht && n.log == m.log
  {
    var f := Fire(m, RecoverRobot, env);
    assert f.Fired? && f.queued == [CreateMission] && f.m.state == MovingToTargetBin;
    FiresMission(m, RecoverRobot, env);
  }

  /**
   * A mission to the target bin, or of unloading, that fails is retried as long as attempts are
   * left; then its task is reported with an error and the robot waits for others to help.
   */
  lemma FailedReturn(m: Machine, env: Env)
    requires Orderly(m, []) && m.state in {MovingToTargetBin, UnloadingTrolley} && m.mission != "" && m.wht.Some?
    ensures var n := Step(m, Input(MissionChanged(Unsuccessful), env, None)).m;
      && n.who == m.who && n.wht == m.wht
      && if ErrorsOf(m, m.state) < env.maxRetry
         then n.state == MovingToTargetBin && n.mission == env.mission && n.log == m.log
         else n.state == WaitingForErrorRecovery && n.mission == ""
              && n.log == m.log + [Confirmed(m.wht.value.tanum, Second, false)]
  {
    var a := m.(mission := "");
    assert Prepare(m, MissionChanged(Unsuccessful), env) == (a, [MissionFailed]);
    FailsReturning(a, env);
    if ErrorsOf(m, m.state) < env.maxRetry {
      FiresMission(a, MissionFailed, env);
    } else {
      DrainsOn(a, MissionFailed, env, None, Fire(a, MissionFailed, env));
    }
  }

  lemma FailsReturning(m: Machine, env: Env)
    requires m.state in {MovingToTargetBin, UnloadingTrolley} && m.wht.Some?
    ensures var f := Fire(m, MissionFailed, env);
      && f.Fired? && f.m.who == m.who && f.m.wht == m.wht && f.m.mission == m.mission
      && if ErrorsOf(m, m.state) < env.maxRetry
         then f.queued == [CreateMission] && f.m.state == MovingToTargetBin && f.m.log == m.log
         else f.queued == [] && f.m.state == WaitingForErrorRecovery
              && f.m.log == m.log + [Confirmed(m.wht.value.tanum, Second, false)]
  {
  }

  /**
   * A mission to the source bin, or of loading, that fails is retried as long as attempts are left;
   * then its task is refused and the order ends without success.
   */
  lemma FailedPickup(m: Machine, env: Env)
    requires Orderly(m, []) && m.state in {MovingToSourceBin, LoadingTrolley} && m.mission != "" && m.wht.Some?
    requires m.who.value.tasks != [] && m.who.value.tasks[0].handlingUnit
    ensures var n := Step(m, Input(MissionChanged(Unsuccessful), env, None)).m;
      if ErrorsOf(m, m.state) < env.maxRetry
      then n.state == MovingToSourceBin && n.mission == env.mission && n.who == m.who && n.log == m.log
      else m.log + [Confirmed(m.wht.value.tanum, First, false)] + [Ended(m.who.value.id, false)] <= n.log
  {
    var a := m.(mission := "");
    assert Prepare(m, MissionChanged(Unsuccessful), env) == (a, [MissionFailed]);
    if ErrorsOf(m, m.state) < env.maxRetry {
      RetriesPickup(a, env);
      FiresMission(a, MissionFailed, env);
    } else {
      GivesUpPickup(a, env);
      var f := Fire(a, MissionFailed, env);
      DrainsOn(a, MissionFailed, env, None, f);
      DrainGrowsLog(f.m, f.queued, env, None);
    }
  }

  lemma RetriesPickup(m: Machine, env: Env)
    requires m.state in {MovingToSourceBin, LoadingTrolley} && ErrorsOf(m, m.state) < env.maxRetry
    requires m.who.Some? && m.who.value.tasks != [] && m.who.value.tasks[0].handlingUnit
    ensures var f := Fire(m, MissionFailed, env);
      && f.Fired? && f.queued == [CreateMission] && f.m.state == MovingToSourceBin
      && f.m.who == m.who && f.m.log == m.log
  {
  }

  lemma GivesUpPickup(m: Machine, env: Env)
    requires m.state in {MovingToSourceBin, LoadingTrolley} && ErrorsOf(m, m.state) >= env.maxRetry
    requires m.who.Some? && m.wht.Some?
    ensures var f := Fire(m, MissionFailed, env);
      && f.Fired? && f.m.state == Idle
      && f.m.log == m.log + [Confirmed(m.wht.value.tanum, First, false)] + [Ended(m.who.value.id, false)]
  {
    var rule := Rule(MaxErrors, Some(Idle), FailPickup);
    assert FirstRule(Table(MissionFailed, m.state), m, env) == Some(rule);
    RefusedLog(m);
    ExecuteMoves(m, MissionFailed, rule, env, None);
  }

  lemma RefusedLog(m: Machine)
    requires m.who.Some? && m.wht.Some?
    ensures Before(m, MissionFailed, FailPickup).log ==
            m.log + [Confirmed(m.wht.value.tanum, First, false)] + [Ended(m.who.value.id, false)]
  {
  }

  /** An order on a robot that waits for recovery ends without success once others completed it. */
  lemma HelpedOrderEnds(m: Machine, id: string, e: Event, env: Env)
    requires Orderly(m, []) && m.state == WaitingForErrorRecovery && m.who.value.id == id
    requires e in {OrderCompleted(id), OrderDeleted(id)}
    ensures m.log + [Ended(id, false)] <= Step(m, Input(e, env, None)).m.log
  {
    PrepareKeeps(m, e, env);
    var n := Prepare(m, e, env).0;
    assert Prepare(m, e, env) == (n, [WarehouseOrderConfirmed]) && n.log == m.log;
    EndsHelped(n, env);
    var f := Fire(n, WarehouseOrderConfirmed, env);
    DrainsOn(n, WarehouseOrderConfirmed, env, None, f);
    DrainGrowsLog(f.m, f.queued, env, None);
  }

  lemma EndsHelped(m: Machine, env: Env)
    requires m.state == WaitingForErrorRecovery && m.who.Some?
    ensures var f := Fire(m, WarehouseOrderConfirmed, env);
      f.Fired? && f.m.state == Idle && f.m.log == m.log + [Ended(m.who.value.id, false)]
  {
    var n := Before(m, WarehouseOrderConfirmed, GiveUpOrder);
    assert n.log == m.log + [Ended(m.who.value.id, false)];
  }

  /** An idle robot goes to the staging area after some time without work. */
  lemma IdleGoesStaging(m: Machine, env: Env)
    requires Orderly(m, []) && m.state == Idle
    ensures var n := Step(m, Input(TimedOut, env, None)).m;
      n.state == MovingToStaging && n.mission == env.mission && n.orders == m.orders && n.log == m.log
  {
    assert Fire(m, GoStaging, env).Fired? && Fire(m, GoStaging, env).queued == [CreateMission];
    FiresMission(m, GoStaging, env);
  }

  /** The reports that bring a robot without work to a state in which it looks for some. */
  predicate Frees(m: Machine, e: Event, env: Env) {
    || (e == MissionChanged(Succeeded) && m.mission != "" && m.state in {MovingToStaging, Charging})
    || (e == RecoverRequested && m.state == RobotError)
    || (e == TimedOut && m.state == AtStaging)
    || (e == ConfigurationChanged && env.mode == Run && m.state == AtStaging)
    || (e == ConfigurationChanged && env.mode == Run && m.state == Charging && env.battery >= env.batteryOk)
  }

  /** Such a report leads to the staging area or to being idle, where the robot looks for work. */
  lemma FreedSeeksWork(m: Machine, e: Event, env: Env)
    requires Orderly(m, []) && Frees(m, e, env)
    ensures exists n: Machine, next: seq<Trigger> ::
      && n.state == (if m.state in {MovingToStaging, AtStaging} then AtStaging else Idle)
      && n.orders == m.orders && n.log == m.log && Seeks(n, env, next) && Orderly(n, next)
      && Step(m, Input(e, env, None)) == Drain(n, next, env, None)
  {
    PrepareKeeps(m, e, env);
    var (a, pending) := Prepare(m, e, env);
    if |pending| == 2 {
      CancelsFirst(a, pending[1], env);
      FreedBy(a.(mission := ""), pending[1], env);
    } else {
      FreedBy(a, pending[0], env);
    }
  }

  lemma FreedBy(m: Machine, t: Trigger, env: Env)
    requires Orderly(m, [t])
    requires || (t == MissionSucceeded && m.state in {MovingToStaging, Charging})
             || (t == RecoverRobot && m.state == RobotError)
             || (t == StagingTimeout && m.state == AtStaging)
             || (t == ChargingCanceled && m.state == Charging)
    ensures var f := Fire(m, t, env);
      && f.Fired? && f.m.state == (if m.state in {MovingToStaging, AtStaging} then AtStaging else Idle)
      && f.m.orders == m.orders && f.m.log == m.log && Seeks(f.m, env, f.queued) && Orderly(f.m, f.queued)
      && Drain(m, [t], env, None) == Drain(f.m, f.queued, env, None)
  {
    LeadsToIdle(m, t, env);
    IdleSeeksWork(m, t, env, None);
    DrainsOn(m, t, env, None, Fire(m, t, env));
  }

  lemma LeadsToIdle(m: Machine, t: Trigger, env: Env)
    requires || (t == MissionSucceeded && m.state in {MovingToStaging, Charging})
             || (t == RecoverRobot && m.state == RobotError)
             || (t == StagingTimeout && m.state == AtStaging)
             || (t == ChargingCanceled && m.state == Charging)
    ensures var f := Fire(m, t, env);
      && f.Fired? && f.m.state == (if m.state in {MovingToStaging, AtStaging} then AtStaging else Idle)
      && f.m.orders == m.orders && f.m.log == m.log
  {
    var dest := if m.state in {MovingToStaging, AtStaging} then AtStaging else Idle;
    assert Table(t, m.state) == To(dest, Nothing);
    ExecuteMoves(m, t, To(dest, Nothing)[0], env, None);
  }

  /* ---------- Failed orders in a row ---------- */

  /** An order that just ended is counted when it failed, and ends the count when it succeeded. */
  predicate CountsFailure(failed: nat, log: seq<LogEntry>, n: Machine) {
    n.failed ==
      if |n.log| > |log| && n.log[|n.log| - 1].Ended? then (if n.log[|n.log| - 1].success then 0 else failed + 1)
      else failed
  }

  lemma BeforeCountsFailure(m: Machine, t: Trigger, e: Effect)
    requires (NeedsTask(e) ==> m.wht.Some?) && (Closes(e) ==> m.who.Some?)
    ensures CountsFailure(m.failed, m.log, Before(m, t, e)) && (!Closes(e) ==> Before(m, t, e).failed == m.failed)
  {
  }

  lemma ArrivalCountsFailure(before: RobotState, n: Machine, t: Trigger, env: Env)
    ensures var f := Arrive(before, n, t, env, None);
      && f.m.state == n.state
      && f.m.failed == (if n.state == RobotError then 0 else n.failed)
      && (!t.ProcessWarehouseOrder? ==> f.m.log == n.log)
      && (t.ProcessWarehouseOrder? && f.Fired? ==> f.m.log == n.log + [Started(t.order)])
  {
    var e := OnEnter(n, t, env);
    EntersWithFailures(n, t, env);
    if e.Entered? {
      assert Arrive(before, n, t, env, None) == Fired(After(before, e.m, t), e.queued);
    } else {
      assert Arrive(before, n, t, env, None) == Failed(e.m);
    }
  }

  lemma EntersWithFailures(n: Machine, t: Trigger, env: Env)
    ensures var m := OnEnter(n, t, env).m;
      m.state == n.state && m.failed == (if n.state == RobotError then 0 else n.failed) && m.log == n.log
  {
  }

  /** Only taking up an order starts one, and only from a state in which none is ended. */
  lemma TableEnds(m: Machine, t: Trigger, env: Env, rule: Rule)
    requires Orderly(m, [t]) && FirstRule(Table(t, m.state), m, env) == Some(rule) && rule.dest.Some?
    ensures (t.ProcessWarehouseOrder? ==> rule.effect == SaveOrder) && (Closes(rule.effect) ==> m.who.Some?)
  {
  }

  /**
   * The robot counts the orders that failed in a row: whatever trigger ends an order, a failure adds
   * one, a success starts again from zero, and so does entering the error state of the robot.
   */
  lemma FailuresCounted(m: Machine, t: Trigger, env: Env)
    requires Orderly(m, [t]) && m.state != RobotError && Fire(m, t, env).Fired?
    ensures var n := Fire(m, t, env).m;
      if n.state == RobotError then n.failed == 0 else CountsFailure(m.failed, m.log, n)
  {
    var rule := FirstRule(Table(t, m.state), m, env);
    if rule.Some? && rule.value.dest.Some? {
      TableEnds(m, t, env, rule.value);
      MoveCountsFailure(m, t, rule.value, env, Fire(m, t, env));
    }
  }

  lemma MoveCountsFailure(m: Machine, t: Trigger, rule: Rule, env: Env, f: Fired)
    requires rule.dest.Some? && (NeedsTask(rule.effect) ==> m.wht.Some?) && (Closes(rule.effect) ==> m.who.Some?)
    requires (t.ProcessWarehouseOrder? ==> rule.effect == SaveOrder) && f == Execute(m, t, rule, env, None) && f.Fired?
    ensures if f.m.state == RobotError then f.m.failed == 0 else CountsFailure(m.failed, m.log, f.m)
  {
    ExecuteMoves(m, t, rule, env, None);
    var n := Entering(m, t, rule.effect, rule.dest.value);
    EnteringCountsFailure(m, t, rule.effect, n);
    ArrivalCountsFailure(m.state, n, t, env);
    ArrivedCountsFailure(m, n, t, f.m);
  }

  lemma EnteringCountsFailure(m: Machine, t: Trigger, e: Effect, n: Machine)
    requires (NeedsTask(e) ==> m.wht.Some?) && (Closes(e) ==> m.who.Some?)
    requires n == Entering(m, t, e, n.state)
    ensures CountsFailure(m.failed, m.log, n) && m.log <= n.log && (e == SaveOrder ==> n.failed == m.failed)
  {
    BeforeCountsFailure(m, t, e);
    BeforeGrowsLog(m, t, e, None);
  }

  lemma ArrivedCountsFailure(m: Machine, n: Machine, t: Trigger, after: Machine)
    requires CountsFailure(m.failed, m.log, n) && after.state == n.state && m.log <= n.log
    requires after.failed == if n.state == RobotError then 0 else n.failed
    requires after.log == if t.ProcessWarehouseOrder? then n.log + [Started(t.order)] else n.log
    requires t.ProcessWarehouseOrder? ==> n.failed == m.failed
    ensures if after.state == RobotError then after.failed == 0 else CountsFailure(m.failed, m.log, after)
  {
  }

  /* ---------- Updates that concern the active order, or nothing ---------- */

  /** An update of the active order replaces it; an update of another one does not touch it. */
  lemma ActiveOrderRenewed(m: Machine, order: Order, sequence: int, env: Env)
    requires Orderly(m, []) && m.who.Some?
    ensures var n := Step(m, Input(OrderUpdated(order, sequence), env, None)).m;
      && n.who == Some(if order.id == m.who.value.id then order else m.who.value)
      && n.state == m.state && n.wht == m.wht && n.mission == m.mission && n.log == m.log
  {
  }

  /** Callbacks that have nothing to say to the robot. */
  predicate Irrelevant(m: Machine, e: Event, env: Env) {
    || (e.MissionChanged? && (m.mission == "" || e.report == Moving))
    || (e == RecoverRequested && !ErrorState(m.state))
    || (e == ConfigurationChanged && env.mode != Run)
    || (e.OrderCompleted? && (m.state != WaitingForErrorRecovery || m.who.None? || m.who.value.id != e.id))
    || (e == TimedOut && !IdleState(m.state))
    || (e.RobotReported? && MoveTrolley(m.state))
  }

  /** They change nothing. */
  lemma IrrelevantIsIgnored(m: Machine, e: Event, env: Env, fault: Option<Fault>)
    requires Orderly(m, []) && Irrelevant(m, e, env)
    ensures Step(m, Input(e, env, fault)).m == m && Step(m, Input(e, env, fault)).error == NoError
  {
    assert Prepare(m, e, env) == (m, []);
  }
}
