/**
 * The robot state machine: what a callback from outside does, together with all triggers it
 * puts into the machine's queue.
 */
module RobotMachine {
  import opened Common
  import opened StableSorting
  import opened RobotConfig

  datatype ConfirmationNumber = First | Second

  datatype LogEntry =
    | Started(order: Order)
    | Confirmed(tanum: string, number: ConfirmationNumber, success: bool)
    | Ended(id: string, success: bool)

  datatype Queued = Queued(order: Order, sequence: int)

  /** An empty mission name means that there is none. */
  datatype Machine = Machine(
    state: RobotState, who: Option<Order>, wht: Option<Task>, mission: string,
    errors: map<RobotState, nat>, failed: nat, orders: seq<Queued>, log: seq<LogEntry>)

  datatype Mode = Run | IdleMode | Stop | Charge

  /** What the machine reads from its surroundings; `mission` names the mission created next. */
  datatype Env = Env(mode: Mode, battery: real, batteryMin: real, batteryIdle: real, batteryOk: real,
                     maxRetry: nat, mission: string)

  datatype Error = NoError | InvalidTrigger | TypeError | ApiError

  datatype Result = Result(m: Machine, error: Error)

  /** The calls of handlers into the cluster. Each of them may raise an error, which ends the callback. */
  datatype Call =
    | Finalizing   // add the finalizer to an order that is taken up
    | Confirming   // record a confirmation
    | Closing      // remove the finalizer from an order that is closed
    | Missioning   // create or cancel a mission
    | Saving       // save the state of the robot, after every transition

  /** A call that raises; a confirmation may have been recorded all the same. */
  datatype Raise = Raise(call: Call, recorded: bool)

  /** The call raises in the trigger that comes after so many others of the callback. */
  datatype Fault = Fault(after: nat, raise: Raise)

  predicate Raises(raise: Option<Raise>, call: Call) {
    raise.Some? && raise.value.call == call
  }

  /** The call that raises in the next trigger. */
  function Now(fault: Option<Fault>): Option<Raise> {
    if fault.Some? && fault.value.after == 0 then Some(fault.value.raise) else None
  }

  /** What is left of a fault for the triggers after the next one. */
  function Later(fault: Option<Fault>): Option<Fault> {
    if fault.Some? && fault.value.after > 0 then Some(Fault(fault.value.after - 1, fault.value.raise)) else None
  }

  function ErrorsOf(m: Machine, s: RobotState): nat {
    if s in m.errors then m.errors[s] else 0
  }

  /* ---------- Orders in the queue ---------- */

  function Without(orders: seq<Queued>, id: string): (r: seq<Queued>)
    ensures |r| <= |orders|
    ensures forall q :: q in r <==> q in orders && q.order.id != id
  {
    if orders == [] then [] else
      var r := Without(orders[1..], id);
      assert orders == [orders[0]] + orders[1..];
      if orders[0].order.id == id then r else [orders[0]] + r
  }

  predicate Contains(orders: seq<Queued>, id: string) {
    exists q :: q in orders && q.order.id == id
  }

  lemma {:induction false} WithoutShrinks(orders: seq<Queued>, id: string)
    requires Contains(orders, id)
    ensures |Without(orders, id)| < |orders|
  {
    if orders[0].order.id != id {
      assert orders == [orders[0]] + orders[1..];
      WithoutShrinks(orders[1..], id);
    }
  }

  /** A known order is replaced where it is, a new one comes last; then the queue is sorted. */
  function Enqueued(orders: seq<Queued>, q: Queued): seq<Queued> {
    var updated := if Contains(orders, q.order.id) then Replaced(orders, q) else orders + [q];
    StableSort(updated, (x: Queued) => x.sequence as real)
  }

  function Replaced(orders: seq<Queued>, q: Queued): (r: seq<Queued>)
    ensures |r| == |orders|
    ensures forall i :: 0 <= i < |r| ==> r[i] == if orders[i].order.id == q.order.id then q else orders[i]
  {
    seq(|orders|, i requires 0 <= i < |orders| => if orders[i].order.id == q.order.id then q else orders[i])
  }

  /* ---------- The callbacks of transitions ---------- */

  function WithoutTask(tasks: seq<Task>, tanum: string): (r: seq<Task>)
    ensures forall t :: t in r <==> t in tasks && t.tanum != tanum
  {
    if tasks == [] then [] else
      var r := WithoutTask(tasks[1..], tanum);
      assert tasks == [tasks[0]] + tasks[1..];
      if tasks[0].tanum == tanum then r else [tasks[0]] + r
  }

  function CloseWht(m: Machine): Machine {
    if m.wht.None? then m
    else m.(wht := None,
            who := if m.who.None? then None
                   else Some(m.who.value.(tasks := WithoutTask(m.who.value.tasks, m.wht.value.tanum))))
  }

  /** The active order leaves the queue. */
  function Dequeued(m: Machine): Machine {
    if m.who.None? then m else m.(orders := Without(m.orders, m.who.value.id))
  }

  function CloseWho(m: Machine): Machine {
    Dequeued(m).(who := None)
  }

  /** Sending a confirmation of the active task. */
  function Confirm(m: Machine, number: ConfirmationNumber, success: bool): Machine
    requires m.wht.Some?
  {
    m.(log := m.log + [Confirmed(m.wht.value.tanum, number, success)])
  }

  /** After the first confirmation the warehouse task has no source bin any more. */
  function WithoutSource(tasks: seq<Task>, tanum: string): (r: seq<Task>)
    ensures |r| == |tasks|
    ensures forall i :: 0 <= i < |r| ==> r[i] == if tasks[i].tanum == tanum then tasks[i].(source := "") else tasks[i]
  {
    seq(|tasks|, i requires 0 <= i < |tasks| => if tasks[i].tanum == tanum then tasks[i].(source := "") else tasks[i])
  }

  function SourceDeleted(m: Machine): Machine
    requires m.wht.Some?
  {
    if m.who.None? then m
    else m.(who := Some(m.who.value.(tasks := WithoutSource(m.who.value.tasks, m.wht.value.tanum))))
  }

  function LogFail(m: Machine): Machine {
    m.(failed := m.failed + 1, log := if m.who.Some? then m.log + [Ended(m.who.value.id, false)] else m.log)
  }

  function LogSuccess(m: Machine): Machine {
    m.(failed := 0, log := if m.who.Some? then m.log + [Ended(m.who.value.id, true)] else m.log)
  }

  function MoreWarehouseTasks(m: Machine): bool {
    m.who.Some? && exists t :: t in m.who.value.tasks && t.tanum != if m.wht.Some? then m.wht.value.tanum else ""
  }

  predicate NeedsTask(e: Effect) {
    e in {FailPickup, PickedUp, FailReturn, FinishTask, FinishOrder}
  }

  predicate Closes(e: Effect) {
    e in {AbortOrder, FailPickup, FinishOrder, GiveUpOrder}
  }

  /** The confirmation with which the handlers of an effect begin. */
  function ConfirmFor(m: Machine, e: Effect): Machine
    requires m.wht.Some?
  {
    Confirm(m, if e in {FailPickup, PickedUp} then First else Second, e in {PickedUp, FinishTask, FinishOrder})
  }

  /** What happens before an order is closed. */
  function BeforeClosing(m: Machine, e: Effect): Machine
    requires NeedsTask(e) ==> m.wht.Some?
  {
    match e
    case FailPickup => LogFail(CloseWht(ConfirmFor(m, e)))
    case FinishOrder => LogSuccess(CloseWht(ConfirmFor(m, e)))
    case GiveUpOrder => LogFail(CloseWht(m))
    case _ => LogFail(m)
  }

  /** What happens before the state changes. */
  function Before(m: Machine, t: Trigger, e: Effect): Machine
    requires NeedsTask(e) ==> m.wht.Some?
  {
    match e
    case Nothing => m
    case CountError => m.(errors := m.errors[m.state := ErrorsOf(m, m.state) + 1])
    case SaveOrder => if t.ProcessWarehouseOrder? then m.(who := Some(t.order)) else m
    case PickedUp => SourceDeleted(ConfirmFor(m, e))
    case FailReturn => ConfirmFor(m, e)
    case FinishTask => CloseWht(ConfirmFor(m, e))
    case _ => CloseWho(BeforeClosing(m, e))
  }

  /** What is left when one of the calls before the state change raises: the state stays as it was. */
  function Interrupted(m: Machine, t: Trigger, e: Effect, raise: Option<Raise>): Option<Machine>
    requires NeedsTask(e) ==> m.wht.Some?
  {
    if Raises(raise, Finalizing) && e == SaveOrder && t.ProcessWarehouseOrder? then Some(m.(who := Some(t.order)))
    else if Raises(raise, Confirming) && NeedsTask(e) then Some(if raise.value.recorded then ConfirmFor(m, e) else m)
    else if Raises(raise, Closing) && Closes(e) && m.who.Some? then Some(Dequeued(BeforeClosing(m, e)))
    else None
  }

  /** The two calls of the handlers that end an order. */
  lemma ClosingInterrupted(m: Machine, t: Trigger, e: Effect, raise: Option<Raise>)
    requires Closes(e) && (NeedsTask(e) ==> m.wht.Some?)
    ensures Before(m, t, e) == CloseWho(BeforeClosing(m, e))
    ensures Interrupted(m, t, e, raise) ==
            if Raises(raise, Confirming) && NeedsTask(e) then Some(if raise.value.recorded then ConfirmFor(m, e) else m)
            else if Raises(raise, Closing) && m.who.Some? then Some(Dequeued(BeforeClosing(m, e)))
            else None
  {
  }

  /** What to do next when the robot has no active order: charge, give up, or work on the queue. */
  function WhatsNext(m: Machine, env: Env): seq<Trigger> {
    if env.mode == Charge then (if env.battery < 90.0 then [ChargeBattery] else [])
    else if env.battery < env.batteryMin then [ChargeBattery]
    else if m.failed > 3 then [TooManyFailedWhos]
    else if m.orders != [] && env.mode in {Run, IdleMode} then [ProcessWarehouseOrder(m.orders[0].order)]
    else []
  }

  ghost predicate BySequence(orders: seq<Queued>) {
    forall i, j | 0 <= i < j < |orders| :: orders[i].sequence <= orders[j].sequence
  }

  /** The order has the least sequence of the queue, and it is the first one that has it. */
  ghost predicate Least(orders: seq<Queued>, order: Order) {
    exists i :: 0 <= i < |orders| && orders[i].order == order
                && (forall j :: 0 <= j < |orders| ==> orders[i].sequence <= orders[j].sequence)
                && (forall j :: 0 <= j < i ==> orders[i].sequence < orders[j].sequence)
  }

  lemma FirstIsLeast(orders: seq<Queued>)
    requires BySequence(orders) && orders != []
    ensures Least(orders, orders[0].order)
  {
  }

  /** The battery is too low to do anything else than charge. */
  predicate LowBattery(env: Env) {
    env.battery < if env.mode == Charge then 90.0 else env.batteryMin
  }

  /**
   * What a robot that looks for work fires: it charges exactly when its battery is low, gives up
   * after more than three failed orders in a row, and otherwise takes up the order with the least
   * sequence if its mode allows that; it does nothing else.
   */
  ghost predicate Seeks(m: Machine, env: Env, next: seq<Trigger>) {
    && |next| <= 1
    && (ChargeBattery in next <==> LowBattery(env))
    && (TooManyFailedWhos in next <==> env.mode != Charge && !LowBattery(env) && m.failed > 3)
    && ((exists t :: t in next && t.ProcessWarehouseOrder?) <==>
        env.mode in {Run, IdleMode} && !LowBattery(env) && m.failed <= 3 && m.orders != [])
    && forall t <- next ::
         || t in {ChargeBattery, TooManyFailedWhos}
         || (t.ProcessWarehouseOrder? && (BySequence(m.orders) ==> Least(m.orders, t.order)))
  }

  lemma SeeksNext(m: Machine, env: Env)
    ensures Seeks(m, env, WhatsNext(m, env))
  {
    var next := WhatsNext(m, env);
    if BySequence(m.orders) && m.orders != [] {
      FirstIsLeast(m.orders);
    }
    if next != [] {
      assert next[0] in next;
    }
  }

  datatype Entered = Entered(m: Machine, queued: seq<Trigger>) | EnterFailed(m: Machine)

  /** Entering a state: the machine after it and the triggers it queued. */
  function OnEnter(m: Machine, t: Trigger, env: Env): Entered {
    match m.state
    case AtStaging => Entered(m, WhatsNext(m, env))
    case Idle => Entered(m.(who := None, wht := None), WhatsNext(m, env))
    case Charging => Entered(m, [CreateMission])
    case MovingToStaging => Entered(m, [CreateMission])
    case RobotError => Entered(m.(failed := 0), [CreateMission])
    case MovingToSourceBin =>
      if m.who.None? then EnterFailed(m.(wht := None))
      else if m.who.value.tasks == [] then Entered(m.(wht := None), [WarehouseOrderAborted])
      else
        var wht := m.who.value.tasks[0];
        Entered(m.(wht := Some(wht)), [if wht.handlingUnit then CreateMission else InvalidWarehouseTask])
    case LoadingTrolley =>
      if m.wht.None? then EnterFailed(m) else Entered(m, if t == MissionSucceeded then [MissionSucceeded] else [])
    case MovingToTargetBin => if m.wht.None? then EnterFailed(m) else Entered(m, [CreateMission])
    case UnloadingTrolley =>
      if m.wht.None? then EnterFailed(m) else Entered(m, if t == MissionSucceeded then [MissionSucceeded] else [])
    case WaitingForErrorRecovery => Entered(m, [])
    case _ => Entered(m, [])
  }

  predicate Holds(g: Guard, m: Machine, env: Env) {
    match g
    case Always => true
    case MaxErrors => ErrorsOf(m, m.state) >= env.maxRetry
    case NotMaxErrors => ErrorsOf(m, m.state) < env.maxRetry
    case MoreTasks => MoreWarehouseTasks(m)
    case NoMoreTasks => !MoreWarehouseTasks(m)
  }

  function FirstRule(rules: seq<Rule>, m: Machine, env: Env): (r: Option<Rule>)
    requires |rules| <= 2
    ensures r.Some? ==> r.value in rules && Holds(r.value.guard, m, env)
  {
    if |rules| > 0 && Holds(rules[0].guard, m, env) then Some(rules[0])
    else if |rules| > 1 && Holds(rules[1].guard, m, env) then Some(rules[1])
    else None
  }

  /** After the state changed: the start is logged, the error counter of the state left is reset. */
  function After(before: RobotState, m: Machine, t: Trigger): Machine {
    var n := if t.ProcessWarehouseOrder? then m.(log := m.log + [Started(t.order)]) else m;
    if m.state != before && t != MissionFailed then n.(errors := n.errors[before := 0]) else n
  }

  /** Triggers that keep the state only touch the active mission. */
  function Internally(m: Machine, t: Trigger, env: Env): Machine {
    match t
    case CreateMission => m.(mission := env.mission)
    case CancelActiveMission => m.(mission := "")
    case _ => m
  }

  predicate CallsMission(m: Machine, t: Trigger) {
    t == CreateMission || (t == CancelActiveMission && m.mission != "")
  }

  /** The outcome of a trigger; a missing order or task, or a raising call, ends the callback. */
  datatype Fired = Fired(m: Machine, queued: seq<Trigger>) | Rejected | Failed(m: Machine) | Raised(m: Machine)

  /** The end of a transition: the state of the robot is saved. */
  function Saved(m: Machine, queued: seq<Trigger>, raise: Option<Raise>): Fired {
    if Raises(raise, Saving) then Raised(m) else Fired(m, queued)
  }

  /** The state a transition enters, with the changes made before. */
  function Entering(m: Machine, t: Trigger, e: Effect, dest: RobotState): Machine
    requires NeedsTask(e) ==> m.wht.Some?
  {
    Before(m, t, e).(state := dest)
  }

  /** The end of a transition that came from a state and entered another one, or failed to. */
  function Arrived(before: RobotState, e: Entered, t: Trigger, raise: Option<Raise>): Fired {
    match e
    case EnterFailed(n) => Failed(n)
    case Entered(n, queued) => Saved(After(before, n, t), queued, raise)
  }

  function Arrive(before: RobotState, m: Machine, t: Trigger, env: Env, raise: Option<Raise>): Fired {
    Arrived(before, OnEnter(m, t, env), t, raise)
  }

  function Execute(m: Machine, t: Trigger, rule: Rule, env: Env, raise: Option<Raise>): Fired {
    if rule.dest.None? then
      if Raises(raise, Missioning) && CallsMission(m, t) then Raised(m) else Saved(Internally(m, t, env), [], raise)
    else if NeedsTask(rule.effect) && m.wht.None? then Failed(m)
    else if Interrupted(m, t, rule.effect, raise).Some? then Raised(Interrupted(m, t, rule.effect, raise).value)
    else Arrive(m.state, Entering(m, t, rule.effect, rule.dest.value), t, env, raise)
  }

  lemma ExecuteMoves(m: Machine, t: Trigger, rule: Rule, env: Env, raise: Option<Raise>)
    requires rule.dest.Some? && (NeedsTask(rule.effect) ==> m.wht.Some?) && Interrupted(m, t, rule.effect, raise).None?
    ensures Execute(m, t, rule, env, raise) ==
            Arrive(m.state, Entering(m, t, rule.effect, rule.dest.value), t, env, raise)
  {
  }

  /** Firing one trigger; without a transition in this state it is rejected. */
  function FireWith(m: Machine, t: Trigger, env: Env, raise: Option<Raise>): Fired {
    var rules := Table(t, m.state);
    if rules == [] then Rejected
    else
      var rule := FirstRule(rules, m, env);
      if rule.None? then Fired(m, []) else Execute(m, t, rule.value, env, raise)
  }

  /** Firing one trigger while every call succeeds. */
  function Fire(m: Machine, t: Trigger, env: Env): Fired {
    FireWith(m, t, env, None)
  }

  /* ---------- Working off the trigger queue ---------- */

  /** The orders still to be worked on, counting an active one that left the queue. */
  function OpenOrders(m: Machine): nat {
    |m.orders| + if m.who.Some? && !Contains(m.orders, m.who.value.id) then 1 else 0
  }

  /** How many more triggers may follow while no order is closed. */
  function Rank(t: Trigger, s: RobotState): nat {
    match t
    case CreateMission => 0
    case CancelActiveMission => 0
    case ChargeBattery => 1
    case TooManyFailedWhos => 1
    case InvalidWarehouseTask => 2
    case WarehouseOrderAborted => 2
    case ProcessWarehouseOrder(_) => 3
    case MissionSucceeded => if s == MovingToSourceBin || s == MovingToTargetBin then 5 else 4
    case _ => 5
  }

  function PendingRank(pending: seq<Trigger>, s: RobotState): nat {
    if pending == [] then 0
    else if |pending| == 1 then 1 + Rank(pending[0], s)
    else 8 + Rank(pending[1], s)
  }

  /* ---------- Every trigger makes progress ---------- */

  predicate Modelled(s: RobotState) {
    MoveTrolley(s) || s in {Idle, AtStaging, MovingToStaging, Charging, RobotError}
  }

  /**
   * What holds between two triggers whatever calls raised before: a moveTrolley state has an
   * active order, and orders to be taken up are in the queue. At most one trigger waits, or two
   * of which the first one cancels a mission.
   */
  predicate Orderly(m: Machine, pending: seq<Trigger>) {
    && Modelled(m.state) && (MoveTrolley(m.state) ==> m.who.Some?)
    && (|pending| > 1 ==> |pending| == 2 && pending[0] == CancelActiveMission)
    && forall t :: t in pending && t.ProcessWarehouseOrder? ==> Contains(m.orders, t.order.id)
  }

  /** Fewer orders are open, or the triggers that wait lead to fewer others. */
  predicate Shrinks(m: Machine, pending: seq<Trigger>, n: Machine, rest: seq<Trigger>) {
    || OpenOrders(n) < OpenOrders(m)
    || (OpenOrders(n) == OpenOrders(m) && PendingRank(rest, n.state) < PendingRank(pending, m.state))
  }

  lemma {:induction false} NothingToClose(orders: seq<Queued>, id: string)
    requires !Contains(orders, id)
    ensures Without(orders, id) == orders
  {
    if orders != [] {
      assert forall q :: q in orders[1..] ==> q in orders;
      NothingToClose(orders[1..], id);
    }
  }

  lemma ClosingShrinks(m: Machine)
    requires m.who.Some?
    ensures OpenOrders(CloseWho(m)) < OpenOrders(m)
  {
    if Contains(m.orders, m.who.value.id) {
      WithoutShrinks(m.orders, m.who.value.id);
    } else {
      NothingToClose(m.orders, m.who.value.id);
    }
  }

  lemma BeforeClosingKeeps(m: Machine, e: Effect)
    requires Closes(e) && (NeedsTask(e) ==> m.wht.Some?)
    ensures var n := BeforeClosing(m, e);
      && n.orders == m.orders && n.state == m.state && OpenOrders(n) == OpenOrders(m)
      && (n.who.Some? <==> m.who.Some?) && (m.who.Some? ==> n.who.value.id == m.who.value.id)
  {
  }

  lemma EnteringCloses(m: Machine, t: Trigger, e: Effect, dest: RobotState)
    requires Closes(e) && (NeedsTask(e) ==> m.wht.Some?)
    ensures OpenOrders(Entering(m, t, e, dest)) <= OpenOrders(m)
    ensures m.who.Some? ==> OpenOrders(Entering(m, t, e, dest)) < OpenOrders(m)
  {
    BeforeClosingKeeps(m, e);
    var n := BeforeClosing(m, e);
    assert Entering(m, t, e, dest) == CloseWho(n).(state := dest);
    if n.who.Some? {
      ClosingShrinks(n);
    }
  }

  lemma EnteringShrinks(m: Machine, t: Trigger, e: Effect, dest: RobotState)
    requires NeedsTask(e) ==> m.wht.Some?
    requires t.ProcessWarehouseOrder? ==> Contains(m.orders, t.order.id)
    ensures OpenOrders(Entering(m, t, e, dest)) <= OpenOrders(m)
    ensures Closes(e) && m.who.Some? ==> OpenOrders(Entering(m, t, e, dest)) < OpenOrders(m)
  {
    if Closes(e) {
      EnteringCloses(m, t, e, dest);
    } else {
      var n := Before(m, t, e);
      assert n.orders == m.orders;
    }
  }

  /** How many triggers may follow when a trigger leads to a state. */
  function EntryRank(dest: RobotState, t: Trigger): nat {
    match dest
    case Idle => 4
    case AtStaging => 4
    case MovingToSourceBin => 3
    case LoadingTrolley => if t == MissionSucceeded then 5 else 0
    case UnloadingTrolley => if t == MissionSucceeded then 5 else 0
    case WaitingForErrorRecovery => 0
    case _ => 1
  }

  /** The transition table never leads in a circle of triggers unless it closes an order. */
  lemma TableShrinks(t: Trigger, s: RobotState, rule: Rule)
    requires rule in Table(t, s) && rule.dest.Some? && Modelled(s)
    ensures EntryRank(rule.dest.value, t) <= Rank(t, s) || (Closes(rule.effect) && MoveTrolley(s))
    ensures Modelled(rule.dest.value) && (Closes(rule.effect) ==> rule.dest.value == Idle)
    ensures MoveTrolley(rule.dest.value) && !MoveTrolley(s) ==> rule.effect == SaveOrder && t.ProcessWarehouseOrder?
  {
  }

  /** A robot without active order finds its next work in its queue. */
  lemma NextWorkFits(m: Machine, env: Env)
    requires IdleState(m.state)
    ensures var next := WhatsNext(m, env);
      && |next| <= 1 && PendingRank(next, m.state) <= 4 && Orderly(m, next)
      && (m.who.None? ==> Ready(m, next))
  {
    if m.orders != [] {
      assert m.orders[0] in m.orders;
    }
  }

  /** The bookkeeping after a state change matters neither to the next triggers nor to the open orders. */
  lemma AfterKeeps(before: RobotState, n: Machine, t: Trigger, queued: seq<Trigger>)
    ensures Ready(After(before, n, t), queued) <==> Ready(n, queued)
    ensures Orderly(After(before, n, t), queued) <==> Orderly(n, queued)
    ensures After(before, n, t).state == n.state && OpenOrders(After(before, n, t)) == OpenOrders(n)
  {
  }

  /** Entering a state queues at most one trigger and opens no order. */
  lemma EnterShrinks(m: Machine, t: Trigger, env: Env)
    requires Orderly(m, []) && OnEnter(m, t, env).Entered?
    ensures var e := OnEnter(m, t, env);
      && |e.queued| <= 1 && Orderly(e.m, e.queued) && OpenOrders(e.m) <= OpenOrders(m)
      && e.m.state == m.state && PendingRank(e.queued, m.state) <= EntryRank(m.state, t)
  {
    if IdleState(m.state) {
      NextWorkFits(OnEnter(m, t, env).m, env);
    } else {
      assert OnEnter(m, t, env).m.orders == m.orders && OnEnter(m, t, env).m.who == m.who;
    }
  }

  /** What firing a trigger leads to, also when it ends half way. */
  predicate Progress(m: Machine, t: Trigger, f: Fired) {
    && !f.Rejected? && Orderly(f.m, [])
    && (f.Fired? ==> |f.queued| <= 1 && Orderly(f.m, f.queued) && Shrinks(m, [t], f.m, f.queued))
  }

  lemma InterruptedIsOrderly(m: Machine, t: Trigger, e: Effect, raise: Option<Raise>)
    requires Orderly(m, []) && (NeedsTask(e) ==> m.wht.Some?) && Interrupted(m, t, e, raise).Some?
    ensures Orderly(Interrupted(m, t, e, raise).value, [])
  {
    if Closes(e) {
      BeforeClosingKeeps(m, e);
    }
  }

  lemma ArrivalShrinks(m: Machine, n: Machine, t: Trigger, env: Env, raise: Option<Raise>)
    requires Orderly(n, [])
    requires || OpenOrders(n) < OpenOrders(m)
             || (OpenOrders(n) == OpenOrders(m) && EntryRank(n.state, t) <= Rank(t, m.state))
    ensures Progress(m, t, Arrive(m.state, n, t, env, raise))
  {
    var e := OnEnter(n, t, env);
    if e.Entered? {
      EnterShrinks(n, t, env);
      AfterKeeps(m.state, e.m, t, e.queued);
      AfterKeeps(m.state, e.m, t, []);
    }
  }

  lemma MovingIsOrderly(m: Machine, t: Trigger, rule: Rule)
    requires Orderly(m, [t]) && rule in Table(t, m.state) && rule.dest.Some? && (NeedsTask(rule.effect) ==> m.wht.Some?)
    ensures Orderly(Entering(m, t, rule.effect, rule.dest.value), [])
  {
    TableShrinks(t, m.state, rule);
    BeforeKeepsWho(m, t, rule.effect);
  }

  /** Only closing an order ends its being active. */
  lemma BeforeKeepsWho(m: Machine, t: Trigger, e: Effect)
    requires NeedsTask(e) ==> m.wht.Some?
    ensures !Closes(e) && m.who.Some? ==> Before(m, t, e).who.Some?
    ensures e == SaveOrder && t.ProcessWarehouseOrder? ==> Before(m, t, e).who.Some?
  {
  }

  lemma MovingShrinks(m: Machine, t: Trigger, rule: Rule, n: Machine)
    requires Orderly(m, [t]) && rule in Table(t, m.state) && rule.dest.Some? && (NeedsTask(rule.effect) ==> m.wht.Some?)
    requires n == Entering(m, t, rule.effect, rule.dest.value)
    ensures || OpenOrders(n) < OpenOrders(m)
            || (OpenOrders(n) == OpenOrders(m) && EntryRank(n.state, t) <= Rank(t, m.state))
  {
    assert t in [t];
    TableShrinks(t, m.state, rule);
    EnteringShrinks(m, t, rule.effect, rule.dest.value);
  }

  lemma ExecuteShrinks(m: Machine, t: Trigger, rule: Rule, env: Env, raise: Option<Raise>)
    requires Orderly(m, [t]) && rule in Table(t, m.state)
    ensures Progress(m, t, Execute(m, t, rule, env, raise))
  {
    if rule.dest.Some? && (NeedsTask(rule.effect) ==> m.wht.Some?) {
      if Interrupted(m, t, rule.effect, raise).Some? {
        InterruptedIsOrderly(m, t, rule.effect, raise);
      } else {
        var n := Entering(m, t, rule.effect, rule.dest.value);
        MovingIsOrderly(m, t, rule);
        MovingShrinks(m, t, rule, n);
        ArrivalShrinks(m, n, t, env, raise);
      }
    }
  }

  /**
   * Every trigger brings the queue of triggers closer to its end, whatever calls raised before
   * and whichever raises now.
   */
  lemma DrainShrinks(m: Machine, pending: seq<Trigger>, env: Env, raise: Option<Raise>)
    requires pending != [] && Orderly(m, pending)
    ensures var f := FireWith(m, pending[0], env, raise);
      && (!f.Rejected? ==> Orderly(f.m, []))
      && (f.Fired? ==> Orderly(f.m, pending[1..] + f.queued) && Shrinks(m, pending, f.m, pending[1..] + f.queued))
  {
    var rules := Table(pending[0], m.state);
    var rule := FirstRule(rules, m, env);
    if |pending| == 1 {
      assert pending == [pending[0]];
      assert forall queued: seq<Trigger> :: pending[1..] + queued == queued;
      if rules != [] && rule.Some? {
        ExecuteShrinks(m, pending[0], rule.value, env, raise);
      }
    } else {
      assert pending == [CancelActiveMission, pending[1]] && pending[1..] + [] == [pending[1]];
    }
  }

  /* ---------- Working off the queue ---------- */

  /**
   * Drains the queue, first in, first out. A trigger without transition in the current state
   * ends it, and so does an error.
   */
  function Drain(m: Machine, pending: seq<Trigger>, env: Env, fault: Option<Fault>): (r: Result)
    requires Orderly(m, pending)
    ensures Orderly(r.m, [])
    decreases OpenOrders(m), PendingRank(pending, m.state)
  {
    if pending == [] then Result(m, NoError) else
      DrainShrinks(m, pending, env, Now(fault));
      match FireWith(m, pending[0], env, Now(fault))
      case Rejected => Result(m, InvalidTrigger)
      case Failed(n) => Result(n, TypeError)
      case Raised(n) => Result(n, ApiError)
      case Fired(n, queued) => Drain(n, pending[1..] + queued, env, Later(fault))
  }

  /* ---------- Consistency while every call succeeds ---------- */

  /** Every moveTrolley state has an active task, and while the robot drives a mission is active. */
  predicate Settled(m: Machine) {
    (MoveTrolley(m.state) ==> m.wht.Some?) && (Driving(m.state) ==> m.mission != "")
  }

  /** The trigger may come next. */
  predicate Fits(m: Machine, t: Trigger) {
    match t
    case ProcessWarehouseOrder(o) => m.state in {Idle, AtStaging, Charging, MovingToStaging} && Contains(m.orders, o.id)
    case CreateMission => MoveTrolley(m.state) ==> m.wht.Some?
    case CancelActiveMission => !MoveTrolley(m.state)
    case MissionSucceeded => MoveTrolley(m.state) ==> m.wht.Some?
    case MissionFailed => MoveTrolley(m.state) ==> m.wht.Some?
    case InvalidWarehouseTask => m.state == MovingToSourceBin && m.wht.Some?
    case WarehouseOrderAborted => m.state == MovingToSourceBin && m.wht.None?
    case _ => Settled(m)
  }

  /** The machine between two triggers: an order is active exactly in the moveTrolley states. */
  predicate Ready(m: Machine, pending: seq<Trigger>) {
    && Modelled(m.state) && (m.who.Some? <==> MoveTrolley(m.state))
    && (pending == [] ==> Settled(m))
    && (|pending| > 0 ==> Fits(m, pending[0]))
    && (|pending| > 1 ==> |pending| == 2 && pending[0] == CancelActiveMission && Fits(m, pending[1])
                          && (pending[1].ProcessWarehouseOrder? || pending[1] in {ChargeBattery, ChargingCanceled}))
  }

  /** The machine enters a state with the order, task and mission that it needs there. */
  predicate Equipped(m: Machine, t: Trigger) {
    && Modelled(m.state) && (MoveTrolley(m.state) ==> m.who.Some?)
    && (m.who.Some? ==> MoveTrolley(m.state) || m.state == Idle)
    && (MoveTrolley(m.state) && m.state != MovingToSourceBin ==> m.wht.Some?)
    && (t == MissionDocking ==> m.mission != "")
    && (m.state in {LoadingTrolley, UnloadingTrolley} ==> t in {MissionDocking, MissionSucceeded})
  }

  lemma EnterReady(m: Machine, t: Trigger, env: Env)
    requires Equipped(m, t)
    ensures var e := OnEnter(m, t, env);
      e.Entered? && Ready(e.m, e.queued)
  {
    if IdleState(m.state) {
      NextWorkFits(OnEnter(m, t, env).m, env);
    }
  }

  /** Where the table needs a task, there is one. */
  lemma TableHasTask(m: Machine, t: Trigger, rule: Rule)
    requires Ready(m, [t]) && rule in Table(t, m.state) && NeedsTask(rule.effect)
    ensures m.wht.Some?
  {
  }

  /** The table only leads to states for which the machine is equipped. */
  lemma TableEquips(m: Machine, t: Trigger, env: Env, rule: Rule)
    requires Ready(m, [t]) && rule in Table(t, m.state) && Holds(rule.guard, m, env) && rule.dest.Some?
    ensures NeedsTask(rule.effect) ==> m.wht.Some?
    ensures Equipped(Entering(m, t, rule.effect, rule.dest.value), t)
  {
    if NeedsTask(rule.effect) {
      TableHasTask(m, t, rule);
    }
    TableShrinks(t, m.state, rule);
    BeforeKeepsWho(m, t, rule.effect);
  }

  lemma MovingProceeds(m: Machine, t: Trigger, env: Env, rule: Rule)
    requires Ready(m, [t]) && rule in Table(t, m.state) && Holds(rule.guard, m, env) && rule.dest.Some?
    ensures var f := Execute(m, t, rule, env, None);
      f.Fired? && Ready(f.m, f.queued)
  {
    TableEquips(m, t, env, rule);
    ExecuteMoves(m, t, rule, env, None);
    EquippedArrives(m.state, Entering(m, t, rule.effect, rule.dest.value), t, env, Execute(m, t, rule, env, None));
  }

  lemma EquippedArrives(before: RobotState, n: Machine, t: Trigger, env: Env, f: Fired)
    requires Equipped(n, t) && f == Arrive(before, n, t, env, None)
    ensures f.Fired? && Ready(f.m, f.queued)
  {
    EnterReady(n, t, env);
    AfterKeeps(before, OnEnter(n, t, env).m, t, OnEnter(n, t, env).queued);
  }

  /** Where a trigger is refused or has nothing to do, no mission or task is missing. */
  lemma IdleTriggerSettles(m: Machine, t: Trigger, env: Env)
    requires Ready(m, [t]) && t !in {CreateMission, CancelActiveMission}
    requires Table(t, m.state) == [] || FirstRule(Table(t, m.state), m, env).None? || Table(t, m.state) == Internal()
    ensures Settled(m)
  {
  }

  /** Whatever trigger fits, it keeps the machine consistent and never hits a missing order or task. */
  lemma TriggerProceeds(m: Machine, t: Trigger, env: Env)
    requires Ready(m, [t]) && env.mission != ""
    ensures var f := Fire(m, t, env);
      && (f.Fired? ==> Ready(f.m, f.queued)) && (f.Rejected? ==> Settled(m)) && !f.Failed? && !f.Raised?
  {
    var rules := Table(t, m.state);
    var rule := FirstRule(rules, m, env);
    if rule.Some? && rule.value.dest.Some? {
      MovingProceeds(m, t, env, rule.value);
    } else if t !in {CreateMission, CancelActiveMission} {
      IdleTriggerSettles(m, t, env);
    }
  }

  /** Waiting triggers stay ready as far as the queue of two goes. */
  lemma DrainReady(m: Machine, pending: seq<Trigger>, env: Env)
    requires pending != [] && Ready(m, pending) && env.mission != ""
    ensures var f := Fire(m, pending[0], env);
      && (f.Fired? ==> Ready(f.m, pending[1..] + f.queued)) && (f.Rejected? ==> Settled(m)) && !f.Failed? && !f.Raised?
  {
    if |pending| == 1 {
      assert pending == [pending[0]];
      TriggerProceeds(m, pending[0], env);
      assert forall queued: seq<Trigger> :: pending[1..] + queued == queued;
    } else {
      assert pending == [CancelActiveMission, pending[1]] && pending[1..] + [] == [pending[1]];
    }
  }

  /* ---------- Which raising calls do harm ---------- */

  /** A trigger in which no call raises is fired as if every call succeeded. */
  lemma FiresAlike(m: Machine, t: Trigger, env: Env, raise: Option<Raise>)
    ensures FireWith(m, t, env, raise).Raised? || FireWith(m, t, env, raise) == Fire(m, t, env)
  {
  }

  /** The tasks of the order that a robot on its way to a source bin is going to work on. */
  function TasksAhead(m: Machine, t: Trigger): seq<Task> {
    if t.ProcessWarehouseOrder? then t.order.tasks else if m.who.Some? then m.who.value.tasks else []
  }

  /** The trigger leads to a state in which the robot needs a mission. */
  predicate LeadsTo(m: Machine, t: Trigger, env: Env, dest: RobotState) {
    var rule := FirstRule(Table(t, m.state), m, env);
    rule.Some? && rule.value.dest == Some(dest)
  }

  /**
   * The call that raises leaves nothing behind that later callbacks would miss. Finalizers must be
   * set and removed. While the robot drives, or is about to, it must have a mission already, as
   * the trigger that creates one is dropped; and so is the one that aborts an order without tasks.
   */
  predicate Harmless(m: Machine, t: Trigger, env: Env, raise: Option<Raise>) {
    if Raises(raise, Finalizing) || Raises(raise, Closing) then false
    else if Raises(raise, Saving) then
      && (forall dest :: LeadsTo(m, t, env, dest) && Driving(dest) ==> m.mission != "")
      && (LeadsTo(m, t, env, MovingToSourceBin) ==> TasksAhead(m, t) != [])
    else Driving(m.state) ==> m.mission != ""
  }

  /** What Ready says of a moveTrolley state in which triggers wait. */
  lemma ReadyMoves(m: Machine, pending: seq<Trigger>)
    requires Ready(m, pending) && |pending| <= 1 && pending != [CancelActiveMission]
    ensures Ready(m, []) <==> (Driving(m.state) ==> m.mission != "" && pending != [WarehouseOrderAborted])
  {
  }

  lemma InterruptedReadyIff(m: Machine, t: Trigger, env: Env, rule: Rule, raise: Option<Raise>)
    requires Ready(m, [t]) && rule in Table(t, m.state) && Holds(rule.guard, m, env) && rule.dest.Some?
    requires (NeedsTask(rule.effect) ==> m.wht.Some?) && Interrupted(m, t, rule.effect, raise).Some?
    ensures Ready(Interrupted(m, t, rule.effect, raise).value, []) <==> Harmless(m, t, env, raise)
  {
    if Raises(raise, Confirming) {
      UnsentReadyIff(m, t, rule, raise.value.recorded);
    } else if Raises(raise, Closing) {
      UnclosedIsNotReady(m, t, rule);
    }
  }

  /** A confirmation that raises leaves the machine as it was. */
  lemma UnsentReadyIff(m: Machine, t: Trigger, rule: Rule, recorded: bool)
    requires Ready(m, [t]) && rule in Table(t, m.state) && NeedsTask(rule.effect) && m.wht.Some?
    ensures Ready(if recorded then ConfirmFor(m, rule.effect) else m, []) <==> (Driving(m.state) ==> m.mission != "")
  {
  }

  /** An order that cannot be closed stays active without a task. */
  lemma UnclosedIsNotReady(m: Machine, t: Trigger, rule: Rule)
    requires Ready(m, [t]) && rule in Table(t, m.state) && Closes(rule.effect) && m.who.Some?
    requires NeedsTask(rule.effect) ==> m.wht.Some?
    ensures !Ready(Dequeued(BeforeClosing(m, rule.effect)), [])
  {
    BeforeClosingKeeps(m, rule.effect);
    assert MoveTrolley(m.state) && BeforeClosing(m, rule.effect).wht.None?;
  }

  /** A raise after the state change drops the triggers that were queued. */
  lemma RaisedWhileSaving(before: RobotState, n: Machine, t: Trigger, env: Env, raise: Option<Raise>)
    requires Arrive(before, n, t, env, raise).Raised?
    ensures var f := Arrive(before, n, t, env, None);
      && Raises(raise, Saving) && f.Fired? && f.m == Arrive(before, n, t, env, raise).m
      && |f.queued| <= 1 && f.queued != [CancelActiveMission]
  {
  }

  /** How the table leads to a source bin. */
  lemma TableToSource(m: Machine, t: Trigger, env: Env, rule: Rule)
    requires Ready(m, [t]) && rule in Table(t, m.state) && Holds(rule.guard, m, env)
    requires rule.dest == Some(MovingToSourceBin)
    ensures rule.effect in {SaveOrder, CountError, FinishTask}
    ensures rule.effect == SaveOrder <==> t.ProcessWarehouseOrder?
    ensures rule.effect != SaveOrder ==> m.who.Some?
    ensures rule.effect == FinishTask ==> MoreWarehouseTasks(m)
  {
  }

  lemma TasksAheadAre(m: Machine, t: Trigger, e: Effect, n: Machine)
    requires e in {SaveOrder, CountError, FinishTask} && (e == SaveOrder <==> t.ProcessWarehouseOrder?)
    requires e != SaveOrder ==> m.who.Some?
    requires e == FinishTask ==> MoreWarehouseTasks(m) && m.wht.Some?
    requires n == Entering(m, t, e, MovingToSourceBin)
    ensures n.who.Some? && (n.who.value.tasks == [] <==> TasksAhead(m, t) == [])
  {
    if e == FinishTask {
      var x :| x in m.who.value.tasks && x.tanum != m.wht.value.tanum;
      assert x in n.who.value.tasks;
    }
  }

  lemma BeforeKeepsMission(m: Machine, t: Trigger, e: Effect)
    requires NeedsTask(e) ==> m.wht.Some?
    ensures Before(m, t, e).mission == m.mission
  {
  }

  /** A transition keeps the mission; only an order without tasks is aborted on entering a state. */
  lemma MovedIs(m: Machine, t: Trigger, env: Env, rule: Rule, n: Machine)
    requires Ready(m, [t]) && rule in Table(t, m.state) && Holds(rule.guard, m, env) && rule.dest.Some?
    requires (NeedsTask(rule.effect) ==> m.wht.Some?) && n == Entering(m, t, rule.effect, rule.dest.value)
    ensures n.state == rule.dest.value && n.mission == m.mission
    ensures n.state == MovingToSourceBin ==> n.who.Some? && (n.who.value.tasks == [] <==> TasksAhead(m, t) == [])
  {
    BeforeKeepsMission(m, t, rule.effect);
    if n.state == MovingToSourceBin {
      TableToSource(m, t, env, rule);
      TasksAheadAre(m, t, rule.effect, n);
    }
  }

  lemma ArrivedIs(before: RobotState, n: Machine, t: Trigger, env: Env, f: Fired)
    requires f == Arrive(before, n, t, env, None) && f.Fired?
    ensures f.m.state == n.state && f.m.mission == n.mission
    ensures Driving(n.state) ==>
              (f.queued == [WarehouseOrderAborted] <==>
               n.state == MovingToSourceBin && n.who.Some? && n.who.value.tasks == [])
  {
  }

  lemma SavingReadyIff(m: Machine, t: Trigger, env: Env, rule: Rule, raise: Option<Raise>, f: Fired)
    requires Ready(m, [t]) && FirstRule(Table(t, m.state), m, env) == Some(rule) && rule.dest.Some?
    requires (NeedsTask(rule.effect) ==> m.wht.Some?) && Raises(raise, Saving)
    requires f == Arrive(m.state, Entering(m, t, rule.effect, rule.dest.value), t, env, None)
    requires f.Fired? && Ready(f.m, f.queued) && |f.queued| <= 1 && f.queued != [CancelActiveMission]
    ensures Ready(f.m, []) <==> Harmless(m, t, env, raise)
  {
    var n := Entering(m, t, rule.effect, rule.dest.value);
    MovedIs(m, t, env, rule, n);
    ArrivedIs(m.state, n, t, env, f);
    ReadyMoves(f.m, f.queued);
    assert LeadsTo(m, t, env, rule.dest.value) && forall dest :: LeadsTo(m, t, env, dest) ==> dest == rule.dest.value;
  }

  /** A raising call leaves the machine consistent exactly when it is harmless. */
  lemma RaisedReadyIff(m: Machine, t: Trigger, env: Env, raise: Option<Raise>)
    requires Ready(m, [t]) && env.mission != "" && FireWith(m, t, env, raise).Raised?
    ensures Ready(FireWith(m, t, env, raise).m, []) <==> Harmless(m, t, env, raise)
  {
    TriggerProceeds(m, t, env);
    var rule := FirstRule(Table(t, m.state), m, env).value;
    if rule.dest.Some? {
      TableEquips(m, t, env, rule);
      if Interrupted(m, t, rule.effect, raise).Some? {
        InterruptedReadyIff(m, t, env, rule, raise);
      } else {
        RaisedWhileSaving(m.state, Entering(m, t, rule.effect, rule.dest.value), t, env, raise);
        SavingReadyIff(m, t, env, rule, raise, Fire(m, t, env));
      }
    }
  }

  /** The callback reaches a trigger in which a call raises and does harm. */
  predicate Harmed(m: Machine, pending: seq<Trigger>, env: Env, fault: Option<Fault>)
    requires Orderly(m, pending)
    decreases OpenOrders(m), PendingRank(pending, m.state)
  {
    pending != [] &&
    (DrainShrinks(m, pending, env, Now(fault));
     match FireWith(m, pending[0], env, Now(fault))
     case Raised(_) => !Harmless(m, pending[0], env, Now(fault))
     case Fired(n, queued) => Harmed(n, pending[1..] + queued, env, Later(fault))
     case _ => false)
  }

  lemma {:induction false} DrainReadyIff(m: Machine, pending: seq<Trigger>, env: Env, fault: Option<Fault>)
    requires Ready(m, pending) && Orderly(m, pending) && env.mission != ""
    ensures Drain(m, pending, env, fault).error != TypeError
    ensures Ready(Drain(m, pending, env, fault).m, []) <==> !Harmed(m, pending, env, fault)
    decreases OpenOrders(m), PendingRank(pending, m.state)
  {
    if pending != [] {
      DrainShrinks(m, pending, env, Now(fault));
      DrainReady(m, pending, env);
      FiresAlike(m, pending[0], env, Now(fault));
      match FireWith(m, pending[0], env, Now(fault)) {
        case Raised(_) =>
          if |pending| == 1 {
            assert pending == [pending[0]];
            RaisedReadyIff(m, pending[0], env, Now(fault));
          }
        case Fired(n, queued) => DrainReadyIff(n, pending[1..] + queued, env, Later(fault));
        case _ =>
      }
    }
  }

  /* ---------- Callbacks from outside ---------- */

  datatype MissionReport = Succeeded | Unsuccessful | Docking | Moving

  datatype Event =
    | MissionChanged(report: MissionReport)
    | RobotReported(battery: real)
    | RecoverRequested
    | ConfigurationChanged
    | OrderUpdated(order: Order, sequence: int)
    | OrderCompleted(id: string)
    | OrderDeleted(id: string)
    | TimedOut
    | StartedUp

  /** The robot waits for others to complete its order. */
  predicate Awaits(m: Machine, id: string) {
    m.state == WaitingForErrorRecovery && m.who.Some? && m.who.value.id == id
  }

  /** What follows when an order was put into the queue. */
  function AfterUpdate(m: Machine, order: Order, env: Env): (Machine, seq<Trigger>) {
    if m.who.None? then
      if env.mode != Run then (m, [])
      else if m.state == MovingToStaging || (m.state == Charging && env.battery >= env.batteryMin) then
        (m, [CancelActiveMission, ProcessWarehouseOrder(order)])
      else if IdleState(m.state) then (m, [ProcessWarehouseOrder(order)])
      else (m, [])
    else if order.id == m.who.value.id && order != m.who.value then (m.(who := Some(order)), [])
    else (m, [])
  }

  lemma EnqueuedContains(orders: seq<Queued>, q: Queued)
    ensures Contains(Enqueued(orders, q), q.order.id)
  {
    var updated := if Contains(orders, q.order.id) then Replaced(orders, q) else orders + [q];
    assert Contains(updated, q.order.id) by {
      if Contains(orders, q.order.id) {
        var i :| 0 <= i < |orders| && orders[i].order.id == q.order.id;
        assert Replaced(orders, q)[i] == q;
      } else {
        assert updated[|orders|] == q;
      }
    }
    SortKeepsElements(updated, (x: Queued) => x.sequence as real);
    var x :| x in updated && x.order.id == q.order.id;
    assert x in Enqueued(orders, q);
  }

  function Updated(m: Machine, order: Order, sequence: int): Machine {
    m.(orders := Enqueued(m.orders, Queued(order, sequence)))
  }

  /** What a callback from outside changes itself, and which triggers it fires then. */
  function Prepare(m: Machine, e: Event, env: Env): (r: (Machine, seq<Trigger>))
    ensures r.0.errors == m.errors && r.0.log == m.log && r.0.state == m.state
  {
    match e
    case MissionChanged(report) =>
      if m.mission == "" then (m, [])
      else
        (match report
         case Succeeded => (m.(mission := ""), [MissionSucceeded])
         case Unsuccessful => (m.(mission := ""), [MissionFailed])
         case Docking => (m, [MissionDocking])
         case Moving => (m, []))
    case RobotReported(battery) =>
      if m.state == AtStaging && battery < env.batteryIdle then (m, [ChargeBattery])
      else if m.state in {MovingToStaging, RobotError} && battery < env.batteryMin then
        (m, [CancelActiveMission, ChargeBattery])
      else if m.state == Charging && m.orders != [] && battery > env.batteryMin then
        (m, [CancelActiveMission, ProcessWarehouseOrder(m.orders[0].order)])
      else (m, [])
    case RecoverRequested => (m, if ErrorState(m.state) then [RecoverRobot] else [])
    case ConfigurationChanged =>
      if env.mode != Run then (m, [])
      else if m.state == AtStaging then (m, [StagingTimeout])
      else if m.state == Charging && env.battery >= env.batteryOk then (m, [CancelActiveMission, ChargingCanceled])
      else (m, [])
    case OrderUpdated(order, sequence) => AfterUpdate(Updated(m, order, sequence), order, env)
    case OrderCompleted(id) => (m, if Awaits(m, id) then [WarehouseOrderConfirmed] else [])
    case OrderDeleted(id) =>
      (m.(orders := Without(m.orders, id)), if Awaits(m, id) then [WarehouseOrderConfirmed] else [])
    case TimedOut => (m, if m.state == Idle then [GoStaging] else if m.state == AtStaging then [StagingTimeout] else [])
    case StartedUp => (m, [StartFreshMachine])
  }

  lemma UpdateKeeps(m: Machine, order: Order, sequence: int, env: Env)
    ensures var (n, pending) := AfterUpdate(Updated(m, order, sequence), order, env);
      && (Orderly(m, []) ==> Orderly(n, pending))
      && (Ready(m, []) ==> Ready(n, []) && Ready(n, pending))
  {
    EnqueuedContains(m.orders, Queued(order, sequence));
    var (n, pending) := AfterUpdate(Updated(m, order, sequence), order, env);
    assert n.orders == Updated(m, order, sequence).orders;
  }

  lemma PrepareKeeps(m: Machine, e: Event, env: Env)
    ensures var (n, pending) := Prepare(m, e, env);
      && (Orderly(m, []) ==> Orderly(n, pending))
      && (Ready(m, []) ==> Ready(n, pending) && (e.OrderUpdated? ==> Ready(n, [])))
  {
    if e.OrderUpdated? {
      UpdateKeeps(m, e.order, e.sequence, env);
    } else if e.RobotReported? && m.orders != [] {
      assert m.orders[0] in m.orders;
    }
  }

  /**
   * One callback from outside, with everything it triggers. Putting an order into the queue is a
   * trigger itself, after which the state is saved.
   */
  function Callback(m: Machine, e: Event, env: Env, fault: Option<Fault>): (r: Result)
    requires Orderly(m, [])
    ensures Orderly(r.m, [])
  {
    PrepareKeeps(m, e, env);
    var (n, pending) := Prepare(m, e, env);
    if !e.OrderUpdated? then Drain(n, pending, env, fault)
    else if Raises(Now(fault), Saving) then Result(n, ApiError)
    else Drain(n, pending, env, Later(fault))
  }

  /** A call raises in the callback and does harm. */
  predicate Harms(m: Machine, e: Event, env: Env, fault: Option<Fault>)
    requires Orderly(m, [])
  {
    PrepareKeeps(m, e, env);
    var (n, pending) := Prepare(m, e, env);
    if !e.OrderUpdated? then Harmed(n, pending, env, fault)
    else !Raises(Now(fault), Saving) && Harmed(n, pending, env, Later(fault))
  }

  /** A callback keeps the machine consistent exactly when it does no harm; orders and tasks are never missing. */
  lemma CallbackReadyIff(m: Machine, e: Event, env: Env, fault: Option<Fault>)
    requires Ready(m, []) && Orderly(m, []) && env.mission != ""
    ensures Callback(m, e, env, fault).error != TypeError
    ensures Ready(Callback(m, e, env, fault).m, []) <==> !Harms(m, e, env, fault)
  {
    PrepareKeeps(m, e, env);
    var (n, pending) := Prepare(m, e, env);
    DrainReadyIff(n, pending, env, if e.OrderUpdated? then Later(fault) else fault);
  }

  lemma {:induction false} HarmRaises(m: Machine, pending: seq<Trigger>, env: Env, fault: Option<Fault>)
    requires Orderly(m, pending) && Harmed(m, pending, env, fault)
    ensures fault.Some? && Drain(m, pending, env, fault).error == ApiError
    decreases OpenOrders(m), PendingRank(pending, m.state)
  {
    DrainShrinks(m, pending, env, Now(fault));
    match FireWith(m, pending[0], env, Now(fault))
    case Fired(n, queued) => HarmRaises(n, pending[1..] + queued, env, Later(fault));
    case _ =>
  }
}
