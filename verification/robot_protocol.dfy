/**
 * The confirmation protocol of moveTrolley orders: which confirmations a robot sends for which
 * warehouse task, in which order, and when an order counts as successful.
 */
module RobotProtocol {
  import opened Common
  import opened StableSorting
  import opened RobotConfig
  import opened RobotMachine
  import opened RobotRuns

  /* ---------- The protocol as an automaton ---------- */

  /**
   * Where an order stands: `Picking` task k, `Placing` it after its first confirmation and so
   * many second confirmation errors, or `Refused` after a first confirmation error.
   */
  datatype Progress =
    | Between
    | Picking(order: Order, k: nat)
    | Placing(order: Order, k: nat, errors: nat)
    | Refused(order: Order, k: nat)
    | Broken

  function Advance(p: Progress, e: LogEntry): Progress {
    match p
    case Between => if e.Started? then Picking(e.order, 0) else Broken
    case Picking(o, k) =>
      (match e
       case Started(_) => Broken
       case Confirmed(tanum, number, success) =>
         if k < |o.tasks| && tanum == o.tasks[k].tanum && number == First then
           (if success then Placing(o, k, 0) else Refused(o, k))
         else Broken
       case Ended(id, success) => if id == o.id && k == |o.tasks| && (success <==> k > 0) then Between else Broken)
    case Placing(o, k, errors) =>
      (match e
       case Started(_) => Broken
       case Confirmed(tanum, number, success) =>
         if k < |o.tasks| && tanum == o.tasks[k].tanum && number == Second then
           (if success then Picking(o, k + 1) else Placing(o, k, errors + 1))
         else Broken
       case Ended(id, success) => if id == o.id && !success && errors > 0 then Between else Broken)
    case Refused(o, _) => if e.Ended? && e.id == o.id && !e.success then Between else Broken
    case Broken => Broken
  }

  function Track(p: Progress, log: seq<LogEntry>): Progress {
    if log == [] then p else Advance(Track(p, log[..|log| - 1]), log[|log| - 1])
  }

  lemma TrackAppend(p: Progress, log: seq<LogEntry>, e: LogEntry)
    ensures Track(p, log + [e]) == Advance(Track(p, log), e)
  {
    assert (log + [e])[..|log|] == log;
  }

  lemma TrackTwo(p: Progress, log: seq<LogEntry>, d: LogEntry, e: LogEntry)
    ensures Track(p, log + [d] + [e]) == Advance(Advance(Track(p, log), d), e)
  {
    TrackAppend(p, log, d);
    TrackAppend(p, log + [d], e);
  }

  /* ---------- The machine follows it ---------- */

  ghost predicate DifferentTasks(tasks: seq<Task>) {
    forall i, j | 0 <= i < j < |tasks| :: tasks[i].tanum != tasks[j].tanum
  }

  ghost predicate AllDifferent(orders: seq<Queued>) {
    forall q :: q in orders ==> DifferentTasks(q.order.tasks)
  }

  /** The active order still has the tasks from k on; only their source bins may be cleared. */
  ghost predicate Remaining(m: Machine, o: Order, k: nat) {
    && m.who.Some? && m.who.value.id == o.id && DifferentTasks(o.tasks) && k <= |o.tasks|
    && |m.who.value.tasks| == |o.tasks| - k
    && forall i :: 0 <= i < |m.who.value.tasks| ==> m.who.value.tasks[i].tanum == o.tasks[k + i].tanum
  }

  /** The active task is the first one of those that remain. */
  ghost predicate OnTask(m: Machine, o: Order, k: nat) {
    Remaining(m, o, k) && k < |o.tasks| && m.wht.Some? && m.wht.value.tanum == o.tasks[k].tanum
  }

  /** An order without tasks has no active task. */
  ghost predicate PickingUp(m: Machine, p: Progress) {
    p.Picking? && Remaining(m, p.order, p.k)
    && if p.k < |p.order.tasks| then OnTask(m, p.order, p.k) else p.k == 0 && m.wht.None?
  }

  /** The state of the machine agrees with what its log says. */
  ghost predicate Agrees(m: Machine, p: Progress) {
    match m.state
    case MovingToSourceBin => PickingUp(m, p)
    case LoadingTrolley => PickingUp(m, p)
    case MovingToTargetBin => p.Placing? && OnTask(m, p.order, p.k)
    case UnloadingTrolley => p.Placing? && OnTask(m, p.order, p.k)
    case WaitingForErrorRecovery => p.Placing? && p.errors > 0 && OnTask(m, p.order, p.k)
    case _ => p == Between
  }

  ghost predicate Follows(m: Machine) {
    AllDifferent(m.orders) && Agrees(m, Track(Between, m.log))
  }

  /** An order without tasks is aborted; an order to be taken up has different tasks, and no other one is in process. */
  ghost predicate Proper(m: Machine, pending: seq<Trigger>) {
    && (WarehouseOrderAborted in pending ==> m.wht.None?)
    && (forall t :: t in pending && t.ProcessWarehouseOrder? ==> DifferentTasks(t.order.tasks) && !MoveTrolley(m.state))
  }

  lemma NextWorkIsProper(m: Machine, env: Env)
    requires AllDifferent(m.orders) && IdleState(m.state)
    ensures Proper(m, WhatsNext(m, env))
  {
    if m.orders != [] {
      assert m.orders[0] in m.orders;
    }
  }

  /** Finishing the first of the remaining tasks leaves the others. */
  lemma {:induction false} WithoutFirst(tasks: seq<Task>, tanum: string)
    requires tanum !in set t | t in tasks :: t.tanum
    ensures WithoutTask(tasks, tanum) == tasks
  {
    if tasks != [] {
      assert tasks[0] in tasks;
      assert forall t :: t in tasks[1..] ==> t in tasks;
      WithoutFirst(tasks[1..], tanum);
    }
  }

  lemma ClosingTask(m: Machine, o: Order, k: nat)
    requires OnTask(m, o, k)
    ensures Remaining(CloseWht(m), o, k + 1)
    ensures MoreWarehouseTasks(m) <==> k + 1 < |o.tasks|
  {
    var tasks, tanum := m.who.value.tasks, m.wht.value.tanum;
    forall i | 0 < i < |tasks| ensures tasks[i].tanum != tanum {
      assert o.tasks[k].tanum != o.tasks[k + i].tanum;
    }
    assert tasks[0].tanum == tanum;
    WithoutFirst(tasks[1..], tanum);
    assert WithoutTask(tasks, tanum) == tasks[1..];
    if |tasks| > 1 {
      assert tasks[1] in tasks;
    }
  }

  /** What the log has to say for a state to be entered. */
  ghost predicate Enterable(m: Machine, t: Trigger) {
    var p := Track(Between, m.log);
    && AllDifferent(m.orders) && (t.ProcessWarehouseOrder? <==> m.state == MovingToSourceBin && p == Between)
    && match m.state
       case MovingToSourceBin =>
         if t.ProcessWarehouseOrder? then m.who == Some(t.order) && DifferentTasks(t.order.tasks)
         else p.Picking? && Remaining(m, p.order, p.k) && (p.k < |p.order.tasks| || p.k == 0)
       case _ => Agrees(m, p)
  }

  /** Agreement on the first of the remaining tasks. */
  lemma AgreesOnSource(m: Machine, o: Order, k: nat)
    requires m.state == MovingToSourceBin && Remaining(m, o, k) && (k < |o.tasks| || k == 0)
    requires m.wht == if m.who.value.tasks == [] then None else Some(m.who.value.tasks[0])
    ensures Agrees(m, Picking(o, k))
  {
  }

  /** Starting an order is logged after the first warehouse task became the active one. */
  lemma SourceKeeps(before: RobotState, m: Machine, t: Trigger, env: Env)
    requires m.state == MovingToSourceBin && Enterable(m, t)
    ensures var e := OnEnter(m, t, env);
      e.Entered? && Follows(After(before, e.m, t)) && Proper(After(before, e.m, t), e.queued)
  {
    SourceEnters(m, t, env);
    var e := OnEnter(m, t, env);
    FirstTaskFollows(m, e.m, t, After(before, e.m, t));
  }

  /** The first warehouse task becomes the active one; an order without tasks is given up. */
  lemma SourceEnters(m: Machine, t: Trigger, env: Env)
    requires m.state == MovingToSourceBin && m.who.Some?
    ensures var e, tasks := OnEnter(m, t, env), m.who.value.tasks;
      && e.Entered? && e.m == m.(wht := if tasks == [] then None else Some(tasks[0]))
      && (WarehouseOrderAborted in e.queued ==> tasks == []) && forall u :: u in e.queued ==> !u.ProcessWarehouseOrder?
  {
  }

  lemma FirstTaskFollows(m: Machine, n: Machine, t: Trigger, after: Machine)
    requires m.state == MovingToSourceBin && Enterable(m, t) && m.who.Some?
    requires n == m.(wht := if m.who.value.tasks == [] then None else Some(m.who.value.tasks[0]))
    requires after.(errors := n.errors) == if t.ProcessWarehouseOrder? then n.(log := n.log + [Started(t.order)]) else n
    ensures Follows(after)
  {
    if t.ProcessWarehouseOrder? {
      AgreesOnSource(n, t.order, 0);
      StartFollows(after, m.log, t.order);
    } else {
      var p := Track(Between, m.log);
      AgreesOnSource(n, p.order, p.k);
      SameFollows(n, after);
    }
  }

  lemma StartFollows(n: Machine, log: seq<LogEntry>, o: Order)
    requires AllDifferent(n.orders) && Agrees(n, Picking(o, 0)) && n.log == log + [Started(o)]
    requires Track(Between, log) == Between
    ensures Follows(n)
  {
    TrackAppend(Between, log, Started(o));
  }

  /** Counters and missions do not matter to the protocol. */
  lemma SameFollows(m: Machine, n: Machine)
    requires Follows(m) && n.state == m.state && n.who == m.who && n.wht == m.wht && n.orders == m.orders
    requires n.log == m.log
    ensures Follows(n)
  {
  }

  lemma IdleKeeps(before: RobotState, m: Machine, t: Trigger, env: Env)
    requires IdleState(m.state) && Enterable(m, t)
    ensures var e := OnEnter(m, t, env);
      e.Entered? && Follows(After(before, e.m, t)) && Proper(After(before, e.m, t), e.queued)
  {
    NextWorkIsProper(OnEnter(m, t, env).m, env);
  }

  lemma TaskKeeps(before: RobotState, m: Machine, t: Trigger, env: Env)
    requires m.state != MovingToSourceBin && !IdleState(m.state) && Enterable(m, t)
    ensures var e := OnEnter(m, t, env);
      && (e.Entered? ==> Follows(After(before, e.m, t)) && Proper(After(before, e.m, t), e.queued))
      && (e.EnterFailed? ==> Follows(e.m))
  {
    var e := OnEnter(m, t, env);
    SameFollows(m, e.m);
    SameFollows(m, After(before, e.m, t));
  }

  /** What a fired trigger leaves behind keeps to the protocol, also when it ended half way. */
  ghost predicate Keeps(f: Fired) {
    !f.Rejected? ==> Follows(f.m) && (f.Fired? ==> Proper(f.m, f.queued))
  }

  lemma ArrivalKeeps(before: RobotState, m: Machine, t: Trigger, env: Env, raise: Option<Raise>)
    requires Enterable(m, t)
    ensures Keeps(Arrive(before, m, t, env, raise)) && (raise.None? ==> !Arrive(before, m, t, env, raise).Raised?)
  {
    if m.state == MovingToSourceBin {
      SourceKeeps(before, m, t, env);
    } else if IdleState(m.state) {
      IdleKeeps(before, m, t, env);
    } else {
      TaskKeeps(before, m, t, env);
    }
  }

  /* ---------- Every trigger keeps to it ---------- */

  /** The log after the order in process was closed. */
  lemma CloseLogs(m: Machine, t: Trigger, e: Effect)
    requires e in {AbortOrder, FailPickup, FinishOrder, GiveUpOrder} && m.who.Some? && (NeedsTask(e) ==> m.wht.Some?)
    ensures Before(m, t, e).log ==
      match e
      case FailPickup => m.log + [Confirmed(m.wht.value.tanum, First, false)] + [Ended(m.who.value.id, false)]
      case FinishOrder => m.log + [Confirmed(m.wht.value.tanum, Second, true)] + [Ended(m.who.value.id, true)]
      case _ => m.log + [Ended(m.who.value.id, false)]
    ensures forall q :: q in Before(m, t, e).orders ==> q in m.orders
  {
  }

  /** The order may be closed in this way. */
  predicate MayClose(m: Machine, e: Effect) {
    && m.who.Some? && (NeedsTask(e) ==> m.wht.Some?)
    && match e
       case AbortOrder => m.state == MovingToSourceBin && m.wht.None?
       case FailPickup => Pickup(m.state)
       case FinishOrder => m.state == UnloadingTrolley && !MoreWarehouseTasks(m)
       case GiveUpOrder => m.state == WaitingForErrorRecovery
       case _ => false
  }

  lemma FailPickupTracks(m: Machine, t: Trigger)
    requires Follows(m) && MayClose(m, FailPickup)
    ensures Track(Between, Before(m, t, FailPickup).log) == Between
  {
    CloseLogs(m, t, FailPickup);
    TrackTwo(Between, m.log, Confirmed(m.wht.value.tanum, First, false), Ended(m.who.value.id, false));
  }

  lemma FinishOrderTracks(m: Machine, t: Trigger)
    requires Follows(m) && MayClose(m, FinishOrder)
    ensures Track(Between, Before(m, t, FinishOrder).log) == Between
  {
    FinishEnds(m);
    CloseLogs(m, t, FinishOrder);
    TrackTwo(Between, m.log, Confirmed(m.wht.value.tanum, Second, true), Ended(m.who.value.id, true));
  }

  /** The order of the last task may end with success. */
  lemma FinishEnds(m: Machine)
    requires Follows(m) && MayClose(m, FinishOrder)
    ensures Advance(Advance(Track(Between, m.log), Confirmed(m.wht.value.tanum, Second, true)),
                    Ended(m.who.value.id, true)) == Between
  {
    var p := Track(Between, m.log);
    ClosingTask(m, p.order, p.k);
  }

  /** An order given up may end without success. */
  lemma GiveUpEnds(m: Machine, e: Effect)
    requires Follows(m) && MayClose(m, e) && e in {AbortOrder, GiveUpOrder}
    ensures Advance(Track(Between, m.log), Ended(m.who.value.id, false)) == Between
  {
  }

  lemma GiveUpTracks(m: Machine, t: Trigger, e: Effect)
    requires Follows(m) && MayClose(m, e) && e in {AbortOrder, GiveUpOrder}
    ensures Track(Between, Before(m, t, e).log) == Between
  {
    GiveUpEnds(m, e);
    CloseLogs(m, t, e);
    TrackAppend(Between, m.log, Ended(m.who.value.id, false));
  }

  /** Closing an order as the table foresees it ends its protocol properly. */
  lemma ClosingEnters(m: Machine, t: Trigger, e: Effect)
    requires Follows(m) && MayClose(m, e) && !t.ProcessWarehouseOrder?
    ensures Enterable(Entering(m, t, e, Idle), t)
  {
    match e {
      case FailPickup => FailPickupTracks(m, t);
      case FinishOrder => FinishOrderTracks(m, t);
      case _ => GiveUpTracks(m, t, e);
    }
    CloseLogs(m, t, e);
  }

  lemma NextTaskEnters(m: Machine, t: Trigger, o: Order, k: nat)
    requires Track(Between, m.log).Placing? && Track(Between, m.log).order == o && Track(Between, m.log).k == k
    requires OnTask(m, o, k) && AllDifferent(m.orders) && MoreWarehouseTasks(m)
    ensures var n := Entering(m, t, FinishTask, MovingToSourceBin);
      && AllDifferent(n.orders) && Remaining(n, o, k + 1) && k + 1 < |o.tasks|
      && Track(Between, n.log) == Picking(o, k + 1)
  {
    ClosingTask(m, o, k);
    TrackAppend(Between, m.log, Confirmed(m.wht.value.tanum, Second, true));
    var n := Entering(m, t, FinishTask, MovingToSourceBin);
    assert n.who == CloseWht(m).who;
  }

  lemma ConfirmedFollows(m: Machine, n: Machine, e: LogEntry, p: Progress)
    requires AllDifferent(m.orders) && n.orders == m.orders && n.log == m.log + [e]
    requires Advance(Track(Between, m.log), e) == p && Agrees(n, p)
    ensures Follows(n)
  {
    TrackAppend(Between, m.log, e);
  }

  lemma PickedUpEnters(m: Machine, t: Trigger)
    requires Follows(m) && m.state == LoadingTrolley && m.wht.Some? && !t.ProcessWarehouseOrder?
    ensures Enterable(Entering(m, t, PickedUp, MovingToTargetBin), t)
  {
    var p, n := Track(Between, m.log), Entering(m, t, PickedUp, MovingToTargetBin);
    assert OnTask(n, p.order, p.k);
    ConfirmedFollows(m, n, Confirmed(m.wht.value.tanum, First, true), Placing(p.order, p.k, 0));
  }

  lemma FailReturnEnters(m: Machine, t: Trigger)
    requires Follows(m) && m.state in {MovingToTargetBin, UnloadingTrolley} && !t.ProcessWarehouseOrder?
    ensures Enterable(Entering(m, t, FailReturn, WaitingForErrorRecovery), t)
  {
    var p, n := Track(Between, m.log), Entering(m, t, FailReturn, WaitingForErrorRecovery);
    assert OnTask(n, p.order, p.k);
    ConfirmedFollows(m, n, Confirmed(m.wht.value.tanum, Second, false), Placing(p.order, p.k, p.errors + 1));
  }

  /** The rule is one of the table's for a trigger that may come now, and can be carried out. */
  ghost predicate Applies(m: Machine, t: Trigger, env: Env, rule: Rule) {
    && Orderly(m, [t]) && Proper(m, [t]) && rule in Table(t, m.state) && Holds(rule.guard, m, env)
    && rule.dest.Some? && (NeedsTask(rule.effect) ==> m.wht.Some?)
  }

  /** Where and when the table closes orders, sends confirmations and takes up orders. */
  lemma TableProper(m: Machine, t: Trigger, env: Env, rule: Rule)
    requires Applies(m, t, env, rule)
    ensures Closes(rule.effect) ==> rule.dest.value == Idle && MayClose(m, rule.effect)
    ensures rule.effect == PickedUp ==> m.state == LoadingTrolley && rule.dest.value == MovingToTargetBin
    ensures rule.effect == FailReturn ==>
              m.state in {MovingToTargetBin, UnloadingTrolley} && rule.dest.value == WaitingForErrorRecovery
    ensures rule.effect == FinishTask ==>
              m.state == UnloadingTrolley && rule.dest.value == MovingToSourceBin && MoreWarehouseTasks(m)
    ensures rule.effect == SaveOrder <==> t.ProcessWarehouseOrder?
    ensures rule.effect == SaveOrder ==>
              !MoveTrolley(m.state) && rule.dest.value == MovingToSourceBin && DifferentTasks(t.order.tasks)
    ensures rule.effect in {Nothing, CountError} ==> GoesTo(m.state, rule.dest.value)
  {
    TableConfirms(m, t, env, rule);
    assert t in [t];
  }

  lemma TableConfirms(m: Machine, t: Trigger, env: Env, rule: Rule)
    requires Orderly(m, [t]) && rule in Table(t, m.state) && Holds(rule.guard, m, env) && rule.dest.Some?
    ensures rule.effect == PickedUp ==> m.state == LoadingTrolley && rule.dest.value == MovingToTargetBin
    ensures rule.effect == FailReturn ==>
              m.state in {MovingToTargetBin, UnloadingTrolley} && rule.dest.value == WaitingForErrorRecovery
    ensures rule.effect == FinishTask ==>
              m.state == UnloadingTrolley && rule.dest.value == MovingToSourceBin && MoreWarehouseTasks(m)
    ensures rule.effect in {Nothing, CountError} ==> GoesTo(m.state, rule.dest.value)
  {
  }

  /** Transitions that confirm nothing. */
  predicate GoesTo(s: RobotState, dest: RobotState) {
    match dest
    case MovingToSourceBin => Pickup(s)
    case LoadingTrolley => s == MovingToSourceBin
    case MovingToTargetBin => s in {MovingToTargetBin, UnloadingTrolley, WaitingForErrorRecovery}
    case UnloadingTrolley => s == MovingToTargetBin
    case WaitingForErrorRecovery => false
    case _ => !MoveTrolley(s)
  }

  lemma QuietlyEnters(m: Machine, t: Trigger, e: Effect, dest: RobotState)
    requires Follows(m) && e in {Nothing, CountError} && GoesTo(m.state, dest) && !t.ProcessWarehouseOrder?
    requires Modelled(m.state)
    ensures Enterable(Entering(m, t, e, dest), t)
  {
  }

  lemma SavingEnters(m: Machine, t: Trigger)
    requires Follows(m) && !MoveTrolley(m.state) && t.ProcessWarehouseOrder? && DifferentTasks(t.order.tasks)
    ensures Enterable(Entering(m, t, SaveOrder, MovingToSourceBin), t)
  {
  }

  /** Every transition of the table enters a state for which the log is right. */
  lemma RuleEnters(m: Machine, t: Trigger, env: Env, rule: Rule)
    requires Follows(m) && Applies(m, t, env, rule)
    ensures Enterable(Entering(m, t, rule.effect, rule.dest.value), t)
  {
    TableProper(m, t, env, rule);
    match rule.effect
    case PickedUp => PickedUpEnters(m, t);
    case FailReturn => FailReturnEnters(m, t);
    case FinishTask => FinishTaskEnters(m, t);
    case SaveOrder => SavingEnters(m, t);
    case Nothing => QuietlyEnters(m, t, Nothing, rule.dest.value);
    case CountError => QuietlyEnters(m, t, CountError, rule.dest.value);
    case _ => ClosingEnters(m, t, rule.effect);
  }

  lemma FinishTaskEnters(m: Machine, t: Trigger)
    requires Follows(m) && m.state == UnloadingTrolley && MoreWarehouseTasks(m) && !t.ProcessWarehouseOrder?
    ensures m.wht.Some? && Enterable(Entering(m, t, FinishTask, MovingToSourceBin), t)
  {
    var p := Track(Between, m.log);
    assert p.Placing? && OnTask(m, p.order, p.k);
    NextTaskEnters(m, t, p.order, p.k);
    EntersNextTask(Entering(m, t, FinishTask, MovingToSourceBin), t, p.order, p.k + 1);
  }

  lemma EntersNextTask(n: Machine, t: Trigger, o: Order, k: nat)
    requires n.state == MovingToSourceBin && !t.ProcessWarehouseOrder? && AllDifferent(n.orders)
    requires Track(Between, n.log) == Picking(o, k) && Remaining(n, o, k) && k < |o.tasks|
    ensures Enterable(n, t)
  {
  }

  /** Every trigger of a machine that keeps to the protocol keeps to it, unless a call raises. */
  lemma TriggerKeeps(m: Machine, t: Trigger, env: Env)
    requires Orderly(m, [t]) && Follows(m) && Proper(m, [t])
    ensures Keeps(Fire(m, t, env)) && !Fire(m, t, env).Raised?
  {
    var rule := FirstRule(Table(t, m.state), m, env);
    if rule.Some? {
      RuleKeeps(m, t, env, rule.value);
    }
  }

  lemma RuleKeeps(m: Machine, t: Trigger, env: Env, rule: Rule)
    requires Orderly(m, [t]) && Follows(m) && Proper(m, [t]) && rule in Table(t, m.state) && Holds(rule.guard, m, env)
    ensures Keeps(Execute(m, t, rule, env, None)) && !Execute(m, t, rule, env, None).Raised?
  {
    if rule.dest.None? {
      SameFollows(m, Internally(m, t, env));
    } else if NeedsTask(rule.effect) ==> m.wht.Some? {
      ExecuteMoves(m, t, rule, env, None);
      RuleEnters(m, t, env, rule);
      MoveKeeps(m.state, Entering(m, t, rule.effect, rule.dest.value), t, env, Execute(m, t, rule, env, None));
    }
  }

  lemma MoveKeeps(before: RobotState, n: Machine, t: Trigger, env: Env, f: Fired)
    requires Enterable(n, t) && f == Arrive(before, n, t, env, None)
    ensures Keeps(f) && !f.Raised?
  {
    ArrivalKeeps(before, n, t, env, None);
  }

  /* ---------- Calls that raise ---------- */

  /**
   * The raise puts log and machine apart: an order is ended but stays active, or a confirmation is
   * recorded although its call failed, while the robot can still go on. It cannot when it is
   * driving without a mission, and another second confirmation error is nothing new.
   */
  predicate Taints(m: Machine, t: Trigger, raise: Option<Raise>) {
    || (Raises(raise, Closing) && !Stuck(m))
    || (Raises(raise, Confirming) && raise.value.recorded && m.mission != "" && !FailsReturn(m, t))
  }

  predicate FailsReturn(m: Machine, t: Trigger) {
    t == MissionFailed && !Pickup(m.state)
  }

  /** The log is that of orders processed properly, and it agrees with the machine unless that is stuck. */
  ghost predicate Sound(m: Machine) {
    Track(Between, m.log) != Broken && (Follows(m) || Stuck(m))
  }

  lemma FollowingIsSound(m: Machine)
    requires Follows(m)
    ensures Sound(m)
  {
  }

  /** An order that cannot be closed is ended in the log but still active. */
  lemma UnclosedIsSoundIff(m: Machine, t: Trigger, e: Effect)
    requires Follows(m) && Modelled(m.state) && Closes(e) && MayClose(m, e)
    ensures Sound(Dequeued(BeforeClosing(m, e))) <==> Stuck(m)
  {
    UnclosedTracks(m, t, e);
    BeforeClosingKeeps(m, e);
    BeforeClosingKeepsMission(m, e);
    EndedIsSoundIff(m, Dequeued(BeforeClosing(m, e)));
  }

  lemma UnclosedTracks(m: Machine, t: Trigger, e: Effect)
    requires Follows(m) && Closes(e) && MayClose(m, e)
    ensures Track(Between, BeforeClosing(m, e).log) == Between
  {
    ClosingInterrupted(m, t, e, None);
    match e
    case FailPickup => FailPickupTracks(m, t);
    case FinishOrder => FinishOrderTracks(m, t);
    case _ => GiveUpTracks(m, t, e);
  }

  /** Between two orders no moveTrolley state agrees with the log. */
  lemma EndedIsSoundIff(m: Machine, n: Machine)
    requires MoveTrolley(n.state) && n.state == m.state && n.mission == m.mission && Track(Between, n.log) == Between
    ensures Sound(n) <==> Stuck(m)
  {
  }

  lemma BeforeClosingKeepsMission(m: Machine, e: Effect)
    requires Closes(e) && (NeedsTask(e) ==> m.wht.Some?)
    ensures BeforeClosing(m, e).mission == m.mission
  {
  }

  /** Confirmations are made while the robot drives; the return of a task fails with its mission. */
  lemma TableConfirming(m: Machine, t: Trigger, env: Env, rule: Rule)
    requires Applies(m, t, env, rule) && NeedsTask(rule.effect)
    ensures Driving(m.state) && (rule.effect == FailReturn <==> FailsReturn(m, t))
  {
  }

  /** Where the log stands after the confirmation with which an effect begins. */
  lemma ConfirmationTracks(m: Machine, e: Effect)
    requires Follows(m) && NeedsTask(e) && m.wht.Some?
    requires e in {PickedUp, FailPickup} ==> Pickup(m.state)
    requires e in {FailReturn, FinishTask, FinishOrder} ==> m.state in {MovingToTargetBin, UnloadingTrolley}
    ensures var p := Track(Between, ConfirmFor(m, e).log);
      match e
      case PickedUp => p.Placing?
      case FailPickup => p.Refused?
      case FailReturn => p.Placing? && Track(Between, m.log).Placing? && p.order == Track(Between, m.log).order
                         && p.k == Track(Between, m.log).k
      case _ => p.Picking?
  {
    TrackAppend(Between, m.log, ConfirmFor(m, e).log[|m.log|]);
  }

  /** A confirmation that is recorded although its call raised. */
  lemma RecordedIsSoundIff(m: Machine, t: Trigger, env: Env, rule: Rule)
    requires Follows(m) && Applies(m, t, env, rule) && NeedsTask(rule.effect)
    ensures Sound(ConfirmFor(m, rule.effect)) <==> m.mission == "" || FailsReturn(m, t)
  {
    TableProper(m, t, env, rule);
    TableConfirming(m, t, env, rule);
    ConfirmingFollowsIff(m, rule.effect);
  }

  /** Only a second confirmation error leaves log and state in agreement. */
  lemma ConfirmingFollowsIff(m: Machine, e: Effect)
    requires Follows(m) && NeedsTask(e) && m.wht.Some?
    requires e in {PickedUp, FailPickup} ==> Pickup(m.state)
    requires e in {FailReturn, FinishTask, FinishOrder} ==> m.state in {MovingToTargetBin, UnloadingTrolley}
    ensures Track(Between, ConfirmFor(m, e).log) != Broken && (Follows(ConfirmFor(m, e)) <==> e == FailReturn)
  {
    ConfirmationTracks(m, e);
  }

  lemma InterruptedIsSoundIff(m: Machine, t: Trigger, env: Env, rule: Rule, raise: Option<Raise>)
    requires Follows(m) && Applies(m, t, env, rule) && Interrupted(m, t, rule.effect, raise).Some?
    ensures Sound(Interrupted(m, t, rule.effect, raise).value) <==> !Taints(m, t, raise)
  {
    TableProper(m, t, env, rule);
    if Raises(raise, Confirming) && raise.value.recorded {
      RecordedIsSoundIff(m, t, env, rule);
    } else if Raises(raise, Closing) {
      UnclosedIsSoundIff(m, t, rule.effect);
    } else {
      FollowingIsSound(m);
      assert Raises(raise, Finalizing) ==> Follows(m.(who := Some(t.order)));
    }
  }

  /** A raising call leaves a sound log exactly when it does not taint it. */
  lemma RaisedIsSoundIff(m: Machine, t: Trigger, env: Env, raise: Option<Raise>)
    requires Orderly(m, [t]) && Follows(m) && Proper(m, [t]) && FireWith(m, t, env, raise).Raised?
    ensures Sound(FireWith(m, t, env, raise).m) <==> !Taints(m, t, raise)
  {
    RuleRaisesSoundIff(m, t, env, FirstRule(Table(t, m.state), m, env).value, raise);
  }

  lemma RuleRaisesSoundIff(m: Machine, t: Trigger, env: Env, rule: Rule, raise: Option<Raise>)
    requires Orderly(m, [t]) && Follows(m) && Proper(m, [t]) && rule in Table(t, m.state) && Holds(rule.guard, m, env)
    requires Execute(m, t, rule, env, raise).Raised?
    ensures Sound(Execute(m, t, rule, env, raise).m) <==> !Taints(m, t, raise)
  {
    if rule.dest.None? {
      SameFollows(m, Execute(m, t, rule, env, raise).m);
    } else if Interrupted(m, t, rule.effect, raise).Some? {
      InterruptedIsSoundIff(m, t, env, rule, raise);
    } else {
      ExecuteMoves(m, t, rule, env, raise);
      RuleEnters(m, t, env, rule);
      MovedIsSound(m.state, Entering(m, t, rule.effect, rule.dest.value), t, env, raise);
    }
  }

  /** After the state change only saving can raise. */
  lemma MovedIsSound(before: RobotState, n: Machine, t: Trigger, env: Env, raise: Option<Raise>)
    requires Enterable(n, t) && Arrive(before, n, t, env, raise).Raised?
    ensures Sound(Arrive(before, n, t, env, raise).m) && Raises(raise, Saving)
  {
    ArrivalKeeps(before, n, t, env, raise);
    FollowingIsSound(Arrive(before, n, t, env, raise).m);
  }

  /** The callback reaches a trigger in which a call raises and taints the log. */
  predicate Tainted(m: Machine, pending: seq<Trigger>, env: Env, fault: Option<Fault>)
    requires Orderly(m, pending)
    decreases OpenOrders(m), PendingRank(pending, m.state)
  {
    pending != [] &&
    (DrainShrinks(m, pending, env, Now(fault));
     match FireWith(m, pending[0], env, Now(fault))
     case Raised(_) => Taints(m, pending[0], Now(fault))
     case Fired(n, queued) => Tainted(n, pending[1..] + queued, env, Later(fault))
     case _ => false)
  }

  lemma {:induction false} DrainIsSoundIff(m: Machine, pending: seq<Trigger>, env: Env, fault: Option<Fault>)
    requires Orderly(m, pending) && Follows(m) && Proper(m, pending)
    ensures Sound(Drain(m, pending, env, fault).m) <==> !Tainted(m, pending, env, fault)
    decreases OpenOrders(m), PendingRank(pending, m.state)
  {
    FollowingIsSound(m);
    if pending != [] {
      DrainShrinks(m, pending, env, Now(fault));
      FirstTrigger(m, pending, env, Now(fault));
      var f := FireWith(m, pending[0], env, Now(fault));
      if f.Fired? {
        DrainIsSoundIff(f.m, pending[1..] + f.queued, env, Later(fault));
      } else if f.Failed? {
        FollowingIsSound(f.m);
      }
    }
  }

  /** What the first of the waiting triggers leaves behind. */
  lemma FirstTrigger(m: Machine, pending: seq<Trigger>, env: Env, raise: Option<Raise>)
    requires pending != [] && Orderly(m, pending) && Follows(m) && Proper(m, pending)
    ensures var f := FireWith(m, pending[0], env, raise);
      && (f.Fired? ==> Follows(f.m) && Proper(f.m, pending[1..] + f.queued))
      && (f.Failed? ==> Follows(f.m)) && (f.Raised? ==> (Sound(f.m) <==> !Taints(m, pending[0], raise)))
  {
    var t := pending[0];
    assert t in pending;
    if |pending| == 1 {
      assert pending == [t];
      assert forall queued: seq<Trigger> :: pending[1..] + queued == queued;
    } else {
      assert pending == [t, pending[1]] && pending[1..] + [] == [pending[1]];
      assert pending[1] in pending;
    }
    FiresAlike(m, t, env, raise);
    if FireWith(m, t, env, raise).Raised? {
      RaisedIsSoundIff(m, t, env, raise);
    } else {
      TriggerKeeps(m, t, env);
    }
  }

  /* ---------- Every run keeps to it ---------- */

  /** Only source bins and handling units of the tasks may differ. */
  predicate SameTasks(a: seq<Task>, b: seq<Task>) {
    |a| == |b| && forall i :: 0 <= i < |a| ==> a[i].tanum == b[i].tanum
  }

  /** Nobody changes the task list of the order in process, and the tasks of an order are different ones. */
  ghost predicate Undisturbed(m: Machine, e: Event) {
    e.OrderUpdated? ==>
      && DifferentTasks(e.order.tasks)
      && (m.who.Some? && MoveTrolley(m.state) && e.order.id == m.who.value.id ==>
            SameTasks(e.order.tasks, m.who.value.tasks))
  }

  /** A call of the callback raises in a way that taints the log. */
  predicate StepTaints(m: Machine, input: Input)
    requires Orderly(m, [])
  {
    PrepareKeeps(m, input.event, input.env);
    var (n, pending) := Prepare(m, input.event, input.env);
    if !input.event.OrderUpdated? then Tainted(n, pending, input.env, input.fault)
    else !Raises(Now(input.fault), Saving) && Tainted(n, pending, input.env, Later(input.fault))
  }

  /** Nobody changes the task lists of orders in process. */
  ghost predicate UndisturbedRun(inputs: seq<Input>) {
    inputs != [] ==>
      var init := inputs[..|inputs| - 1];
      UndisturbedRun(init) && Undisturbed(Reached(init), inputs[|inputs| - 1].event)
  }

  /** No callback of the run taints the log. */
  predicate NeverTainted(inputs: seq<Input>) {
    inputs != [] ==>
      var init := inputs[..|inputs| - 1];
      NeverTainted(init) && !StepTaints(Reached(init), inputs[|inputs| - 1])
  }

  /** The log was sound after every callback of the run. */
  ghost predicate AlwaysSound(inputs: seq<Input>) {
    Sound(Reached(inputs)) && (inputs != [] ==> AlwaysSound(inputs[..|inputs| - 1]))
  }

  lemma EnqueuedDifferent(orders: seq<Queued>, q: Queued)
    requires AllDifferent(orders) && DifferentTasks(q.order.tasks)
    ensures AllDifferent(Enqueued(orders, q))
  {
    var updated := if Contains(orders, q.order.id) then Replaced(orders, q) else orders + [q];
    SortKeepsElements(updated, (x: Queued) => x.sequence as real);
    forall x | x in updated ensures DifferentTasks(x.order.tasks) {
      assert x == q || x in orders;
    }
  }

  lemma UpdateFollows(m: Machine, order: Order, sequence: int, env: Env)
    requires Orderly(m, []) && Follows(m) && Undisturbed(m, OrderUpdated(order, sequence))
    ensures var (n, pending) := AfterUpdate(Updated(m, order, sequence), order, env);
      Follows(n) && Proper(n, pending)
  {
    EnqueuedDifferent(m.orders, Queued(order, sequence));
    var (n, pending) := AfterUpdate(Updated(m, order, sequence), order, env);
    if n.who == m.who {
      assert Agrees(n, Track(Between, n.log));
    } else {
      SameTasksAgree(m, n, Track(Between, m.log));
    }
  }

  /** The order in process may be replaced by one with the same task numbers. */
  lemma SameTasksAgree(m: Machine, n: Machine, p: Progress)
    requires Agrees(m, p) && n.state == m.state && n.wht == m.wht && m.who.Some? && n.who.Some?
    requires n.who.value.id == m.who.value.id
    requires MoveTrolley(m.state) ==> SameTasks(n.who.value.tasks, m.who.value.tasks)
    ensures Agrees(n, p)
  {
  }

  lemma PrepareFollows(m: Machine, e: Event, env: Env)
    requires Orderly(m, []) && Follows(m) && Undisturbed(m, e)
    ensures var (n, pending) := Prepare(m, e, env);
      Follows(n) && Proper(n, pending)
  {
    if e.OrderUpdated? {
      UpdateFollows(m, e.order, e.sequence, env);
    } else {
      OthersFollow(m, e, env);
    }
  }

  lemma OthersFollow(m: Machine, e: Event, env: Env)
    requires Orderly(m, []) && Follows(m) && !e.OrderUpdated?
    ensures var (n, pending) := Prepare(m, e, env);
      Follows(n) && Proper(n, pending)
  {
    var (n, pending) := Prepare(m, e, env);
    assert n.who == m.who && n.wht == m.wht && n.state == m.state && n.log == m.log;
    assert Agrees(n, Track(Between, n.log));
    forall t | t in pending && t.ProcessWarehouseOrder? ensures DifferentTasks(t.order.tasks) {
      assert m.orders[0] in m.orders;
    }
  }

  /** A callback leaves a sound log exactly when no call raises in a way that taints it. */
  lemma StepIsSoundIff(m: Machine, input: Input)
    requires Orderly(m, []) && Sound(m) && Undisturbed(m, input.event)
    ensures Sound(Step(m, input).m) <==> !StepTaints(m, input)
  {
    if Follows(m) {
      PrepareFollows(m, input.event, input.env);
      PrepareKeeps(m, input.event, input.env);
      var (n, pending) := Prepare(m, input.event, input.env);
      FollowingIsSound(n);
      DrainIsSoundIff(n, pending, input.env, if input.event.OrderUpdated? then Later(input.fault) else input.fault);
    } else {
      StuckStays(m, input);
      StuckIsUntainted(m, input);
    }
  }

  lemma StuckIsUntainted(m: Machine, input: Input)
    requires Orderly(m, []) && Stuck(m)
    ensures !StepTaints(m, input)
  {
    PrepareKeeps(m, input.event, input.env);
    var (n, pending) := Prepare(m, input.event, input.env);
    assert pending == [] || pending == [StartFreshMachine];
  }

  /** In a run that leaves task lists alone, the log is sound all the time exactly when no raise taints it. */
  lemma {:induction false} RunIsSoundIff(inputs: seq<Input>)
    requires UndisturbedRun(inputs)
    ensures AlwaysSound(inputs) <==> NeverTainted(inputs)
  {
    if inputs != [] {
      var init, last := inputs[..|inputs| - 1], inputs[|inputs| - 1];
      RunIsSoundIff(init);
      if Sound(Reached(init)) {
        StepIsSoundIff(Reached(init), last);
      }
    }
  }

  /* ---------- What the protocol means for an order ---------- */

  function SecondErrors(t: Task, errors: nat): seq<LogEntry> {
    seq(errors, i => Confirmed(t.tanum, Second, false))
  }

  /** A first success, then any second errors. */
  function Fetched(t: Task, errors: nat): seq<LogEntry> {
    [Confirmed(t.tanum, First, true)] + SecondErrors(t, errors)
  }

  /** The first k tasks were brought to their destination, one after the other. */
  function Brought(tasks: seq<Task>, errors: seq<nat>, k: nat): seq<LogEntry>
    requires k <= |tasks| && k <= |errors|
  {
    if k == 0 then [] else
      Brought(tasks, errors, k - 1) + Fetched(tasks[k - 1], errors[k - 1])
      + [Confirmed(tasks[k - 1].tanum, Second, true)]
  }

  lemma {:induction false} BroughtSame(tasks: seq<Task>, errors: seq<nat>, more: seq<nat>, k: nat)
    requires k <= |tasks| && k <= |errors|
    ensures Brought(tasks, errors + more, k) == Brought(tasks, errors, k)
  {
    if k > 0 {
      BroughtSame(tasks, errors, more, k - 1);
    }
  }

  /**
   * The confirmations of one order while it is in process: each finished task has a first
   * success, any second errors and one second success, in the order of the tasks; the current
   * one has nothing, or a first success and second errors, or one first error.
   */
  ghost predicate Shape(o: Order, log: seq<LogEntry>, p: Progress, errors: seq<nat>) {
    match p
    case Picking(q, k) => q == o && k == |errors| <= |o.tasks| && log == Brought(o.tasks, errors, k)
    case Placing(q, k, n) =>
      q == o && k == |errors| < |o.tasks| && log == Brought(o.tasks, errors, k) + Fetched(o.tasks[k], n)
    case Refused(q, k) =>
      && q == o && k == |errors| < |o.tasks|
      && log == Brought(o.tasks, errors, k) + [Confirmed(o.tasks[k].tanum, First, false)]
    case Between => false
    case Broken => false
  }

  lemma PickStep(o: Order, log: seq<LogEntry>, e: LogEntry, k: nat, errors: seq<nat>)
    requires Shape(o, log, Picking(o, k), errors) && Advance(Picking(o, k), e) != Broken && !e.Ended?
    ensures Shape(o, log + [e], Advance(Picking(o, k), e), errors)
  {
    assert SecondErrors(o.tasks[k], 0) == [];
  }

  lemma PlaceErrorStep(o: Order, log: seq<LogEntry>, e: LogEntry, k: nat, n: nat, errors: seq<nat>)
    requires Shape(o, log, Placing(o, k, n), errors) && Advance(Placing(o, k, n), e).Placing?
    ensures Shape(o, log + [e], Advance(Placing(o, k, n), e), errors)
  {
    assert SecondErrors(o.tasks[k], n) + [e] == SecondErrors(o.tasks[k], n + 1);
    assert Fetched(o.tasks[k], n) + [e] == Fetched(o.tasks[k], n + 1);
  }

  lemma PlacedStep(o: Order, log: seq<LogEntry>, e: LogEntry, k: nat, n: nat, errors: seq<nat>)
    requires Shape(o, log, Placing(o, k, n), errors) && Advance(Placing(o, k, n), e).Picking?
    ensures Shape(o, log + [e], Advance(Placing(o, k, n), e), errors + [n])
  {
    BroughtSame(o.tasks, errors, [n], k);
  }

  lemma {:induction false} SessionShape(o: Order, log: seq<LogEntry>) returns (errors: seq<nat>)
    requires Track(Picking(o, 0), log) != Broken && forall e :: e in log ==> !e.Ended?
    ensures Shape(o, log, Track(Picking(o, 0), log), errors)
  {
    if log == [] {
      errors := [];
    } else {
      var init, e := log[..|log| - 1], log[|log| - 1];
      assert log == init + [e];
      errors := SessionShape(o, init);
      match Track(Picking(o, 0), init) {
        case Picking(_, k) => PickStep(o, init, e, k, errors);
        case Placing(_, k, n) =>
          if e.success {
            PlacedStep(o, init, e, k, n, errors);
            errors := errors + [n];
          } else {
            PlaceErrorStep(o, init, e, k, n, errors);
          }
        case Refused(_, _) =>
      }
    }
  }

  lemma {:induction false} TrackConcat(p: Progress, a: seq<LogEntry>, b: seq<LogEntry>)
    ensures Track(p, a + b) == Track(Track(p, a), b)
  {
    if b == [] {
      assert a + b == a;
    } else {
      assert (a + b)[..|a + b| - 1] == a + b[..|b| - 1];
      TrackConcat(p, a, b[..|b| - 1]);
    }
  }

  lemma {:induction false} BrokenForever(log: seq<LogEntry>)
    ensures Track(Broken, log) == Broken
  {
    if log != [] {
      BrokenForever(log[..|log| - 1]);
    }
  }

  lemma PrefixUnbroken(log: seq<LogEntry>, j: nat)
    requires j <= |log| && Track(Between, log) != Broken
    ensures Track(Between, log[..j]) != Broken
  {
    assert log == log[..j] + log[j..];
    TrackConcat(Between, log[..j], log[j..]);
    BrokenForever(log[j..]);
  }

  /** A part of an unbroken log is unbroken; it starts where the log before it ends. */
  lemma PartUnbroken(log: seq<LogEntry>, i: nat, j: nat)
    requires i <= j <= |log| && Track(Between, log) != Broken
    ensures Track(Between, log[..j]) == Track(Track(Between, log[..i]), log[i..j]) != Broken
  {
    PrefixUnbroken(log, j);
    assert log[..j] == log[..i] + log[i..j];
    TrackConcat(Between, log[..i], log[i..j]);
  }

  /** One more entry of an unbroken log. */
  lemma NextEntry(log: seq<LogEntry>, i: nat)
    requires i < |log| && Track(Between, log) != Broken
    ensures Track(Between, log[..i + 1]) == Advance(Track(Between, log[..i]), log[i]) != Broken
  {
    PrefixUnbroken(log, i + 1);
    assert log[..i + 1][..i] == log[..i];
  }

  /** The end of an order fits its confirmations. */
  ghost predicate EndFits(o: Order, confirmations: seq<LogEntry>, errors: seq<nat>, e: LogEntry) {
    e.Ended? ==>
      && e.id == o.id
      && (e.success <==> o.tasks != [] && |errors| == |o.tasks| && confirmations == Brought(o.tasks, errors, |o.tasks|))
  }

  lemma LogFollowsProtocol(log: seq<LogEntry>, i: nat, j: nat) returns (p: Progress, errors: seq<nat>)
    requires Track(Between, log) != Broken && i < j <= |log| && log[i].Started?
    requires forall e :: e in log[i + 1..j] ==> !e.Ended?
    ensures Shape(log[i].order, log[i + 1..j], p, errors)
    ensures j < |log| ==> EndFits(log[i].order, log[i + 1..j], errors, log[j])
  {
    var o := log[i].order;
    NextEntry(log, i);
    PartUnbroken(log, i + 1, j);
    p := Track(Picking(o, 0), log[i + 1..j]);
    errors := SessionShape(o, log[i + 1..j]);
    if j < |log| {
      NextEntry(log, j);
    }
  }

  /**
   * In every run, the confirmations logged between the start of an order and any later point
   * before its end have the shape of the protocol. When the order ends, it is logged as
   * successful exactly when every one of its tasks got both successful confirmations.
   */
  lemma OrdersFollowProtocol(inputs: seq<Input>, log: seq<LogEntry>, i: nat, j: nat)
    returns (p: Progress, errors: seq<nat>)
    requires UndisturbedRun(inputs) && NeverTainted(inputs) && log == Reached(inputs).log
    requires i < j <= |log| && log[i].Started? && forall e :: e in log[i + 1..j] ==> !e.Ended?
    ensures Shape(log[i].order, log[i + 1..j], p, errors)
    ensures j < |log| ==> EndFits(log[i].order, log[i + 1..j], errors, log[j])
  {
    RunIsSoundIff(inputs);
    p, errors := LogFollowsProtocol(log, i, j);
  }

  /** An order is in process at the end of the log. */
  ghost predicate InProcess(log: seq<LogEntry>, i: nat) {
    i < |log| && log[i].Started? && forall k :: i < k < |log| ==> log[k].Confirmed?
  }

  /** An unbroken log that is not between two orders ends within one that was started. */
  lemma {:induction false} SomeOrderInProcess(log: seq<LogEntry>) returns (i: nat)
    requires Track(Between, log) !in {Between, Broken}
    ensures InProcess(log, i)
  {
    var init, last := log[..|log| - 1], log[|log| - 1];
    if Track(Between, init) == Between {
      i := |log| - 1;
    } else {
      i := SomeOrderInProcess(init);
    }
  }

  /** In every run each confirmation and each end belongs to an order that was started and not ended before. */
  lemma ConfirmationsBelongToOrders(inputs: seq<Input>, log: seq<LogEntry>, j: nat) returns (i: nat)
    requires UndisturbedRun(inputs) && NeverTainted(inputs) && log == Reached(inputs).log
    requires j < |log| && !log[j].Started?
    ensures i < j && InProcess(log[..j], i)
  {
    RunIsSoundIff(inputs);
    NextEntry(log, j);
    i := SomeOrderInProcess(log[..j]);
  }
}
