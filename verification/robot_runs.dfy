/**
 * Whole runs of a robot: the active order and task, the error counters, and how long a pickup is
 * retried, from a fresh start on, whatever happens outside and whichever calls raise errors.
 */
module RobotRuns {
  import opened Common
  import opened StableSorting
  import opened RobotConfig
  import opened RobotMachine

  /** A callback together with the surroundings it finds and the call that raises in it, if any. */
  datatype Input = Input(event: Event, env: Env, fault: Option<Fault>)

  /** The maximum number of retries never changes; created missions have a name. */
  predicate Suit(inputs: seq<Input>, maxRetry: nat) {
    forall i :: 0 <= i < |inputs| ==> inputs[i].env.mission != "" && inputs[i].env.maxRetry == maxRetry
  }

  function Fresh(): Machine {
    Machine(Idle, None, None, "", map[], 0, [], [])
  }

  function Step(m: Machine, input: Input): (r: Result)
    requires Orderly(m, [])
    ensures Orderly(r.m, [])
  {
    Callback(m, input.event, input.env, input.fault)
  }

  /** The machine after a run of callbacks, started afresh; in every moveTrolley state an order is active. */
  function Reached(inputs: seq<Input>): (m: Machine)
    ensures Orderly(m, [])
  {
    if inputs == [] then Fresh() else Step(Reached(inputs[..|inputs| - 1]), inputs[|inputs| - 1]).m
  }

  /* ---------- The active order, task and mission ---------- */

  /**
   * An order is active exactly in the moveTrolley states; each of them has an active task, and a
   * mission is running while the robot drives, loads or unloads.
   */
  predicate Works(m: Machine) {
    && (m.who.Some? <==> MoveTrolley(m.state))
    && (MoveTrolley(m.state) ==> m.wht.Some?)
    && (Driving(m.state) ==> m.mission != "")
  }

  /** No call of the callback raises harmfully. */
  predicate DoesNoHarm(m: Machine, input: Input)
    requires Orderly(m, [])
  {
    !Harms(m, input.event, input.env, input.fault)
  }

  lemma StepWorksIff(m: Machine, input: Input)
    requires Orderly(m, []) && Works(m) && input.env.mission != ""
    ensures Works(Step(m, input).m) <==> DoesNoHarm(m, input)
    ensures Step(m, input).error != TypeError
  {
    CallbackReadyIff(m, input.event, input.env, input.fault);
  }

  /** The machine worked after every callback of the run, and at its start. */
  predicate AlwaysWorked(inputs: seq<Input>) {
    Works(Reached(inputs)) && (inputs != [] ==> AlwaysWorked(inputs[..|inputs| - 1]))
  }

  /** No callback of the run had a call that raised harmfully. */
  predicate NeverHarmed(inputs: seq<Input>) {
    inputs != [] ==>
      var init := inputs[..|inputs| - 1];
      NeverHarmed(init) && DoesNoHarm(Reached(init), inputs[|inputs| - 1])
  }

  /** No callback of the run ended with this error. */
  predicate NeverEnded(inputs: seq<Input>, error: Error) {
    inputs != [] ==>
      var init := inputs[..|inputs| - 1];
      NeverEnded(init, error) && Step(Reached(init), inputs[|inputs| - 1]).error != error
  }

  /**
   * In a run, the machine works after each of its callbacks exactly when none of them raises
   * harmfully. Then no callback misses the order or task it works on.
   */
  lemma {:induction false} WorkingStates(inputs: seq<Input>, maxRetry: nat)
    requires Suit(inputs, maxRetry)
    ensures AlwaysWorked(inputs) <==> NeverHarmed(inputs)
    ensures AlwaysWorked(inputs) ==> NeverEnded(inputs, TypeError)
  {
    if inputs != [] {
      var init, last := inputs[..|inputs| - 1], inputs[|inputs| - 1];
      WorkingStates(init, maxRetry);
      if Works(Reached(init)) {
        StepWorksIff(Reached(init), last);
      }
    }
  }

  /** In particular the machine works in every run in which no call raises an error. */
  lemma {:induction false} WorkingWithoutErrors(inputs: seq<Input>, maxRetry: nat)
    requires Suit(inputs, maxRetry) && NeverEnded(inputs, ApiError)
    ensures AlwaysWorked(inputs) && NeverEnded(inputs, TypeError)
  {
    NoErrorNoHarm(inputs);
    WorkingStates(inputs, maxRetry);
  }

  lemma {:induction false} NoErrorNoHarm(inputs: seq<Input>)
    requires NeverEnded(inputs, ApiError)
    ensures NeverHarmed(inputs)
  {
    if inputs != [] {
      var m, input := Reached(inputs[..|inputs| - 1]), inputs[|inputs| - 1];
      NoErrorNoHarm(inputs[..|inputs| - 1]);
      if !DoesNoHarm(m, input) {
        PrepareKeeps(m, input.event, input.env);
        var (n, pending) := Prepare(m, input.event, input.env);
        HarmRaises(n, pending, input.env, if input.event.OrderUpdated? then Later(input.fault) else input.fault);
      }
    }
  }

  /* ---------- What a raising call leaves behind ---------- */

  /** A robot that takes up an order whose finalizer cannot be added stays idle with an active order. */
  lemma UnsetFinalizer(order: Order, env: Env)
    requires env.mode == Run
    ensures var m := Reached([Input(OrderUpdated(order, 0), env, Some(Fault(1, Raise(Finalizing, false))))]);
      m.state == Idle && m.who == Some(order) && !Works(m)
  {
    var input := Input(OrderUpdated(order, 0), env, Some(Fault(1, Raise(Finalizing, false))));
    FreshStep(input);
    var n := Updated(Fresh(), order, 0);
    EnqueuedContains([], Queued(order, 0));
    assert Prepare(Fresh(), input.event, env) == (n, [ProcessWarehouseOrder(order)]);
    var raise := Some(Raise(Finalizing, false));
    assert FireWith(n, ProcessWarehouseOrder(order), env, raise) == Raised(n.(who := Some(order)));
  }

  /** The first callback of a run. */
  lemma FreshStep(input: Input)
    ensures Reached([input]) == Step(Fresh(), input).m
  {
    assert [input][..0] == [];
  }

  lemma StartsOrder(n: Machine, order: Order, env: Env)
    requires n.state == Idle && order.tasks != [] && order.tasks[0].handlingUnit
    ensures var f := FireWith(n, ProcessWarehouseOrder(order), env, None);
      && f.Fired? && f.queued == [CreateMission] && f.m.state == MovingToSourceBin && f.m.mission == n.mission
      && f.m.who == Some(order) && f.m.wht == Some(order.tasks[0]) && f.m.errors == n.errors[Idle := 0]
      && f.m.orders == n.orders && f.m.log == n.log + [Started(order)] && f.m.failed == n.failed
  {
  }

  /** When the mission to the source bin cannot be created, the robot is driving without one. */
  lemma MissingMission(order: Order, env: Env)
    requires env.mode == Run && order.tasks != [] && order.tasks[0].handlingUnit
    ensures var m := Reached([Input(OrderUpdated(order, 0), env, Some(Fault(2, Raise(Missioning, false))))]);
      m.state == MovingToSourceBin && m.mission == "" && !Works(m)
  {
    var t, raise := ProcessWarehouseOrder(order), Raise(Missioning, false);
    var input := Input(OrderUpdated(order, 0), env, Some(Fault(2, raise)));
    FreshStep(input);
    var n := Updated(Fresh(), order, 0);
    EnqueuedContains([], Queued(order, 0));
    assert Prepare(Fresh(), input.event, env) == (n, [t]);
    StartsOrder(n, order, env);
    var f := FireWith(n, t, env, None);
    DrainsOn(n, t, env, Some(Fault(1, raise)), f);
    CreateRaises(f.m, env);
  }

  lemma CreateRaises(m: Machine, env: Env)
    requires Orderly(m, [CreateMission])
    ensures Drain(m, [CreateMission], env, Some(Fault(0, Raise(Missioning, false)))) == Result(m, ApiError)
  {
    assert FireWith(m, CreateMission, env, Some(Raise(Missioning, false))) == Raised(m);
  }

  /** A trigger alone in the queue is fired, then what it queued is worked off. */
  lemma DrainsOn(m: Machine, t: Trigger, env: Env, fault: Option<Fault>, f: Fired)
    requires Orderly(m, [t]) && f == FireWith(m, t, env, Now(fault)) && f.Fired?
    ensures Orderly(f.m, f.queued) && Drain(m, [t], env, fault) == Drain(f.m, f.queued, env, Later(fault))
  {
    DrainShrinks(m, [t], env, Now(fault));
    assert [t][1..] + f.queued == f.queued;
  }

  /** A robot that cannot send its first confirmation stays loading, and its mission is forgotten. */
  lemma UnsentConfirmation(m: Machine, env: Env)
    requires Orderly(m, []) && Works(m) && m.state == LoadingTrolley
    ensures var input := Input(MissionChanged(Succeeded), env, Some(Fault(0, Raise(Confirming, false))));
      Step(m, input).m == m.(mission := "")
    ensures !Works(m.(mission := ""))
  {
    var n := m.(mission := "");
    assert Prepare(m, MissionChanged(Succeeded), env) == (n, [MissionSucceeded]);
    assert FireWith(n, MissionSucceeded, env, Some(Raise(Confirming, false))) == Raised(n);
  }

  /** When the finalizer of a finished order cannot be removed, the robot keeps the order without a task. */
  lemma KeptFinalizer(m: Machine, env: Env)
    requires Orderly(m, []) && Works(m) && m.state == UnloadingTrolley && !MoreWarehouseTasks(m)
    ensures var n := Step(m, Input(MissionChanged(Succeeded), env, Some(Fault(0, Raise(Closing, false))))).m;
      && n.state == UnloadingTrolley && n.who.Some? && n.wht.None? && Stuck(n) && !Works(n)
      && n.log == m.log + [Confirmed(m.wht.value.tanum, Second, true), Ended(m.who.value.id, true)]
  {
    var p := m.(mission := "");
    assert Prepare(m, MissionChanged(Succeeded), env) == (p, [MissionSucceeded]);
    EndsUnfinished(p, env);
  }

  lemma EndsUnfinished(m: Machine, env: Env)
    requires m.state == UnloadingTrolley && m.who.Some? && m.wht.Some? && !MoreWarehouseTasks(m)
    ensures var f := FireWith(m, MissionSucceeded, env, Some(Raise(Closing, false)));
      && f.Raised? && f.m.state == m.state && f.m.mission == m.mission && f.m.who.Some? && f.m.wht.None?
      && f.m.log == m.log + [Confirmed(m.wht.value.tanum, Second, true), Ended(m.who.value.id, true)]
  {
    BeforeClosingKeeps(m, FinishOrder);
    assert BeforeClosing(m, FinishOrder).log ==
           m.log + [Confirmed(m.wht.value.tanum, Second, true), Ended(m.who.value.id, true)];
  }

  /** The robot drives, loads or unloads, but no mission is running. */
  predicate Stuck(m: Machine) {
    Driving(m.state) && m.mission == ""
  }

  /** Nothing from outside brings such a robot into another state again, gives it a mission or a new task. */
  lemma StuckStays(m: Machine, input: Input)
    requires Orderly(m, []) && Stuck(m)
    ensures var n := Step(m, input).m;
      Stuck(n) && n.state == m.state && n.wht == m.wht && n.log == m.log && n.errors == m.errors
  {
    PrepareKeeps(m, input.event, input.env);
    var (n, pending) := Prepare(m, input.event, input.env);
    assert pending == [] || pending == [StartFreshMachine];
  }

  /* ---------- Error counters ---------- */

  ghost predicate Bounded(m: Machine, maxRetry: nat) {
    forall s :: s in m.errors ==> m.errors[s] <= maxRetry
  }

  /** How one trigger changes the error counter of a state. */
  predicate CountsErrors(m: Machine, t: Trigger, env: Env, n: Machine, s: RobotState) {
    ErrorsOf(n, s) ==
      if s != m.state then ErrorsOf(m, s)
      else if t == MissionFailed then
        ErrorsOf(m, s) + if ErrorsOf(m, s) < env.maxRetry then 1 else 0
      else if n.state != s then 0
      else ErrorsOf(m, s)
  }

  lemma EnterKeepsErrors(m: Machine, t: Trigger, env: Env)
    ensures OnEnter(m, t, env).m.errors == m.errors && OnEnter(m, t, env).m.state == m.state
    ensures OnEnter(m, t, env).m.log == m.log && OnEnter(m, t, env).m.mission == m.mission
  {
  }

  lemma ArrivalCounts(before: RobotState, n: Machine, t: Trigger, env: Env, raise: Option<Raise>)
    ensures var f := Arrive(before, n, t, env, raise);
      && f.m.state == n.state
      && (f.Failed? ==> f.m.errors == n.errors)
      && (!f.Failed? ==>
          f.m.errors == if n.state != before && t != MissionFailed then n.errors[before := 0] else n.errors)
  {
    EnterKeepsErrors(n, t, env);
  }

  lemma BeforeCounts(m: Machine, t: Trigger, e: Effect, raise: Option<Raise>)
    requires NeedsTask(e) ==> m.wht.Some?
    ensures Before(m, t, e).errors ==
            if e == CountError then m.errors[m.state := ErrorsOf(m, m.state) + 1] else m.errors
    ensures Interrupted(m, t, e, raise).Some? ==>
      var n := Interrupted(m, t, e, raise).value;
      n.errors == m.errors && n.state == m.state && e != CountError
  {
  }

  /** Only a failed mission counts, and only in the transitions that try again. */
  lemma TableCounts(m: Machine, t: Trigger, env: Env)
    ensures var rule := FirstRule(Table(t, m.state), m, env);
      rule.Some? ==> (rule.value.effect == CountError <==> t == MissionFailed && ErrorsOf(m, m.state) < env.maxRetry)
    ensures FirstRule(Table(t, m.state), m, env).None? && t == MissionFailed ==>
      Table(t, m.state) == [] || ErrorsOf(m, m.state) >= env.maxRetry
  {
  }

  /**
   * A failed mission raises the counter of its state, up to the maximum of retries; any other
   * trigger that leaves a state resets its counter. So the counter of a state that was left for
   * too many failed missions stays at the maximum.
   */
  lemma TriggerCounts(m: Machine, t: Trigger, env: Env, s: RobotState)
    requires Fire(m, t, env).Fired?
    ensures CountsErrors(m, t, env, Fire(m, t, env).m, s)
  {
    TableCounts(m, t, env);
    var rule := FirstRule(Table(t, m.state), m, env);
    if rule.Some? && rule.value.dest.Some? {
      MoveCounts(m, t, rule.value.effect, rule.value.dest.value, env, s);
    }
  }

  lemma MoveCounts(m: Machine, t: Trigger, e: Effect, dest: RobotState, env: Env, s: RobotState)
    requires (NeedsTask(e) ==> m.wht.Some?)
    requires (e == CountError <==> t == MissionFailed && ErrorsOf(m, m.state) < env.maxRetry)
    requires Arrive(m.state, Entering(m, t, e, dest), t, env, None).Fired?
    ensures CountsErrors(m, t, env, Arrive(m.state, Entering(m, t, e, dest), t, env, None).m, s)
  {
    BeforeCounts(m, t, e, None);
    ArrivalCounts(m.state, Entering(m, t, e, dest), t, env, None);
  }

  /** A state is left with its counter at zero exactly when it was not left for a failed mission. */
  lemma LeftAtZeroIff(m: Machine, t: Trigger, env: Env)
    requires Bounded(m, env.maxRetry) && Fire(m, t, env).Fired? && Fire(m, t, env).m.state != m.state
    ensures ErrorsOf(Fire(m, t, env).m, m.state) == 0 <==> t != MissionFailed || env.maxRetry == 0
  {
    TriggerCounts(m, t, env, m.state);
  }

  lemma FireKeepsBounded(m: Machine, t: Trigger, env: Env, raise: Option<Raise>)
    requires Bounded(m, env.maxRetry) && !FireWith(m, t, env, raise).Rejected?
    ensures Bounded(FireWith(m, t, env, raise).m, env.maxRetry)
  {
    TableCounts(m, t, env);
    var rule := FirstRule(Table(t, m.state), m, env);
    if rule.Some? && rule.value.dest.Some? && (NeedsTask(rule.value.effect) ==> m.wht.Some?) {
      MoveKeepsBounded(m, t, rule.value, env, raise, Execute(m, t, rule.value, env, raise));
    }
  }

  lemma MoveKeepsBounded(m: Machine, t: Trigger, rule: Rule, env: Env, raise: Option<Raise>, f: Fired)
    requires Bounded(m, env.maxRetry) && rule.dest.Some? && (NeedsTask(rule.effect) ==> m.wht.Some?)
    requires rule.effect == CountError ==> ErrorsOf(m, m.state) < env.maxRetry
    requires f == Execute(m, t, rule, env, raise)
    ensures Bounded(f.m, env.maxRetry)
  {
    BeforeCounts(m, t, rule.effect, raise);
    if Interrupted(m, t, rule.effect, raise).None? {
      ExecuteMoves(m, t, rule, env, raise);
      ArrivalCounts(m.state, Entering(m, t, rule.effect, rule.dest.value), t, env, raise);
    }
  }

  lemma {:induction false} DrainKeepsBounded(m: Machine, pending: seq<Trigger>, env: Env, fault: Option<Fault>)
    requires Orderly(m, pending) && Bounded(m, env.maxRetry)
    ensures Bounded(Drain(m, pending, env, fault).m, env.maxRetry)
    decreases OpenOrders(m), PendingRank(pending, m.state)
  {
    if pending != [] {
      DrainShrinks(m, pending, env, Now(fault));
      var f := FireWith(m, pending[0], env, Now(fault));
      if !f.Rejected? {
        FireKeepsBounded(m, pending[0], env, Now(fault));
        if f.Fired? {
          DrainKeepsBounded(f.m, pending[1..] + f.queued, env, Later(fault));
        }
      }
    }
  }

  lemma StepKeepsBounded(m: Machine, input: Input)
    requires Orderly(m, []) && Bounded(m, input.env.maxRetry)
    ensures Bounded(Step(m, input).m, input.env.maxRetry)
  {
    PrepareKeeps(m, input.event, input.env);
    var (n, pending) := Prepare(m, input.event, input.env);
    DrainKeepsBounded(n, pending, input.env, if input.event.OrderUpdated? then Later(input.fault) else input.fault);
  }

  /** In every run, no state counts more failed missions than the maximum of retries. */
  lemma {:induction false} ErrorCountersBounded(inputs: seq<Input>, maxRetry: nat)
    requires Suit(inputs, maxRetry)
    ensures Bounded(Reached(inputs), maxRetry)
    ensures forall s :: 0 <= ErrorsOf(Reached(inputs), s) <= maxRetry
  {
    if inputs != [] {
      ErrorCountersBounded(inputs[..|inputs| - 1], maxRetry);
      StepKeepsBounded(Reached(inputs[..|inputs| - 1]), inputs[|inputs| - 1]);
    }
  }

  /* ---------- Retries of a pickup ---------- */

  predicate Pickup(s: RobotState) {
    s == MovingToSourceBin || s == LoadingTrolley
  }

  /** How many missions may still fail: each failure while loading allows new failures on the way. */
  function Budget(m: Machine, maxRetry: nat): int {
    (maxRetry - ErrorsOf(m, LoadingTrolley)) * (maxRetry + 1)
    + (if m.state == MovingToSourceBin then maxRetry - ErrorsOf(m, MovingToSourceBin) else 0)
  }

  /** A pickup has all its attempts exactly when no failed missions are counted from pickups before. */
  lemma FullBudgetIff(m: Machine, maxRetry: nat)
    requires Bounded(m, maxRetry) && m.state == MovingToSourceBin
    ensures Budget(m, maxRetry) <= (maxRetry + 1) * (maxRetry + 1) - 1
    ensures Budget(m, maxRetry) == (maxRetry + 1) * (maxRetry + 1) - 1
            <==> ErrorsOf(m, MovingToSourceBin) == 0 && ErrorsOf(m, LoadingTrolley) == 0
  {
    var used := ErrorsOf(m, LoadingTrolley);
    assert (maxRetry - used) * (maxRetry + 1)
        == (maxRetry + 1) * (maxRetry + 1) - (maxRetry + 1) - used * (maxRetry + 1);
    assert used > 0 ==> used * (maxRetry + 1) > 0;
  }

  lemma TakesUp(order: Order, env: Env)
    requires env.mode == Run && order.tasks != [] && order.tasks[0].handlingUnit
    ensures Reached([Input(OrderUpdated(order, 0), env, None)]) ==
      Machine(MovingToSourceBin, Some(order), Some(order.tasks[0]), env.mission, map[Idle := 0], 0,
              Enqueued([], Queued(order, 0)), [Started(order)])
  {
    var t, input := ProcessWarehouseOrder(order), Input(OrderUpdated(order, 0), env, None);
    FreshStep(input);
    var n := Updated(Fresh(), order, 0);
    EnqueuedContains([], Queued(order, 0));
    assert Prepare(Fresh(), input.event, env) == (n, [t]);
    StartsOrder(n, order, env);
    var f := FireWith(n, t, env, None);
    DrainsOn(n, t, env, None, f);
    assert Drain(n, [t], env, None) == Drain(f.m, [CreateMission], env, None);
    CreateDrains(f.m, env);
  }

  lemma CreateDrains(m: Machine, env: Env)
    requires Orderly(m, [])
    ensures Orderly(m, [CreateMission])
    ensures Drain(m, [CreateMission], env, None) == Result(m.(mission := env.mission), NoError)
  {
    assert [CreateMission][1..] + [] == [];
    DrainShrinks(m, [CreateMission], env, None);
  }

  /** The first failed mission of a pickup. */
  lemma FirstFailure(m: Machine, env: Env)
    requires Orderly(m, []) && m.state == MovingToSourceBin && m.mission != "" && ErrorsOf(m, m.state) < env.maxRetry
    requires m.who.value.tasks != [] && m.who.value.tasks[0].handlingUnit
    ensures Step(m, Input(MissionChanged(Unsuccessful), env, None)).m ==
      m.(mission := env.mission, errors := m.errors[m.state := ErrorsOf(m, m.state) + 1],
         wht := Some(m.who.value.tasks[0]))
  {
    var n := m.(mission := "");
    assert Prepare(m, MissionChanged(Unsuccessful), env) == (n, [MissionFailed]);
    var f := FireWith(n, MissionFailed, env, None);
    assert f == Fired(n.(errors := n.errors[n.state := ErrorsOf(n, n.state) + 1], wht := Some(n.who.value.tasks[0])),
                      [CreateMission]);
    DrainsOn(n, MissionFailed, env, None, f);
    CreateDrains(f.m, env);
  }

  /** The last failed mission of a pickup, when no other order waits. */
  lemma LastFailure(m: Machine, env: Env)
    requires Orderly(m, []) && m.state == MovingToSourceBin && m.mission != "" && ErrorsOf(m, m.state) >= env.maxRetry
    requires m.wht.Some? && Without(m.orders, m.who.value.id) == [] && m.failed < 3
    requires env.mode == Run && env.battery >= env.batteryMin
    ensures var n := Step(m, Input(MissionChanged(Unsuccessful), env, None)).m;
      n.state == Idle && n.errors == m.errors
  {
    var n := m.(mission := "");
    assert Prepare(m, MissionChanged(Unsuccessful), env) == (n, [MissionFailed]);
    GivesUp(n, env);
    DrainsOn(n, MissionFailed, env, None, FireWith(n, MissionFailed, env, None));
  }

  lemma GivesUp(m: Machine, env: Env)
    requires Orderly(m, []) && m.state == MovingToSourceBin && ErrorsOf(m, m.state) >= env.maxRetry
    requires m.wht.Some? && Without(m.orders, m.who.value.id) == [] && m.failed < 3
    requires env.mode == Run && env.battery >= env.batteryMin
    ensures var f := FireWith(m, MissionFailed, env, None);
      f.Fired? && f.m.state == Idle && f.m.errors == m.errors && f.queued == []
  {
    BeforeClosingKeeps(m, FailPickup);
    var n := Entering(m, MissionFailed, FailPickup, Idle);
    assert n.orders == [] && n.failed == m.failed + 1;
    ArrivalCounts(m.state, n, MissionFailed, env, None);
  }

  /** Error counters outlive the order: the next pickup has fewer attempts. */
  lemma CounterOutlivesOrder(order: Order, env: Env)
    requires env.mode == Run && env.mission != "" && env.maxRetry == 1 && env.battery >= env.batteryMin
    requires order.tasks != [] && order.tasks[0].handlingUnit
    ensures var up, failure := Input(OrderUpdated(order, 0), env, None), Input(MissionChanged(Unsuccessful), env, None);
      var m := Reached([up, failure, failure]);
      m.state == Idle && ErrorsOf(m, MovingToSourceBin) == 1
  {
    var up, failure := Input(OrderUpdated(order, 0), env, None), Input(MissionChanged(Unsuccessful), env, None);
    TakesUp(order, env);
    var m := Reached([up]);
    EnqueuedOne(order);
    FailsFirst([up], m, env);
    var n := Reached([up] + [failure]);
    FailsLast([up] + [failure], n, env);
    assert [up, failure, failure] == [up] + [failure] + [failure];
  }

  lemma FailsFirst(inputs: seq<Input>, m: Machine, env: Env)
    requires m == Reached(inputs) && m.state == MovingToSourceBin && m.mission != ""
    requires ErrorsOf(m, m.state) < env.maxRetry && m.who.value.tasks != [] && m.who.value.tasks[0].handlingUnit
    ensures Reached(inputs + [Input(MissionChanged(Unsuccessful), env, None)]) ==
      m.(mission := env.mission, errors := m.errors[m.state := ErrorsOf(m, m.state) + 1],
         wht := Some(m.who.value.tasks[0]))
  {
    FirstFailure(m, env);
    ReachedNext(inputs, Input(MissionChanged(Unsuccessful), env, None));
  }

  lemma FailsLast(inputs: seq<Input>, m: Machine, env: Env)
    requires m == Reached(inputs) && m.state == MovingToSourceBin && m.mission != ""
    requires ErrorsOf(m, m.state) >= env.maxRetry && m.wht.Some? && m.failed < 3
    requires Without(m.orders, m.who.value.id) == [] && env.mode == Run && env.battery >= env.batteryMin
    ensures var n := Reached(inputs + [Input(MissionChanged(Unsuccessful), env, None)]);
      n.state == Idle && n.errors == m.errors
  {
    LastFailure(m, env);
    ReachedNext(inputs, Input(MissionChanged(Unsuccessful), env, None));
  }

  lemma ReachedNext(inputs: seq<Input>, input: Input)
    ensures Reached(inputs + [input]) == Step(Reached(inputs), input).m
  {
    assert (inputs + [input])[..|inputs|] == inputs;
  }

  lemma EnqueuedOne(order: Order)
    ensures Without(Enqueued([], Queued(order, 0)), order.id) == []
  {
    SortKeepsElements([Queued(order, 0)], (x: Queued) => x.sequence as real);
    var rest := Without(Enqueued([], Queued(order, 0)), order.id);
    assert forall i :: 0 <= i < |rest| ==> rest[i] in rest;
  }

  /** The attempts left, counting the mission that is running. */
  function Attempts(m: Machine, maxRetry: nat): int {
    Budget(m, maxRetry) + if m.mission == "" then 0 else 1
  }

  /** The attempts left when these triggers wait. */
  function AttemptsWith(m: Machine, pending: seq<Trigger>, maxRetry: nat): int {
    if pending == [CreateMission] then Budget(m, maxRetry) + 1 else Attempts(m, maxRetry)
  }

  /** The triggers that wait during a pickup. */
  predicate PickupTriggers(pending: seq<Trigger>) {
    |pending| <= 1
    && forall t :: t in pending ==>
         t in {CreateMission, MissionSucceeded, MissionFailed, MissionDocking, InvalidWarehouseTask,
               WarehouseOrderAborted, StartFreshMachine}
  }

  lemma BeforeGrowsLog(m: Machine, t: Trigger, e: Effect, raise: Option<Raise>)
    requires NeedsTask(e) ==> m.wht.Some?
    ensures m.log <= Before(m, t, e).log
    ensures Interrupted(m, t, e, raise).Some? ==> m.log <= Interrupted(m, t, e, raise).value.log
  {
  }

  lemma ArrivalGrowsLog(before: RobotState, n: Machine, t: Trigger, env: Env, raise: Option<Raise>)
    ensures n.log <= Arrive(before, n, t, env, raise).m.log
  {
    EnterKeepsErrors(n, t, env);
  }

  lemma FireGrowsLog(m: Machine, t: Trigger, env: Env, raise: Option<Raise>)
    requires !FireWith(m, t, env, raise).Rejected?
    ensures m.log <= FireWith(m, t, env, raise).m.log
  {
    var rule := FirstRule(Table(t, m.state), m, env);
    if rule.Some? && rule.value.dest.Some? && (NeedsTask(rule.value.effect) ==> m.wht.Some?) {
      BeforeGrowsLog(m, t, rule.value.effect, raise);
      ArrivalGrowsLog(m.state, Entering(m, t, rule.value.effect, rule.value.dest.value), t, env, raise);
    }
  }

  lemma {:induction false} DrainGrowsLog(m: Machine, pending: seq<Trigger>, env: Env, fault: Option<Fault>)
    requires Orderly(m, pending)
    ensures m.log <= Drain(m, pending, env, fault).m.log
    decreases OpenOrders(m), PendingRank(pending, m.state)
  {
    if pending != [] {
      DrainShrinks(m, pending, env, Now(fault));
      var f := FireWith(m, pending[0], env, Now(fault));
      if !f.Rejected? {
        FireGrowsLog(m, pending[0], env, Now(fault));
        if f.Fired? {
          DrainGrowsLog(f.m, pending[1..] + f.queued, env, Later(fault));
        }
      }
    }
  }

  lemma StepGrowsLog(m: Machine, input: Input)
    requires Orderly(m, [])
    ensures m.log <= Step(m, input).m.log
  {
    PrepareKeeps(m, input.event, input.env);
    var (n, pending) := Prepare(m, input.event, input.env);
    DrainGrowsLog(n, pending, input.env, if input.event.OrderUpdated? then Later(input.fault) else input.fault);
  }

  /** The pickup goes on with these triggers waiting, and with no more attempts than given. */
  predicate GoesOn(n: Machine, pending: seq<Trigger>, attempts: int, maxRetry: nat) {
    Pickup(n.state) && PickupTriggers(pending) && AttemptsWith(n, pending, maxRetry) <= attempts
  }

  /** The triggers that wait after a trigger was fired. */
  function Waiting(f: Fired): seq<Trigger> {
    if f.Fired? then f.queued else []
  }

  /** How a pickup is tried again, or comes to loading. */
  lemma CountedFailure(m: Machine, n: Machine, maxRetry: nat)
    requires Bounded(m, maxRetry) && Pickup(m.state) && ErrorsOf(m, m.state) < maxRetry
    requires n.state == MovingToSourceBin && n.errors == m.errors[m.state := ErrorsOf(m, m.state) + 1]
    ensures Budget(n, maxRetry) < Budget(m, maxRetry)
  {
    if m.state == LoadingTrolley {
      assert ErrorsOf(n, LoadingTrolley) == ErrorsOf(m, LoadingTrolley) + 1;
      OneLess(maxRetry - ErrorsOf(m, LoadingTrolley), maxRetry + 1);
    }
  }

  lemma OneLess(a: int, b: int)
    ensures (a - 1) * b == a * b - b
  {
  }

  lemma RetryGoesOn(m: Machine, env: Env, raise: Option<Raise>)
    requires Orderly(m, []) && Bounded(m, env.maxRetry) && Pickup(m.state) && ErrorsOf(m, m.state) < env.maxRetry
    ensures var n := Entering(m, MissionFailed, CountError, MovingToSourceBin);
      var f := Arrive(m.state, n, MissionFailed, env, raise);
      !f.Rejected? && GoesOn(f.m, Waiting(f), Attempts(m, env.maxRetry), env.maxRetry)
  {
    var n := Entering(m, MissionFailed, CountError, MovingToSourceBin);
    ArrivalCounts(m.state, n, MissionFailed, env, raise);
    EnterKeepsErrors(n, MissionFailed, env);
    var f := Arrive(m.state, n, MissionFailed, env, raise);
    CountedFailure(m, f.m, env.maxRetry);
    assert f.m.mission == m.mission;
  }

  lemma LoadingGoesOn(m: Machine, t: Trigger, env: Env, raise: Option<Raise>)
    requires Bounded(m, env.maxRetry) && m.state == MovingToSourceBin && t in {MissionDocking, MissionSucceeded}
    ensures var n := Entering(m, t, Nothing, LoadingTrolley);
      var f := Arrive(m.state, n, t, env, raise);
      !f.Rejected? && GoesOn(f.m, Waiting(f), Attempts(m, env.maxRetry), env.maxRetry)
  {
    var n := Entering(m, t, Nothing, LoadingTrolley);
    var f := Arrive(m.state, n, t, env, raise);
    ArrivalCounts(m.state, n, t, env, raise);
    EnterKeepsErrors(n, t, env);
    assert f.m.mission == m.mission && PickupTriggers(Waiting(f)) && CreateMission !in Waiting(f);
    ReachedBudget(m, f.m, env.maxRetry);
  }

  /** Reaching the source bin, the robot has at most the attempts it had on the way. */
  lemma ReachedBudget(m: Machine, n: Machine, maxRetry: nat)
    requires Bounded(m, maxRetry) && m.state == MovingToSourceBin && n.state == LoadingTrolley
    requires n.errors == m.errors || n.errors == m.errors[MovingToSourceBin := 0]
    ensures Budget(n, maxRetry) <= Budget(m, maxRetry)
  {
    assert ErrorsOf(n, LoadingTrolley) == ErrorsOf(m, LoadingTrolley);
  }

  /** A confirmation or the end of an order is logged, unless nothing at all happens. */
  lemma LoggingEffect(m: Machine, t: Trigger, e: Effect, dest: RobotState, env: Env, raise: Option<Raise>)
    requires e in {AbortOrder, FailPickup, PickedUp} && m.who.Some? && (NeedsTask(e) ==> m.wht.Some?)
    ensures var i := Interrupted(m, t, e, raise);
      var f := if i.Some? then Raised(i.value) else Arrive(m.state, Entering(m, t, e, dest), t, env, raise);
      f.m.log != m.log || f == Raised(m)
  {
    assert m.log < Before(m, t, e).log;
    ArrivalGrowsLog(m.state, Entering(m, t, e, dest), t, env, raise);
  }

  /** A trigger during a pickup is logged, or it leaves no more attempts than before. */
  predicate LogsOrGoesOn(m: Machine, t: Trigger, env: Env, f: Fired) {
    f.Rejected? || f.m.log != m.log || GoesOn(f.m, Waiting(f), AttemptsWith(m, [t], env.maxRetry), env.maxRetry)
  }

  lemma FailureGoesOn(m: Machine, env: Env, raise: Option<Raise>)
    requires Orderly(m, []) && Bounded(m, env.maxRetry) && Pickup(m.state)
    ensures LogsOrGoesOn(m, MissionFailed, env, FireWith(m, MissionFailed, env, raise))
  {
    if ErrorsOf(m, m.state) < env.maxRetry {
      RetryGoesOn(m, env, raise);
    } else {
      LastFailureLogs(m, env, raise);
    }
  }

  lemma LastFailureLogs(m: Machine, env: Env, raise: Option<Raise>)
    requires Orderly(m, []) && Bounded(m, env.maxRetry) && Pickup(m.state) && ErrorsOf(m, m.state) >= env.maxRetry
    ensures LogsOrGoesOn(m, MissionFailed, env, FireWith(m, MissionFailed, env, raise))
  {
    StayingGoesOn(m, MissionFailed, env.maxRetry);
    LastFailureFires(m, env, raise);
    if m.wht.Some? {
      LoggingEffect(m, MissionFailed, FailPickup, Idle, env, raise);
    }
  }

  lemma LastFailureFires(m: Machine, env: Env, raise: Option<Raise>)
    requires Pickup(m.state) && ErrorsOf(m, m.state) >= env.maxRetry
    ensures FireWith(m, MissionFailed, env, raise) ==
            if m.wht.None? then Failed(m) else
              var i := Interrupted(m, MissionFailed, FailPickup, raise);
              if i.Some? then Raised(i.value)
              else Arrive(m.state, Entering(m, MissionFailed, FailPickup, Idle), MissionFailed, env, raise)
  {
  }

  /** A trigger without effect takes no attempt. */
  lemma StayingGoesOn(m: Machine, t: Trigger, maxRetry: nat)
    requires Pickup(m.state) && t != CreateMission
    ensures GoesOn(m, [], AttemptsWith(m, [t], maxRetry), maxRetry)
  {
    assert [t][0] == t;
  }

  lemma ReachingGoesOn(m: Machine, t: Trigger, env: Env, raise: Option<Raise>)
    requires Orderly(m, []) && Bounded(m, env.maxRetry) && m.state == MovingToSourceBin
    requires t in {MissionDocking, MissionSucceeded}
    ensures LogsOrGoesOn(m, t, env, FireWith(m, t, env, raise))
  {
    LoadingGoesOn(m, t, env, raise);
  }

  lemma LoadedGoesOn(m: Machine, t: Trigger, env: Env, raise: Option<Raise>)
    requires Orderly(m, []) && Bounded(m, env.maxRetry) && m.state == LoadingTrolley
    requires t in {MissionDocking, MissionSucceeded}
    ensures LogsOrGoesOn(m, t, env, FireWith(m, t, env, raise))
  {
    if t == MissionSucceeded && m.wht.Some? {
      LoggingEffect(m, t, PickedUp, MovingToTargetBin, env, raise);
    }
  }

  lemma SuccessGoesOn(m: Machine, t: Trigger, env: Env, raise: Option<Raise>)
    requires Orderly(m, []) && Bounded(m, env.maxRetry) && Pickup(m.state) && t in {MissionDocking, MissionSucceeded}
    ensures LogsOrGoesOn(m, t, env, FireWith(m, t, env, raise))
  {
    if m.state == MovingToSourceBin {
      ReachingGoesOn(m, t, env, raise);
    } else {
      LoadedGoesOn(m, t, env, raise);
    }
  }

  lemma EndGoesOn(m: Machine, t: Trigger, env: Env, raise: Option<Raise>)
    requires Orderly(m, []) && Pickup(m.state) && t in {InvalidWarehouseTask, WarehouseOrderAborted}
    ensures LogsOrGoesOn(m, t, env, FireWith(m, t, env, raise))
  {
    var e := if t == InvalidWarehouseTask then FailPickup else AbortOrder;
    if m.state == MovingToSourceBin && (NeedsTask(e) ==> m.wht.Some?) {
      LoggingEffect(m, t, e, Idle, env, raise);
    }
  }

  lemma PickupTrigger(m: Machine, t: Trigger, env: Env, raise: Option<Raise>)
    requires Orderly(m, [t]) && Bounded(m, env.maxRetry) && Pickup(m.state) && PickupTriggers([t])
    ensures LogsOrGoesOn(m, t, env, FireWith(m, t, env, raise))
  {
    assert t in [t];
    match t
    case MissionFailed => FailureGoesOn(m, env, raise);
    case MissionSucceeded => SuccessGoesOn(m, t, env, raise);
    case MissionDocking => SuccessGoesOn(m, t, env, raise);
    case InvalidWarehouseTask => EndGoesOn(m, t, env, raise);
    case WarehouseOrderAborted => EndGoesOn(m, t, env, raise);
    case _ =>
  }

  lemma {:induction false} DrainGoesOn(m: Machine, pending: seq<Trigger>, env: Env, fault: Option<Fault>, attempts: int)
    requires Orderly(m, pending) && Bounded(m, env.maxRetry) && GoesOn(m, pending, attempts, env.maxRetry)
    ensures var n := Drain(m, pending, env, fault).m;
      n.log != m.log || GoesOn(n, [], attempts, env.maxRetry)
    decreases OpenOrders(m), PendingRank(pending, m.state)
  {
    if pending != [] {
      var t, f := pending[0], FireWith(m, pending[0], env, Now(fault));
      assert pending == [t];
      DrainShrinks(m, pending, env, Now(fault));
      PickupTrigger(m, t, env, Now(fault));
      if f.Fired? {
        assert pending[1..] + f.queued == f.queued;
        FireGrowsLog(m, t, env, Now(fault));
        DrainGrowsLog(f.m, f.queued, env, Later(fault));
        if f.m.log == m.log {
          FireKeepsBounded(m, t, env, Now(fault));
          DrainGoesOn(f.m, f.queued, env, Later(fault), attempts);
        }
      }
    }
  }

  /** The report ends a mission that is running. */
  predicate Finishes(m: Machine, e: Event) {
    e.MissionChanged? && e.report in {Succeeded, Unsuccessful} && m.mission != ""
  }

  /** What a callback fires during a pickup. */
  lemma PreparesPickup(m: Machine, e: Event, env: Env)
    requires Orderly(m, []) && Pickup(m.state)
    ensures var (n, pending) := Prepare(m, e, env);
      && n.mission == (if Finishes(m, e) then "" else m.mission)
      && pending in {[], [MissionSucceeded], [MissionFailed], [MissionDocking], [StartFreshMachine]}
  {
  }

  lemma PreparedGoesOn(m: Machine, e: Event, env: Env)
    requires Orderly(m, []) && Pickup(m.state)
    ensures var (n, pending) := Prepare(m, e, env);
      GoesOn(n, pending, Attempts(m, env.maxRetry) - if Finishes(m, e) then 1 else 0, env.maxRetry)
  {
    PreparesPickup(m, e, env);
    var (n, pending) := Prepare(m, e, env);
    assert Budget(n, env.maxRetry) == Budget(m, env.maxRetry);
  }

  /**
   * As long as a callback confirms nothing and closes no order, a pickup stays a pickup, it never
   * gets more attempts, and every finished mission uses up one.
   */
  lemma PickupStep(m: Machine, input: Input)
    requires Orderly(m, []) && Bounded(m, input.env.maxRetry) && Pickup(m.state)
    ensures var n, maxRetry := Step(m, input).m, input.env.maxRetry;
      n.log != m.log || (Pickup(n.state) && Attempts(n, maxRetry) <= Attempts(m, maxRetry)
                         && (Finishes(m, input.event) ==> Attempts(n, maxRetry) < Attempts(m, maxRetry)))
  {
    PreparedGoesOn(m, input.event, input.env);
    PrepareKeeps(m, input.event, input.env);
    var (n, pending) := Prepare(m, input.event, input.env);
    DrainGoesOn(n, pending, input.env, if input.event.OrderUpdated? then Later(input.fault) else input.fault,
                Attempts(m, input.env.maxRetry) - if Finishes(m, input.event) then 1 else 0);
  }

  /** The machine after further callbacks, and how many of them reported the end of a mission. */
  function Follow(m: Machine, inputs: seq<Input>): (r: (Machine, nat))
    requires Orderly(m, [])
    ensures Orderly(r.0, [])
  {
    if inputs == [] then (m, 0) else
      var (n, count) := Follow(m, inputs[..|inputs| - 1]);
      var last := inputs[|inputs| - 1];
      (Step(n, last).m, count + if Finishes(n, last.event) then 1 else 0)
  }

  /** Once a robot is driving without a mission, nothing brings it out of that again. */
  lemma {:induction false} StuckForever(m: Machine, inputs: seq<Input>)
    requires Orderly(m, []) && Stuck(m)
    ensures var n := Follow(m, inputs).0;
      Stuck(n) && n.state == m.state && n.log == m.log
  {
    if inputs != [] {
      StuckForever(m, inputs[..|inputs| - 1]);
      StuckStays(Follow(m, inputs[..|inputs| - 1]).0, inputs[|inputs| - 1]);
    }
  }

  lemma {:induction false} FollowGrowsLog(m: Machine, inputs: seq<Input>)
    requires Orderly(m, [])
    ensures m.log <= Follow(m, inputs).0.log
  {
    if inputs != [] {
      FollowGrowsLog(m, inputs[..|inputs| - 1]);
      StepGrowsLog(Follow(m, inputs[..|inputs| - 1]).0, inputs[|inputs| - 1]);
    }
  }

  /**
   * Retries of a pickup come to an end: whatever happens and whichever calls raise, before the
   * pickup is confirmed or its order is closed no more missions finish than there are attempts.
   */
  lemma {:induction false} PickupEnds(m: Machine, inputs: seq<Input>, maxRetry: nat)
    requires Orderly(m, []) && Suit(inputs, maxRetry) && Bounded(m, maxRetry) && Pickup(m.state)
    requires Follow(m, inputs).0.log == m.log
    ensures var (n, count) := Follow(m, inputs);
      && Pickup(n.state) && Bounded(n, maxRetry) && count + Attempts(n, maxRetry) <= Attempts(m, maxRetry)
      && count <= (maxRetry + 1) * (maxRetry + 1) && (n.mission != "" ==> count < (maxRetry + 1) * (maxRetry + 1))
  {
    if inputs != [] {
      var init, last := inputs[..|inputs| - 1], inputs[|inputs| - 1];
      var n := Follow(m, init).0;
      FollowGrowsLog(m, init);
      StepGrowsLog(n, last);
      PickupEnds(m, init, maxRetry);
      PickupStep(n, last);
      StepKeepsBounded(n, last);
    }
    BudgetBounds(m, maxRetry);
    BudgetBounds(Follow(m, inputs).0, maxRetry);
  }

  lemma BudgetBounds(m: Machine, maxRetry: nat)
    requires Bounded(m, maxRetry)
    ensures 0 <= Budget(m, maxRetry) < (maxRetry + 1) * (maxRetry + 1)
  {
    var left := maxRetry - ErrorsOf(m, LoadingTrolley);
    assert 0 <= left * (maxRetry + 1) <= maxRetry * (maxRetry + 1);
    assert (maxRetry + 1) * (maxRetry + 1) == maxRetry * (maxRetry + 1) + maxRetry + 1;
  }
}
