/**
 * Where raising calls lead: after those that taint the log, and only after those, the protocol of
 * confirmations can be broken without anything else going wrong. Runs of a fresh robot show how.
 */
module RobotFaults {
  import opened Common
  import opened RobotConfig
  import opened RobotMachine
  import opened RobotRuns
  import opened RobotProtocol

  /* ---------- Breaking the protocol ---------- */

  /** No call raises, and nobody touches an order. */
  predicate Calm(inputs: seq<Input>) {
    forall i :: 0 <= i < |inputs| ==> inputs[i].fault.None? && !inputs[i].event.OrderUpdated?
  }

  /** Some calm callbacks break the protocol. */
  ghost predicate Breakable(m: Machine)
    requires Orderly(m, [])
  {
    exists inputs :: Calm(inputs) && Track(Between, Follow(m, inputs).0.log) == Broken
  }

  lemma {:induction false} FaultlessIsUntainted(m: Machine, pending: seq<Trigger>, env: Env)
    requires Orderly(m, pending)
    ensures !Tainted(m, pending, env, None)
    decreases OpenOrders(m), PendingRank(pending, m.state)
  {
    if pending != [] {
      DrainShrinks(m, pending, env, None);
      match FireWith(m, pending[0], env, None)
      case Fired(n, queued) => FaultlessIsUntainted(n, pending[1..] + queued, env);
      case _ =>
    }
  }

  lemma CalmStepIsSound(m: Machine, input: Input)
    requires Orderly(m, []) && Sound(m) && input.fault.None? && !input.event.OrderUpdated?
    ensures Sound(Step(m, input).m)
  {
    PrepareKeeps(m, input.event, input.env);
    var (n, pending) := Prepare(m, input.event, input.env);
    FaultlessIsUntainted(n, pending, input.env);
    StepIsSoundIff(m, input);
  }

  lemma {:induction false} CalmIsSound(m: Machine, inputs: seq<Input>)
    requires Orderly(m, []) && Sound(m) && Calm(inputs)
    ensures Sound(Follow(m, inputs).0)
  {
    if inputs != [] {
      CalmIsSound(m, inputs[..|inputs| - 1]);
      CalmStepIsSound(Follow(m, inputs[..|inputs| - 1]).0, inputs[|inputs| - 1]);
    }
  }

  lemma SoundIsUnbreakable(m: Machine)
    requires Orderly(m, []) && Sound(m)
    ensures !Breakable(m)
  {
    forall inputs | Calm(inputs) ensures Track(Between, Follow(m, inputs).0.log) != Broken {
      CalmIsSound(m, inputs);
    }
  }

  lemma {:induction false} FollowAfter(m: Machine, input: Input, later: seq<Input>)
    requires Orderly(m, [])
    ensures Follow(m, [input] + later).0 == Follow(Step(m, input).m, later).0
  {
    var inputs := [input] + later;
    if later == [] {
      assert inputs == [input] && inputs[..0] == [];
    } else {
      assert inputs[..|inputs| - 1] == [input] + later[..|later| - 1];
      FollowAfter(m, input, later[..|later| - 1]);
    }
  }

  lemma CalmStepBreaks(m: Machine, input: Input)
    requires Orderly(m, []) && input.fault.None? && !input.event.OrderUpdated?
    requires Breakable(Step(m, input).m)
    ensures Breakable(m)
  {
    var later :| Calm(later) && Track(Between, Follow(Step(m, input).m, later).0.log) == Broken;
    FollowAfter(m, input, later);
    assert Calm([input] + later);
  }

  lemma BrokenIsBreakable(m: Machine)
    requires Orderly(m, []) && Track(Between, m.log) == Broken
    ensures Breakable(m)
  {
    assert Calm([]) && Follow(m, []).0 == m;
  }

  /** A log that begins with an entry too many is broken. */
  lemma BreaksFrom(begin: seq<LogEntry>, e: LogEntry, log: seq<LogEntry>)
    requires begin + [e] <= log && Advance(Track(Between, begin), e) == Broken
    ensures Track(Between, log) == Broken
  {
    TrackAppend(Between, begin, e);
    var rest := log[|begin| + 1..];
    assert log == begin + [e] + rest;
    TrackConcat(Between, begin + [e], rest);
    BrokenForever(rest);
  }

  /* ---------- Missions that are over are forgotten ---------- */

  /** When the end of a mission is worked on, the mission is forgotten already. */
  predicate Forgotten(m: Machine, pending: seq<Trigger>) {
    (MissionSucceeded in pending || MissionFailed in pending) ==> m.mission == ""
  }

  lemma PrepareForgets(m: Machine, e: Event, env: Env)
    ensures var (n, pending) := Prepare(m, e, env);
      Forgotten(n, pending)
  {
  }

  lemma EnterForgets(m: Machine, t: Trigger, env: Env)
    requires Forgotten(m, [t])
    ensures OnEnter(m, t, env).Entered? ==> Forgotten(m, OnEnter(m, t, env).queued)
  {
    assert t in [t];
  }

  lemma FireForgets(m: Machine, t: Trigger, env: Env, raise: Option<Raise>)
    requires Forgotten(m, [t]) && FireWith(m, t, env, raise).Fired?
    ensures Forgotten(FireWith(m, t, env, raise).m, FireWith(m, t, env, raise).queued)
  {
    var rule := FirstRule(Table(t, m.state), m, env);
    if rule.Some? && rule.value.dest.Some? {
      MoveForgets(m, t, env, rule.value, raise);
    }
  }

  lemma MoveForgets(m: Machine, t: Trigger, env: Env, rule: Rule, raise: Option<Raise>)
    requires Forgotten(m, [t]) && rule.dest.Some? && Execute(m, t, rule, env, raise).Fired?
    ensures var f := Execute(m, t, rule, env, raise);
      Forgotten(f.m, f.queued)
  {
    var n := Entering(m, t, rule.effect, rule.dest.value);
    BeforeKeepsMission(m, t, rule.effect);
    EnterForgets(n, t, env);
    EnterKeepsErrors(n, t, env);
  }

  /* ---------- A tainted log can be broken ---------- */

  /** The log says that the order is over, while the robot still works on it. */
  ghost predicate Doomed(m: Machine) {
    var p := Track(Between, m.log);
    || (m.state == WaitingForErrorRecovery && p == Between)
    || (m.state == MovingToSourceBin && m.mission != "" && (p == Between || (p.Refused? && m.wht.Some?)))
  }

  /** Taints only come from orders completed by others, or given up while an older mission is still active. */
  lemma TaintsWhere(m: Machine, t: Trigger, env: Env, rule: Rule, raise: Option<Raise>)
    requires Follows(m) && Applies(m, t, env, rule) && Forgotten(m, [t])
    requires Interrupted(m, t, rule.effect, raise).Some? && Taints(m, t, raise)
    ensures Raises(raise, Closing) ==> Closes(rule.effect) && MayClose(m, rule.effect)
    ensures Raises(raise, Confirming) ==> rule.effect == FailPickup && raise.value.recorded
    ensures m.state == WaitingForErrorRecovery || (m.state == MovingToSourceBin && m.mission != "")
  {
    TableProper(m, t, env, rule);
    assert t in [t];
  }

  lemma TaintDooms(m: Machine, t: Trigger, env: Env, rule: Rule, raise: Option<Raise>)
    requires Follows(m) && Applies(m, t, env, rule) && Forgotten(m, [t])
    requires Interrupted(m, t, rule.effect, raise).Some? && Taints(m, t, raise)
    ensures Doomed(Interrupted(m, t, rule.effect, raise).value)
  {
    TaintsWhere(m, t, env, rule, raise);
    if Raises(raise, Closing) {
      UnclosedTracks(m, t, rule.effect);
      BeforeClosingKeeps(m, rule.effect);
      BeforeClosingKeepsMission(m, rule.effect);
    } else {
      ConfirmationTracks(m, FailPickup);
    }
  }

  lemma RaisedDooms(m: Machine, t: Trigger, env: Env, raise: Option<Raise>)
    requires Orderly(m, [t]) && Follows(m) && Proper(m, [t]) && Forgotten(m, [t])
    requires FireWith(m, t, env, raise).Raised? && Taints(m, t, raise)
    ensures Doomed(FireWith(m, t, env, raise).m)
  {
    TaintDooms(m, t, env, FirstRule(Table(t, m.state), m, env).value, raise);
  }

  /** The end of an order that others completed is logged before its finalizer is removed. */
  lemma GivingUpLogs(m: Machine, env: Env, raise: Option<Raise>)
    requires Orderly(m, []) && m.state == WaitingForErrorRecovery
    ensures var f := FireWith(m, WarehouseOrderConfirmed, env, raise);
      && !f.Rejected? && m.log + [Ended(m.who.value.id, false)] <= f.m.log
      && (Raises(raise, Closing) ==>
          f.Raised? && f.m.state == m.state && f.m.log == m.log + [Ended(m.who.value.id, false)]
                                     && f.m.who.Some? && f.m.who.value.id == m.who.value.id)
  {
    BeforeClosingKeeps(m, GiveUpOrder);
    assert BeforeClosing(m, GiveUpOrder).log == m.log + [Ended(m.who.value.id, false)];
    var t := WarehouseOrderConfirmed;
    ArrivalGrowsLog(m.state, Entering(m, t, GiveUpOrder, Idle), t, env, raise);
  }

  lemma CompletionLogs(m: Machine, env: Env, raise: Option<Raise>)
    requires Orderly(m, []) && m.state == WaitingForErrorRecovery
    ensures var t := WarehouseOrderConfirmed;
      var fault := if raise.Some? then Some(Fault(0, raise.value)) else None;
      var f, n := FireWith(m, t, env, raise), Step(m, Input(OrderCompleted(m.who.value.id), env, fault)).m;
      !f.Rejected? && f.m.log <= n.log && (f.Raised? ==> n == f.m)
  {
    var t := WarehouseOrderConfirmed;
    var fault := if raise.Some? then Some(Fault(0, raise.value)) else None;
    assert Prepare(m, OrderCompleted(m.who.value.id), env) == (m, [t]);
    GivingUpLogs(m, env, raise);
    DrainShrinks(m, [t], env, raise);
    assert Now(fault) == raise;
    var f := FireWith(m, t, env, raise);
    if f.Fired? {
      DrainGrowsLog(f.m, [t][1..] + f.queued, env, Later(fault));
    }
  }

  /** A robot that reaches the source bin loads its trolley at once, and confirms that. */
  lemma SucceedingLogs(m: Machine, env: Env)
    requires Orderly(m, []) && m.state == MovingToSourceBin && m.mission != "" && m.wht.Some?
    ensures m.log + [Confirmed(m.wht.value.tanum, First, true)]
            <= Step(m, Input(MissionChanged(Succeeded), env, None)).m.log
  {
    var n := m.(mission := "");
    assert Prepare(m, MissionChanged(Succeeded), env) == (n, [MissionSucceeded]);
    var f := FireWith(n, MissionSucceeded, env, None);
    assert f.Fired? && f.queued == [MissionSucceeded] && f.m.state == LoadingTrolley && f.m.log == m.log;
    DrainsOn(n, MissionSucceeded, env, None, f);
    LoadingLogs(f.m, env);
  }

  lemma LoadingLogs(m: Machine, env: Env)
    requires Orderly(m, []) && m.state == LoadingTrolley && m.wht.Some?
    ensures m.log + [Confirmed(m.wht.value.tanum, First, true)] <= Drain(m, [MissionSucceeded], env, None).m.log
  {
    var t := MissionSucceeded;
    DrainShrinks(m, [t], env, None);
    ArrivalGrowsLog(m.state, Entering(m, t, PickedUp, MovingToTargetBin), t, env, None);
    DrainLogs(m, t, env, m.log + [Confirmed(m.wht.value.tanum, First, true)]);
  }

  /** What firing a trigger logs stays in the log. */
  lemma DrainLogs(m: Machine, t: Trigger, env: Env, log: seq<LogEntry>)
    requires Orderly(m, [t]) && !FireWith(m, t, env, None).Rejected? && log <= FireWith(m, t, env, None).m.log
    ensures log <= Drain(m, [t], env, None).m.log
  {
    var f := FireWith(m, t, env, None);
    if f.Fired? {
      DrainsOn(m, t, env, None, f);
      DrainGrowsLog(f.m, f.queued, env, None);
    }
  }

  /** An order without a task to work on is ended, or the task is refused. */
  lemma EndingLogs(m: Machine, t: Trigger, env: Env) returns (e: LogEntry)
    requires Orderly(m, []) && m.state == MovingToSourceBin && t in {WarehouseOrderAborted, InvalidWarehouseTask}
    requires t == InvalidWarehouseTask ==> m.wht.Some?
    ensures !e.Started? && m.log + [e] <= Drain(m, [t], env, None).m.log
  {
    var effect := if t == InvalidWarehouseTask then FailPickup else AbortOrder;
    e := if t == InvalidWarehouseTask then Confirmed(m.wht.value.tanum, First, false) else Ended(m.who.value.id, false);
    CloseLogs(m, t, effect);
    ArrivalGrowsLog(m.state, Entering(m, t, effect, Idle), t, env, None);
    DrainLogs(m, t, env, m.log + [e]);
  }

  /** A failed mission is tried again, with the first task of the order. */
  lemma RetryQueues(m: Machine, env: Env)
    requires Orderly(m, []) && m.state == MovingToSourceBin && ErrorsOf(m, m.state) < env.maxRetry
    ensures var f, tasks := FireWith(m, MissionFailed, env, None), m.who.value.tasks;
      && f.Fired? && f.m.state == MovingToSourceBin && f.m.log == m.log && f.m.who == m.who
      && (tasks == [] ==> f.queued == [WarehouseOrderAborted])
      && (tasks != [] && !tasks[0].handlingUnit ==> f.m.wht.Some? && f.queued == [InvalidWarehouseTask])
  {
  }

  lemma FailingBreaks(m: Machine, env: Env)
    requires Orderly(m, []) && m.state == MovingToSourceBin && m.mission != "" && Track(Between, m.log) == Between
    requires ErrorsOf(m, m.state) < env.maxRetry && env.mission != ""
    ensures Breakable(Step(m, Input(MissionChanged(Unsuccessful), env, None)).m)
  {
    var input, tasks, n := Input(MissionChanged(Unsuccessful), env, None), m.who.value.tasks, m.(mission := "");
    if tasks != [] && tasks[0].handlingUnit {
      FirstFailure(m, env);
      SucceedingBreaks(Step(m, input).m, env);
    } else {
      assert Prepare(m, input.event, env) == (n, [MissionFailed]);
      RetryQueues(n, env);
      var f := FireWith(n, MissionFailed, env, None);
      DrainsOn(n, MissionFailed, env, None, f);
      var e := EndingLogs(f.m, f.queued[0], env);
      BreaksFrom(m.log, e, Step(m, input).m.log);
      BrokenIsBreakable(Step(m, input).m);
    }
  }

  lemma SucceedingBreaks(m: Machine, env: Env)
    requires Orderly(m, []) && m.state == MovingToSourceBin && m.mission != "" && m.wht.Some?
    requires Track(Between, m.log) == Between || Track(Between, m.log).Refused?
    ensures Breakable(m)
  {
    var input := Input(MissionChanged(Succeeded), env, None);
    SucceedingLogs(m, env);
    BreaksFrom(m.log, Confirmed(m.wht.value.tanum, First, true), Step(m, input).m.log);
    BrokenIsBreakable(Step(m, input).m);
    CalmStepBreaks(m, input);
  }

  lemma CompletingBreaks(m: Machine, env: Env)
    requires Orderly(m, []) && m.state == WaitingForErrorRecovery && Track(Between, m.log) == Between
    ensures Breakable(m)
  {
    var id := m.who.value.id;
    var input := Input(OrderCompleted(id), env, None);
    GivingUpLogs(m, env, None);
    CompletionLogs(m, env, None);
    BreaksFrom(m.log, Ended(id, false), Step(m, input).m.log);
    BrokenIsBreakable(Step(m, input).m);
    CalmStepBreaks(m, input);
  }

  lemma DoomedIsBreakable(m: Machine)
    requires Orderly(m, []) && Doomed(m)
    ensures Breakable(m)
  {
    var env := Env(Run, 100.0, 0.0, 0.0, 0.0, ErrorsOf(m, m.state) + 1, "mission");
    if m.state == WaitingForErrorRecovery {
      CompletingBreaks(m, env);
    } else if m.wht.Some? {
      SucceedingBreaks(m, env);
    } else {
      FailingBreaks(m, env);
      CalmStepBreaks(m, Input(MissionChanged(Unsuccessful), env, None));
    }
  }

  lemma {:induction false} DrainDooms(m: Machine, pending: seq<Trigger>, env: Env, fault: Option<Fault>)
    requires Orderly(m, pending) && Follows(m) && Proper(m, pending) && Forgotten(m, pending)
    requires Tainted(m, pending, env, fault)
    ensures Doomed(Drain(m, pending, env, fault).m)
    decreases OpenOrders(m), PendingRank(pending, m.state)
  {
    DrainShrinks(m, pending, env, Now(fault));
    FirstTrigger(m, pending, env, Now(fault));
    var t, f := pending[0], FireWith(m, pending[0], env, Now(fault));
    FirstIs(m, pending);
    if f.Fired? {
      NextForgotten(m, pending, env, Now(fault));
      DrainDooms(f.m, pending[1..] + f.queued, env, Later(fault));
    } else {
      RaisedDooms(m, t, env, Now(fault));
    }
  }

  lemma FirstIs(m: Machine, pending: seq<Trigger>)
    requires pending != [] && Orderly(m, pending) && Proper(m, pending) && Forgotten(m, pending)
    ensures Orderly(m, [pending[0]]) && Proper(m, [pending[0]]) && Forgotten(m, [pending[0]])
  {
    assert pending[0] in pending;
  }

  lemma NextForgotten(m: Machine, pending: seq<Trigger>, env: Env, raise: Option<Raise>)
    requires pending != [] && Orderly(m, pending) && Forgotten(m, pending)
    requires FireWith(m, pending[0], env, raise).Fired?
    ensures var f := FireWith(m, pending[0], env, raise);
      Forgotten(f.m, pending[1..] + f.queued)
  {
    assert pending[0] in pending;
    FireForgets(m, pending[0], env, raise);
    if |pending| == 1 {
      assert forall queued: seq<Trigger> :: pending[1..] + queued == queued;
    }
  }

  /**
   * A callback after which calm callbacks may break the protocol is one in which a call raises
   * and taints the log, and every such callback is one.
   */
  lemma TaintsIffBreakable(m: Machine, input: Input)
    requires Orderly(m, []) && Sound(m) && Undisturbed(m, input.event)
    ensures StepTaints(m, input) <==> Breakable(Step(m, input).m)
  {
    StepIsSoundIff(m, input);
    if !StepTaints(m, input) {
      SoundIsUnbreakable(Step(m, input).m);
    } else {
      StepDooms(m, input);
      DoomedIsBreakable(Step(m, input).m);
    }
  }

  lemma StepDooms(m: Machine, input: Input)
    requires Orderly(m, []) && Sound(m) && Undisturbed(m, input.event) && StepTaints(m, input)
    ensures Doomed(Step(m, input).m)
  {
    if Stuck(m) {
      StuckIsUntainted(m, input);
    }
    PrepareFollows(m, input.event, input.env);
    PrepareKeeps(m, input.event, input.env);
    PrepareForgets(m, input.event, input.env);
    var (n, pending) := Prepare(m, input.event, input.env);
    DrainDooms(n, pending, input.env, if input.event.OrderUpdated? then Later(input.fault) else input.fault);
  }

  /** Calm callbacks could break the protocol at no time during the run. */
  ghost predicate NeverBreakable(inputs: seq<Input>) {
    !Breakable(Reached(inputs)) && (inputs != [] ==> NeverBreakable(inputs[..|inputs| - 1]))
  }

  /** In a run that leaves task lists alone, the protocol stays safe exactly when no raise taints the log. */
  lemma {:induction false} SafeRunsIff(inputs: seq<Input>)
    requires UndisturbedRun(inputs)
    ensures NeverBreakable(inputs) <==> NeverTainted(inputs)
  {
    if inputs == [] {
      SoundIsUnbreakable(Fresh());
    } else {
      var init, last := inputs[..|inputs| - 1], inputs[|inputs| - 1];
      SafeRunsIff(init);
      RunIsSoundIff(init);
      if NeverTainted(init) {
        TaintsIffBreakable(Reached(init), last);
      }
    }
  }
  /* ---------- Runs of a fresh robot ---------- */

  function Up(order: Order, env: Env): Input {
    Input(OrderUpdated(order, 0), env, None)
  }

  function On(report: MissionReport, env: Env): Input {
    Input(MissionChanged(report), env, None)
  }

  /** The call raises in the trigger that comes after so many others. */
  function Failing(input: Input, after: nat, raise: Raise): Input {
    input.(fault := Some(Fault(after, raise)))
  }

  lemma Docks(m: Machine, env: Env)
    requires Orderly(m, []) && Works(m) && m.state in {MovingToSourceBin, MovingToTargetBin}
    ensures var n := Step(m, On(Docking, env)).m;
      && n.state == (if m.state == MovingToSourceBin then LoadingTrolley else UnloadingTrolley)
      && n.who == m.who && n.wht == m.wht && n.log == m.log && Works(n)
  {
    assert Prepare(m, MissionChanged(Docking), env) == (m, [MissionDocking]);
    var f := FireWith(m, MissionDocking, env, None);
    assert f.Fired? && f.queued == [];
    DrainsOn(m, MissionDocking, env, None, f);
  }

  lemma Loads(m: Machine, env: Env)
    requires Orderly(m, []) && Works(m) && m.state == LoadingTrolley && env.mission != ""
    ensures var n := Step(m, On(Succeeded, env)).m;
      && n.state == MovingToTargetBin && n.wht == m.wht && Works(n) && n.errors == m.errors[LoadingTrolley := 0]
      && n.who.value.id == m.who.value.id
      && n.who.value.tasks == WithoutSource(m.who.value.tasks, m.wht.value.tanum)
      && n.log == m.log + [Confirmed(m.wht.value.tanum, First, true)]
  {
    var p := m.(mission := "");
    assert Prepare(m, MissionChanged(Succeeded), env) == (p, [MissionSucceeded]);
    var f := FireWith(p, MissionSucceeded, env, None);
    assert f.Fired? && f.queued == [CreateMission];
    DrainsOn(p, MissionSucceeded, env, None, f);
    CreateDrains(f.m, env);
  }

  /** The last mission to the target bin fails. */
  lemma ReturnFails(m: Machine, env: Env)
    requires Orderly(m, []) && Works(m) && m.state == MovingToTargetBin && ErrorsOf(m, m.state) >= env.maxRetry
    ensures var n := Step(m, On(Unsuccessful, env)).m;
      && n.state == WaitingForErrorRecovery && n.who == m.who && n.wht == m.wht && Works(n)
      && n.log == m.log + [Confirmed(m.wht.value.tanum, Second, false)]
  {
    var p := m.(mission := "");
    assert Prepare(m, MissionChanged(Unsuccessful), env) == (p, [MissionFailed]);
    var f := FireWith(p, MissionFailed, env, None);
    assert f.Fired? && f.queued == [];
    DrainsOn(p, MissionFailed, env, None, f);
  }

  /** An order that a fresh robot takes up at once. */
  predicate Suitable(order: Order, env: Env) {
    env.mode == Run && env.mission != "" && order.tasks != [] && order.tasks[0].handlingUnit
  }

  /** The robot loads its trolley for the first task of the order. */
  lemma ReachesLoading(order: Order, env: Env) returns (inputs: seq<Input>)
    requires Suitable(order, env)
    ensures inputs == [Up(order, env), On(Docking, env)]
    ensures var m := Reached(inputs);
      && m.state == LoadingTrolley && Works(m) && m.who == Some(order) && m.wht == Some(order.tasks[0])
      && m.log == [Started(order)]
  {
    TakesUp(order, env);
    Docks(Reached([Up(order, env)]), env);
    ReachedNext([Up(order, env)], On(Docking, env));
    inputs := [Up(order, env)] + [On(Docking, env)];
  }

  /** The robot brings the only task of the order to its target bin. */
  lemma ReachesTarget(order: Order, env: Env) returns (inputs: seq<Input>)
    requires Suitable(order, env) && |order.tasks| == 1
    ensures inputs == [Up(order, env), On(Docking, env), On(Succeeded, env)]
    ensures Returning(Reached(inputs), MovingToTargetBin, order)
  {
    inputs := ReachesLoading(order, env);
    Returns(inputs, order, env);
    inputs := inputs + [On(Succeeded, env)];
  }

  lemma Returns(inputs: seq<Input>, order: Order, env: Env)
    requires env.mission != "" && |order.tasks| == 1 && Reached(inputs).state == LoadingTrolley
    requires Works(Reached(inputs)) && Reached(inputs).who == Some(order) && Reached(inputs).wht == Some(order.tasks[0])
    ensures Returning(Reached(inputs + [On(Succeeded, env)]), MovingToTargetBin, order)
  {
    Loads(Reached(inputs), env);
    ReachedNext(inputs, On(Succeeded, env));
  }

  /** The robot works on the only task of the order, which it has loaded. */
  predicate Returning(m: Machine, s: RobotState, order: Order) {
    && m.state == s && Works(m) && m.who.Some? && m.who.value.id == order.id && !MoreWarehouseTasks(m)
    && m.wht.Some? && order.tasks != [] && m.wht.value.tanum == order.tasks[0].tanum
  }

  lemma ReachesUnloading(order: Order, env: Env) returns (inputs: seq<Input>)
    requires Suitable(order, env) && |order.tasks| == 1
    ensures inputs == [Up(order, env), On(Docking, env), On(Succeeded, env), On(Docking, env)]
    ensures Returning(Reached(inputs), UnloadingTrolley, order)
  {
    inputs := ReachesTarget(order, env);
    Docks(Reached(inputs), env);
    ReachedNext(inputs, On(Docking, env));
    inputs := inputs + [On(Docking, env)];
  }

  /** A mission to the target bin fails and is tried again. */
  lemma RetriesReturn(m: Machine, order: Order, env: Env)
    requires Orderly(m, []) && Returning(m, MovingToTargetBin, order) && ErrorsOf(m, m.state) < env.maxRetry
    requires env.mission != ""
    ensures var n := Step(m, On(Unsuccessful, env)).m;
      Returning(n, MovingToTargetBin, order) && ErrorsOf(n, n.state) == ErrorsOf(m, m.state) + 1
  {
    var p := m.(mission := "");
    assert Prepare(m, MissionChanged(Unsuccessful), env) == (p, [MissionFailed]);
    var f := FireWith(p, MissionFailed, env, None);
    assert f.Fired? && f.queued == [CreateMission];
    DrainsOn(p, MissionFailed, env, None, f);
    CreateDrains(f.m, env);
  }

  predicate NothingRaises(inputs: seq<Input>) {
    forall i :: 0 <= i < |inputs| ==> inputs[i].fault.None?
  }

  /** After too many of them the robot waits for others to complete the order. */
  lemma {:induction false} ReachesWaiting(inputs: seq<Input>, order: Order, env: Env) returns (run: seq<Input>)
    requires Returning(Reached(inputs), MovingToTargetBin, order) && env.mission != "" && NothingRaises(inputs)
    ensures Returning(Reached(run), WaitingForErrorRecovery, order) && NothingRaises(run)
    decreases env.maxRetry - ErrorsOf(Reached(inputs), MovingToTargetBin)
  {
    run := inputs + [On(Unsuccessful, env)];
    if ErrorsOf(Reached(inputs), MovingToTargetBin) < env.maxRetry {
      FailsOnceMore(inputs, order, env, run);
      run := ReachesWaiting(run, order, env);
    } else {
      FailsFinally(inputs, order, env);
    }
  }

  lemma FailsOnceMore(inputs: seq<Input>, order: Order, env: Env, more: seq<Input>)
    requires Returning(Reached(inputs), MovingToTargetBin, order) && env.mission != ""
    requires ErrorsOf(Reached(inputs), MovingToTargetBin) < env.maxRetry && more == inputs + [On(Unsuccessful, env)]
    ensures Returning(Reached(more), MovingToTargetBin, order)
    ensures ErrorsOf(Reached(more), MovingToTargetBin) == ErrorsOf(Reached(inputs), MovingToTargetBin) + 1
  {
    RetriesReturn(Reached(inputs), order, env);
    ReachedNext(inputs, On(Unsuccessful, env));
  }

  lemma FailsFinally(inputs: seq<Input>, order: Order, env: Env)
    requires Returning(Reached(inputs), MovingToTargetBin, order)
    requires ErrorsOf(Reached(inputs), MovingToTargetBin) >= env.maxRetry
    ensures Returning(Reached(inputs + [On(Unsuccessful, env)]), WaitingForErrorRecovery, order)
  {
    ReturnFails(Reached(inputs), env);
    ReachedNext(inputs, On(Unsuccessful, env));
  }

  /** A first confirmation that cannot be sent leaves the robot loading without a mission. */
  lemma LoadsWithoutMission(order: Order, env: Env)
    requires Suitable(order, env)
    ensures var unsent := Failing(On(Succeeded, env), 0, Raise(Confirming, false));
      var m := Reached([Up(order, env), On(Docking, env), unsent]);
      m.state == LoadingTrolley && Stuck(m) && m.log == [Started(order)]
  {
    var unsent := Failing(On(Succeeded, env), 0, Raise(Confirming, false));
    var inputs := ReachesLoading(order, env);
    UnsentConfirmation(Reached(inputs), env);
    ReachedNext(inputs, unsent);
    assert inputs + [unsent] == [Up(order, env), On(Docking, env), unsent];
  }

  /** A finalizer that cannot be removed leaves the finished order active, without a task. */
  lemma FinishedStaysActive(order: Order, env: Env)
    requires Suitable(order, env) && |order.tasks| == 1
    ensures var unclosed := Failing(On(Succeeded, env), 0, Raise(Closing, false));
      var m := Reached([Up(order, env), On(Docking, env), On(Succeeded, env), On(Docking, env)] + [unclosed]);
      && m.state == UnloadingTrolley && Stuck(m) && m.who.Some? && m.wht.None?
      && m.log != [] && m.log[|m.log| - 1] == Ended(order.id, true)
  {
    var inputs := ReachesUnloading(order, env);
    KeepsFinalizer(inputs, order, env);
  }

  lemma KeepsFinalizer(inputs: seq<Input>, order: Order, env: Env)
    requires Returning(Reached(inputs), UnloadingTrolley, order)
    ensures var m := Reached(inputs + [Failing(On(Succeeded, env), 0, Raise(Closing, false))]);
      && m.state == UnloadingTrolley && Stuck(m) && m.who.Some? && m.wht.None?
      && m.log != [] && m.log[|m.log| - 1] == Ended(order.id, true)
  {
    KeptFinalizer(Reached(inputs), env);
    ReachedNext(inputs, Failing(On(Succeeded, env), 0, Raise(Closing, false)));
  }
  lemma EndsOnce(m: Machine, env: Env, once: Machine)
    requires Orderly(m, []) && m.state == WaitingForErrorRecovery
    requires once == Step(m, Failing(Completed(m.who.value.id, env), 0, Raise(Closing, false))).m
    ensures once.log == m.log + [Ended(m.who.value.id, false)] && once.state == m.state
    ensures once.who.Some? && once.who.value.id == m.who.value.id
  {
    GivingUpLogs(m, env, Some(Raise(Closing, false)));
    CompletionLogs(m, env, Some(Raise(Closing, false)));
  }

  /** An order that is completed by others while its finalizer cannot be removed is ended twice. */
  lemma EndsTwice(m: Machine, env: Env, once: Machine)
    requires Orderly(m, []) && Works(m) && m.state == WaitingForErrorRecovery
    requires once == Step(m, Failing(Completed(m.who.value.id, env), 0, Raise(Closing, false))).m
    ensures var id := m.who.value.id;
      && once.log == m.log + [Ended(id, false)]
      && once.log + [Ended(id, false)] <= Step(once, Completed(id, env)).m.log
      && Track(Between, Step(once, Completed(id, env)).m.log) == Broken
  {
    var id := m.who.value.id;
    EndsOnce(m, env, once);
    GivingUpLogs(once, env, None);
    CompletionLogs(once, env, None);
    TrackAppend(Between, m.log, Ended(id, false));
    BreaksFrom(once.log, Ended(id, false), Step(once, Completed(id, env)).m.log);
  }

  function Completed(id: string, env: Env): Input {
    Input(OrderCompleted(id), env, None)
  }

  /**
   * A robot waits for others to complete its order. While the finalizer cannot be removed the
   * order is logged as ended, and once more with the next callback.
   */
  lemma EndedTwice(order: Order, env: Env) returns (run: seq<Input>)
    requires Suitable(order, env) && |order.tasks| == 1
    ensures NothingRaises(run)
    ensures var begin := run + [Failing(Completed(order.id, env), 0, Raise(Closing, false))];
      var log := Reached(begin + [Completed(order.id, env)]).log;
      && Reached(begin).log == Reached(run).log + [Ended(order.id, false)]
      && Reached(begin).log + [Ended(order.id, false)] <= log && Track(Between, log) == Broken
  {
    var inputs := ReachesTarget(order, env);
    run := ReachesWaiting(inputs, order, env);
    var begin := run + [Failing(Completed(order.id, env), 0, Raise(Closing, false))];
    ReachedNext(run, Failing(Completed(order.id, env), 0, Raise(Closing, false)));
    EndsTwice(Reached(run), env, Reached(begin));
    ReachedNext(begin, Completed(order.id, env));
  }

  /* ---------- A task confirmed twice ---------- */

  /** The robot refuses the only order of its queue at once. */
  predicate Refusable(order: Order, env: Env) {
    && env.mode == Run && env.mission != "" && env.battery >= env.batteryMin
    && order.tasks != [] && !order.tasks[0].handlingUnit
  }

  /** An idle robot without work whose last orders failed. */
  predicate Rests(m: Machine, failed: nat) {
    m.state == Idle && m.who.None? && m.orders == [] && m.failed == failed
  }

  /** Taking up the order, the robot finds that it cannot handle its first task. */
  lemma TakesUpRefusable(m: Machine, order: Order, env: Env)
    requires m.state == Idle && m.who.None? && Refusable(order, env)
    ensures var f := FireWith(m, ProcessWarehouseOrder(order), env, None);
      && f.Fired? && f.queued == [InvalidWarehouseTask] && f.m.state == MovingToSourceBin
      && f.m.who == Some(order) && f.m.wht == Some(order.tasks[0]) && f.m.mission == m.mission
      && f.m.orders == m.orders && f.m.failed == m.failed && f.m.log == m.log + [Started(order)]
  {
  }

  lemma RefusesTask(m: Machine, env: Env)
    requires Orderly(m, []) && m.state == MovingToSourceBin && m.wht.Some? && Without(m.orders, m.who.value.id) == []
    requires env.mode == Run && env.battery >= env.batteryMin
    ensures var f := FireWith(m, InvalidWarehouseTask, env, None);
      && f.Fired? && Rests(f.m, m.failed + 1) && f.m.mission == m.mission
      && f.queued == if m.failed + 1 > 3 then [TooManyFailedWhos] else []
  {
    BeforeClosingKeeps(m, FailPickup);
    BeforeClosingKeepsMission(m, FailPickup);
    ClosingInterrupted(m, InvalidWarehouseTask, FailPickup, None);
    var n := Entering(m, InvalidWarehouseTask, FailPickup, Idle);
    assert n.orders == [] && n.failed == m.failed + 1 && n.mission == m.mission;
  }

  /** The order is the only one in the queue, and is going to be taken up. */
  lemma QueuesOrder(m: Machine, order: Order, env: Env)
    requires Rests(m, m.failed) && env.mode == Run
    ensures var n, t := Updated(m, order, 0), ProcessWarehouseOrder(order);
      && Prepare(m, OrderUpdated(order, 0), env) == (n, [t]) && Orderly(n, [t])
      && Without(n.orders, order.id) == []
  {
    EnqueuedContains([], Queued(order, 0));
    EnqueuedOne(order);
  }

  /** The order is taken up, and its first task is about to be refused. */
  lemma StartsRefusable(m: Machine, order: Order, env: Env, fault: Option<Fault>) returns (n: Machine)
    requires Rests(m, m.failed) && Refusable(order, env) && (fault.Some? ==> fault.value.after >= 2)
    ensures Orderly(n, [InvalidWarehouseTask]) && n.state == MovingToSourceBin && n.who == Some(order)
    ensures n.wht == Some(order.tasks[0]) && n.mission == m.mission && n.failed == m.failed
    ensures Without(n.orders, order.id) == [] && n.log == m.log + [Started(order)]
    ensures Step(m, Input(OrderUpdated(order, 0), env, fault)) ==
            Drain(n, [InvalidWarehouseTask], env, Later(Later(fault)))
  {
    var updated, t := Updated(m, order, 0), ProcessWarehouseOrder(order);
    QueuesOrder(m, order, env);
    TakesUpRefusable(updated, order, env);
    var f := FireWith(updated, t, env, None);
    DrainsOn(updated, t, env, Later(fault), f);
    n := f.m;
  }

  /** The triggers of the callback up to the refusal. */
  lemma TakesAndRefuses(m: Machine, order: Order, env: Env) returns (f: Fired)
    requires Rests(m, m.failed) && Refusable(order, env)
    ensures f.Fired? && Orderly(f.m, f.queued) && Rests(f.m, m.failed + 1) && f.m.mission == m.mission
    ensures f.queued == if m.failed + 1 > 3 then [TooManyFailedWhos] else []
    ensures Step(m, Up(order, env)) == Drain(f.m, f.queued, env, None)
  {
    var n := StartsRefusable(m, order, env, None);
    RefusesTask(n, env);
    f := FireWith(n, InvalidWarehouseTask, env, None);
    DrainsOn(n, InvalidWarehouseTask, env, None, f);
  }

  lemma Refuses(m: Machine, order: Order, env: Env)
    requires Rests(m, m.failed) && m.failed < 3 && Refusable(order, env)
    ensures Rests(Step(m, Up(order, env)).m, m.failed + 1)
  {
    var f := TakesAndRefuses(m, order, env);
  }

  /** After too many failed orders the robot drives to the staging area and waits for recovery. */
  lemma RefusesFinally(m: Machine, order: Order, env: Env)
    requires Rests(m, 3) && Refusable(order, env)
    ensures var n := Step(m, Up(order, env)).m;
      n.state == RobotError && n.who.None? && n.orders == [] && n.failed == 0 && n.mission == env.mission
  {
    var f := TakesAndRefuses(m, order, env);
    GivesUpWork(f.m, env);
  }

  lemma GivesUpWork(m: Machine, env: Env)
    requires Rests(m, m.failed)
    ensures Orderly(m, [TooManyFailedWhos])
    ensures var n := Drain(m, [TooManyFailedWhos], env, None).m;
      n.state == RobotError && n.who.None? && n.orders == [] && n.failed == 0 && n.mission == env.mission
  {
    var f := FireWith(m, TooManyFailedWhos, env, None);
    assert f.Fired? && f.queued == [CreateMission];
    DrainsOn(m, TooManyFailedWhos, env, None, f);
    CreateDrains(f.m, env);
  }

  /** Recovering does not cancel the mission to the staging area. */
  lemma Recovers(m: Machine, env: Env)
    requires m.state == RobotError && m.who.None? && m.orders == [] && m.failed == 0
    requires env.mode == Run && env.battery >= env.batteryMin
    ensures var n := Step(m, Input(RecoverRequested, env, None)).m;
      Rests(n, 0) && n.mission == m.mission
  {
    assert Prepare(m, RecoverRequested, env) == (m, [RecoverRobot]);
    var f := FireWith(m, RecoverRobot, env, None);
    assert f.Fired? && f.queued == [];
    DrainsOn(m, RecoverRobot, env, None, f);
  }

  /** The refusal is recorded although its call raises. */
  lemma RefusalRaises(m: Machine, order: Order, env: Env)
    requires Rests(m, 0) && Refusable(order, env)
    ensures var n := Step(m, Failing(Up(order, env), 2, Raise(Confirming, true))).m;
      && n.state == MovingToSourceBin && n.mission == m.mission && n.wht == Some(order.tasks[0])
      && n.log == m.log + [Started(order)] + [Confirmed(order.tasks[0].tanum, First, false)]
  {
    var n := StartsRefusable(m, order, env, Some(Fault(2, Raise(Confirming, true))));
    InvalidRaises(n, env);
  }

  lemma InvalidRaises(m: Machine, env: Env)
    requires Orderly(m, [InvalidWarehouseTask]) && m.state == MovingToSourceBin && m.wht.Some?
    ensures Drain(m, [InvalidWarehouseTask], env, Some(Fault(0, Raise(Confirming, true)))) ==
            Result(ConfirmFor(m, FailPickup), ApiError)
  {
    assert FireWith(m, InvalidWarehouseTask, env, Some(Raise(Confirming, true))) == Raised(ConfirmFor(m, FailPickup));
  }

  /** Four refused orders, and a recovery. */
  lemma ReachesStaleMission(order: Order, env: Env)
    requires Refusable(order, env)
    ensures var up := Up(order, env);
      var m := Reached([up, up, up, up, Input(RecoverRequested, env, None)]);
      Rests(m, 0) && m.mission == env.mission
  {
    var up, recover := Up(order, env), Input(RecoverRequested, env, None);
    ReachesFailed(order, env);
    RefusesFinally(Reached([up, up, up]), order, env);
    ReachedNext([up, up, up], up);
    assert [up, up, up] + [up] == [up, up, up, up];
    Recovers(Reached([up, up, up, up]), env);
    ReachedNext([up, up, up, up], recover);
    assert [up, up, up, up] + [recover] == [up, up, up, up, recover];
  }

  lemma ReachesFailed(order: Order, env: Env)
    requires Refusable(order, env)
    ensures var up := Up(order, env); Rests(Reached([up, up, up]), 3)
  {
    var up := Up(order, env);
    FreshStep(up);
    Refuses(Fresh(), order, env);
    Refuses(Reached([up]), order, env);
    ReachedNext([up], up);
    assert [up] + [up] == [up, up];
    Refuses(Reached([up, up]), order, env);
    ReachedNext([up, up], up);
    assert [up, up] + [up] == [up, up, up];
  }

  /**
   * A robot that recovered from failed orders keeps the mission to its staging area. It takes up an
   * order and refuses the first task, and the confirmation is recorded although its call raises.
   * When the old mission ends, the task is confirmed as picked up as well.
   */
  lemma ConfirmedTwice(order: Order, env: Env)
    requires Refusable(order, env)
    ensures var up, tanum := Up(order, env), order.tasks[0].tanum;
      var begin := [up, up, up, up, Input(RecoverRequested, env, None)];
      var raised := begin + [Failing(up, 2, Raise(Confirming, true))];
      var log := Reached(raised + [On(Succeeded, env)]).log;
      && Reached(raised).log == Reached(begin).log + [Started(order)] + [Confirmed(tanum, First, false)]
      && Reached(raised).log + [Confirmed(tanum, First, true)] <= log && Track(Between, log) == Broken
  {
    var up, tanum := Up(order, env), order.tasks[0].tanum;
    var begin := [up, up, up, up, Input(RecoverRequested, env, None)];
    ReachesStaleMission(order, env);
    RaisesThenConfirms(begin, order, env);
  }

  lemma RaisesThenConfirms(begin: seq<Input>, order: Order, env: Env)
    requires Refusable(order, env) && Rests(Reached(begin), 0) && Reached(begin).mission == env.mission
    ensures var tanum, raised := order.tasks[0].tanum, begin + [Failing(Up(order, env), 2, Raise(Confirming, true))];
      var log := Reached(raised + [On(Succeeded, env)]).log;
      && Reached(raised).log == Reached(begin).log + [Started(order)] + [Confirmed(tanum, First, false)]
      && Reached(raised).log + [Confirmed(tanum, First, true)] <= log && Track(Between, log) == Broken
  {
    var tanum, raised := order.tasks[0].tanum, begin + [Failing(Up(order, env), 2, Raise(Confirming, true))];
    ReachedNext(begin, Failing(Up(order, env), 2, Raise(Confirming, true)));
    RefusalRaises(Reached(begin), order, env);
    SucceedingLogs(Reached(raised), env);
    ReachedNext(raised, On(Succeeded, env));
    RefusedBreaks(Reached(begin).log, order, tanum, Reached(raised + [On(Succeeded, env)]).log);
  }

  lemma RefusedBreaks(begin: seq<LogEntry>, order: Order, tanum: string, log: seq<LogEntry>)
    requires begin + [Started(order)] + [Confirmed(tanum, First, false)] + [Confirmed(tanum, First, true)] <= log
    ensures Track(Between, log) == Broken
  {
    TrackTwo(Between, begin, Started(order), Confirmed(tanum, First, false));
    BreaksFrom(begin + [Started(order)] + [Confirmed(tanum, First, false)], Confirmed(tanum, First, true), log);
  }
}
