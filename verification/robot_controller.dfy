/** The robot's controller object: handlers change its fields, triggers wait in a queue. */
module RobotController {
  import opened Common
  import opened RobotConfig
  import opened RobotMachine

  /** A confirmation of a warehouse task, as the robot reports it and the order manager works it off. */
  datatype StatusEntry = StatusEntry(rsrc: string, tanum: string, number: ConfirmationNumber, success: bool)

  /** The resource of an order: its data, place in the queue, and what the order manager processed. */
  datatype OrderSpec = OrderSpec(order: Order, sequence: int, processed: bool, processStatus: seq<StatusEntry>)

  /** The entries of the robot's own EWM resource. */
  function OwnStatus(entries: seq<StatusEntry>, robotName: string): seq<StatusEntry> {
    if entries == [] then []
    else (if Lower(entries[0].rsrc) == robotName then [entries[0]] else []) + OwnStatus(entries[1..], robotName)
  }

  /** The task is listed as if the confirmation had not been made. */
  predicate Outdated(task: Task, entry: StatusEntry) {
    && entry.tanum == task.tanum && entry.success
    && (entry.number == First ==> task.source != "")
  }

  /** EWM knows what the robot confirmed, and the tasks of the order show it. */
  predicate UpToDate(spec: OrderSpec, statusData: seq<StatusEntry>, robotName: string) {
    && statusData == OwnStatus(spec.processStatus, robotName)
    && forall task, entry :: task in spec.order.tasks && entry in statusData ==> !Outdated(task, entry)
  }

  /** Whether the resource of an order has to be processed by the robot. */
  method WarehouseOrderPrecheck(spec: OrderSpec, statusData: seq<StatusEntry>, robotName: string) returns (ok: bool)
    ensures ok <==> UpToDate(spec, statusData, robotName)
  {
    if statusData != OwnStatus(spec.processStatus, robotName) {
      return false;
    }
    var tasks := spec.order.tasks;
    for i := 0 to |tasks|
      invariant forall k, entry | 0 <= k < i && entry in statusData :: !Outdated(tasks[k], entry)
    {
      for j := 0 to |statusData|
        invariant forall l :: 0 <= l < j ==> !Outdated(tasks[i], statusData[l])
      {
        var entry := statusData[j];
        assert tasks[i] in spec.order.tasks && entry in statusData;
        if tasks[i].tanum == entry.tanum {
          if entry.number == First && entry.success && tasks[i].source != "" {
            return false;
          }
          if entry.number == Second && entry.success {
            return false;
          }
        }
      }
    }
    ok := true;
  }

  /** The order's resource is named after its warehouse and number, in lower case. */
  predicate NamesOrder(name: string) {
    exists i :: 0 <= i < |name| && name[i] == '.' && '.' !in name[..i] && '.' !in name[i + 1..]
  }

  class RobotEWMMachine {
    const robotName: string
    var processedOrderSpec: map<string, OrderSpec>
    var state: RobotState
    var activeWho: Option<Order>
    var activeWht: Option<Task>
    var activeMission: string
    var errorCount: map<RobotState, nat>
    var failedWarehouseorders: nat
    var warehouseorders: seq<Queued>
    var log: seq<LogEntry>
    var pending: seq<Trigger>

    constructor (robotName: string)
      ensures View() == Machine(Idle, None, None, "", map[], 0, [], []) && pending == []
      ensures this.robotName == robotName && processedOrderSpec == map[]
    {
      this.robotName, processedOrderSpec := robotName, map[];
      state, activeWho, activeWht, activeMission := Idle, None, None, "";
      errorCount, failedWarehouseorders, warehouseorders, log, pending := map[], 0, [], [], [];
    }

    function View(): Machine
      reads this
    {
      Machine(state, activeWho, activeWht, activeMission, errorCount, failedWarehouseorders, warehouseorders, log)
    }

    /* ---------- Handlers ---------- */

    method CloseActiveWht()
      modifies this`activeWho, this`activeWht
      ensures View() == CloseWht(old(View()))
    {
      if activeWht.Some? {
        if activeWho.Some? {
          activeWho := Some(activeWho.value.(tasks := WithoutTask(activeWho.value.tasks, activeWht.value.tanum)));
        }
        activeWht := None;
      }
    }

    /** The order leaves the queue first; while its finalizer cannot be removed it stays active. */
    method CloseActiveWho(raise: Option<Raise>) returns (raised: bool)
      modifies this`activeWho, this`warehouseorders
      ensures raised <==> Raises(raise, Closing) && old(activeWho).Some?
      ensures View() == if raised then Dequeued(old(View())) else CloseWho(old(View()))
    {
      if activeWho.Some? {
        warehouseorders := Without(warehouseorders, activeWho.value.id);
        if Raises(raise, Closing) {
          return true;
        }
      }
      activeWho := None;
      raised := false;
    }

    method SaveActiveWarehouseOrder(order: Order, raise: Option<Raise>) returns (raised: bool)
      modifies this`activeWho
      ensures raised <==> Raises(raise, Finalizing)
      ensures View() == old(View()).(who := Some(order))
    {
      activeWho := Some(order);
      raised := Raises(raise, Finalizing);
    }

    /** A confirmation may be recorded although its call raises. */
    method SendConfirmation(number: ConfirmationNumber, success: bool, raise: Option<Raise>) returns (raised: bool)
      requires activeWht.Some?
      modifies this`log
      ensures raised <==> Raises(raise, Confirming)
      ensures View() == if raised && !raise.value.recorded then old(View()) else Confirm(old(View()), number, success)
    {
      raised := Raises(raise, Confirming);
      if !raised || raise.value.recorded {
        log := log + [Confirmed(activeWht.value.tanum, number, success)];
      }
    }

    /** The source of the active warehouse task is deleted from the active order. */
    method DeleteSource()
      requires activeWht.Some?
      modifies this`activeWho
      ensures View() == SourceDeleted(old(View()))
    {
      if activeWho.Some? {
        var tasks := activeWho.value.tasks;
        for i := 0 to |tasks|
          invariant |tasks| == |activeWho.value.tasks|
          invariant forall k :: 0 <= k < i ==>
                      tasks[k] == WithoutSource(activeWho.value.tasks, activeWht.value.tanum)[k]
          invariant forall k :: i <= k < |tasks| ==> tasks[k] == activeWho.value.tasks[k]
        {
          if tasks[i].tanum == activeWht.value.tanum {
            tasks := tasks[i := tasks[i].(source := "")];
          }
        }
        assert tasks == WithoutSource(activeWho.value.tasks, activeWht.value.tanum);
        activeWho := Some(activeWho.value.(tasks := tasks));
      }
    }

    method LogWarehouseOrder(success: bool)
      modifies this`failedWarehouseorders, this`log
      ensures View() == if success then LogSuccess(old(View())) else LogFail(old(View()))
    {
      failedWarehouseorders := if success then 0 else failedWarehouseorders + 1;
      if activeWho.Some? {
        log := log + [Ended(activeWho.value.id, success)];
      }
    }

    /** The handlers that confirm the active task. */
    method RunConfirming(e: Effect, raise: Option<Raise>) returns (raised: bool)
      requires NeedsTask(e) && activeWht.Some?
      modifies this`log
      ensures raised <==> Raises(raise, Confirming)
      ensures View() == if raised && !raise.value.recorded then old(View()) else ConfirmFor(old(View()), e)
    {
      if e == FailPickup {
        raised := SendConfirmation(First, false, raise);
      } else if e == PickedUp {
        raised := SendConfirmation(First, true, raise);
      } else {
        raised := SendConfirmation(Second, e != FailReturn, raise);
      }
    }

    /** The handlers that end an order, up to closing it. */
    method RunBeforeClosing(e: Effect, raise: Option<Raise>) returns (raised: bool)
      requires Closes(e) && (NeedsTask(e) ==> activeWht.Some?)
      modifies this`activeWho, this`activeWht, this`failedWarehouseorders, this`log
      ensures raised <==> Raises(raise, Confirming) && NeedsTask(e)
      ensures raised ==> View() == if raise.value.recorded then ConfirmFor(old(View()), e) else old(View())
      ensures !raised ==> View() == BeforeClosing(old(View()), e)
    {
      raised := false;
      if NeedsTask(e) {
        raised := RunConfirming(e, raise);
        if raised {
          return;
        }
      }
      if e != AbortOrder {
        CloseActiveWht();
      }
      LogWarehouseOrder(e == FinishOrder);
    }

    /** The handlers that end an order. */
    method RunClosing(t: Trigger, e: Effect, raise: Option<Raise>) returns (raised: bool)
      requires Closes(e) && (NeedsTask(e) ==> activeWht.Some?)
      modifies this`activeWho, this`activeWht, this`failedWarehouseorders, this`warehouseorders, this`log
      ensures raised <==> Interrupted(old(View()), t, e, raise).Some?
      ensures raised ==> Interrupted(old(View()), t, e, raise) == Some(View())
      ensures !raised ==> View() == Before(old(View()), t, e)
    {
      BeforeClosingKeeps(View(), e);
      ClosingInterrupted(View(), t, e, raise);
      raised := RunBeforeClosing(e, raise);
      if !raised {
        raised := CloseActiveWho(raise);
      }
    }

    /** The handlers that confirm the active task and keep the order. */
    method RunTaskHandlers(t: Trigger, e: Effect, raise: Option<Raise>) returns (raised: bool)
      requires e in {PickedUp, FailReturn, FinishTask} && activeWht.Some?
      modifies this`activeWho, this`activeWht, this`log
      ensures raised <==> Interrupted(old(View()), t, e, raise).Some?
      ensures raised ==> Interrupted(old(View()), t, e, raise) == Some(View())
      ensures !raised ==> View() == Before(old(View()), t, e)
    {
      raised := RunConfirming(e, raise);
      if !raised {
        if e == PickedUp {
          DeleteSource();
        } else if e == FinishTask {
          CloseActiveWht();
        }
      }
    }

    /** The handlers of a transition before the state changes, one after the other. */
    method RunBefore(t: Trigger, e: Effect, raise: Option<Raise>) returns (raised: bool)
      requires NeedsTask(e) ==> activeWht.Some?
      modifies this`activeWho, this`activeWht, this`warehouseorders, this`log
      modifies this`errorCount, this`failedWarehouseorders
      ensures raised <==> Interrupted(old(View()), t, e, raise).Some?
      ensures raised ==> Interrupted(old(View()), t, e, raise) == Some(View())
      ensures !raised ==> View() == Before(old(View()), t, e)
    {
      raised := false;
      if e == CountError {
        errorCount := errorCount[state := (if state in errorCount then errorCount[state] else 0) + 1];
      } else if e == SaveOrder {
        if t.ProcessWarehouseOrder? {
          raised := SaveActiveWarehouseOrder(t.order, raise);
        }
      } else if Closes(e) {
        raised := RunClosing(t, e, raise);
      } else if e != Nothing {
        raised := RunTaskHandlers(t, e, raise);
      }
    }

    method DecideWhatsNext(env: Env)
      modifies this`pending
      ensures pending == old(pending) + WhatsNext(View(), env)
      ensures Seeks(View(), env, pending[|old(pending)|..])
    {
      ghost var waiting := pending;
      if env.mode == Charge {
        if env.battery < 90.0 {
          pending := pending + [ChargeBattery];
        }
      } else if env.battery < env.batteryMin {
        pending := pending + [ChargeBattery];
      } else if failedWarehouseorders > 3 {
        pending := pending + [TooManyFailedWhos];
      } else if warehouseorders != [] && (env.mode == Run || env.mode == IdleMode) {
        pending := pending + [ProcessWarehouseOrder(warehouseorders[0].order)];
      }
      SeeksNext(View(), env);
      assert pending[|waiting|..] == WhatsNext(View(), env);
    }

    /** Driving to the source bin of the first warehouse task. */
    method EnterMovingToSourceBin() returns (failed: bool)
      requires state == MovingToSourceBin
      modifies this`activeWht, this`pending
      ensures old(pending) <= pending
      ensures forall t, env ::
        OnEnter(old(View()), t, env) ==
        if failed then EnterFailed(View()) else Entered(View(), pending[|old(pending)|..])
    {
      failed := false;
      activeWht := None;
      if activeWho.None? {
        failed := true;
      } else if activeWho.value.tasks == [] {
        pending := pending + [WarehouseOrderAborted];
      } else {
        activeWht := Some(activeWho.value.tasks[0]);
        pending := pending + [if activeWht.value.handlingUnit then CreateMission else InvalidWarehouseTask];
      }
    }

    /** Entering the current state; fails when the order or the warehouse task it needs is missing. */
    method EnterState(t: Trigger, env: Env) returns (failed: bool)
      modifies this`activeWho, this`activeWht, this`failedWarehouseorders, this`pending
      ensures old(pending) <= pending
      ensures OnEnter(old(View()), t, env) ==
              if failed then EnterFailed(View()) else Entered(View(), pending[|old(pending)|..])
    {
      failed := false;
      match state {
        case AtStaging => DecideWhatsNext(env);
        case Idle =>
          activeWho, activeWht := None, None;
          DecideWhatsNext(env);
        case Charging => pending := pending + [CreateMission];
        case MovingToStaging => pending := pending + [CreateMission];
        case RobotError =>
          failedWarehouseorders := 0;
          pending := pending + [CreateMission];
        case MovingToSourceBin => failed := EnterMovingToSourceBin();
        case LoadingTrolley =>
          failed := activeWht.None?;
          pending := pending + if t == MissionSucceeded then [MissionSucceeded] else [];
        case MovingToTargetBin =>
          failed := activeWht.None?;
          pending := pending + [CreateMission];
        case UnloadingTrolley =>
          failed := activeWht.None?;
          pending := pending + if t == MissionSucceeded then [MissionSucceeded] else [];
        case _ =>
      }
    }

    /** The start of an order is logged, and the error counter of the state that was left is reset. */
    method RunAfterStateChange(source: RobotState, t: Trigger)
      modifies this`log, this`errorCount
      ensures View() == After(source, old(View()), t)
    {
      if t.ProcessWarehouseOrder? {
        log := log + [Started(t.order)];
      }
      if state != source && t != MissionFailed {
        errorCount := errorCount[source := 0];
      }
    }

    /** A transition that keeps the state creates or cancels a mission. */
    method ExecuteInternally(t: Trigger, env: Env, raise: Option<Raise>) returns (error: Error)
      modifies this`activeMission
      ensures View() ==
              if error == ApiError && !Raises(raise, Saving) then old(View()) else Internally(old(View()), t, env)
      ensures error in {NoError, ApiError}
      ensures error == ApiError <==>
              (Raises(raise, Missioning) && CallsMission(old(View()), t)) || Raises(raise, Saving)
    {
      if Raises(raise, Missioning) && (t == CreateMission || (t == CancelActiveMission && activeMission != "")) {
        return ApiError;
      }
      match t {
        case CreateMission => activeMission := env.mission;
        case CancelActiveMission => activeMission := "";
        case _ =>
      }
      error := SaveRobotState(raise);
    }

    /** Saving the state of the robot ends every transition. */
    method SaveRobotState(raise: Option<Raise>) returns (error: Error)
      ensures error == if Raises(raise, Saving) then ApiError else NoError
    {
      error := if Raises(raise, Saving) then ApiError else NoError;
    }

    /** Entering the current state from another one. */
    method Enter(source: RobotState, t: Trigger, env: Env, raise: Option<Raise>) returns (error: Error)
      modifies this
      ensures processedOrderSpec == old(processedOrderSpec)
      ensures error != InvalidTrigger && old(pending) <= pending
      ensures Arrive(source, old(View()), t, env, raise) == Outcome(error, View(), pending[|old(pending)|..])
    {
      ghost var waiting := |pending|;
      var failed := EnterState(t, env);
      error := Finish(failed, source, t, raise, waiting);
    }

    /** The callbacks after a change of state, if the state could be entered. */
    method Finish(failed: bool, source: RobotState, t: Trigger, raise: Option<Raise>, ghost waiting: nat)
      returns (error: Error)
      requires waiting <= |pending|
      modifies this`log, this`errorCount
      ensures error != InvalidTrigger
      ensures failed ==> Outcome(error, View(), pending[waiting..]) == Failed(old(View()))
      ensures !failed ==> Outcome(error, View(), pending[waiting..]) ==
                          Saved(After(source, old(View()), t), pending[waiting..], raise)
    {
      if failed {
        return TypeError;
      }
      RunAfterStateChange(source, t);
      error := SaveRobotState(raise);
    }

    /** A transition into another state, or into the same one again. */
    method Move(t: Trigger, e: Effect, dest: RobotState, env: Env, raise: Option<Raise>) returns (error: Error)
      requires NeedsTask(e) ==> activeWht.Some?
      modifies this
      ensures processedOrderSpec == old(processedOrderSpec)
      ensures error != InvalidTrigger && old(pending) <= pending
      ensures var i := Interrupted(old(View()), t, e, raise);
        (if i.Some? then Raised(i.value) else Arrive(old(state), Entering(old(View()), t, e, dest), t, env, raise))
        == Outcome(error, View(), pending[|old(pending)|..])
    {
      var source := state;
      var raised := RunBefore(t, e, raise);
      if raised {
        return ApiError;
      }
      state := dest;
      error := Enter(source, t, env, raise);
    }

    /** Carries out a transition; fails when a task or an order is missing, or when a call raises. */
    method ExecuteTransition(t: Trigger, rule: Rule, env: Env, raise: Option<Raise>) returns (error: Error)
      modifies this
      ensures processedOrderSpec == old(processedOrderSpec)
      ensures error != InvalidTrigger && old(pending) <= pending
      ensures Execute(old(View()), t, rule, env, raise) == Outcome(error, View(), pending[|old(pending)|..])
    {
      if rule.dest.None? {
        error := ExecuteInternally(t, env, raise);
      } else if NeedsTask(rule.effect) && activeWht.None? {
        error := TypeError;
      } else {
        error := Move(t, rule.effect, rule.dest.value, env, raise);
      }
    }

    /** Takes the first transition whose guard holds. */
    method FireTrigger(t: Trigger, env: Env, raise: Option<Raise>) returns (error: Error)
      modifies this
      ensures processedOrderSpec == old(processedOrderSpec)
      ensures old(pending) <= pending && (error == InvalidTrigger ==> View() == old(View()))
      ensures FireWith(old(View()), t, env, raise) == Outcome(error, View(), pending[|old(pending)|..])
    {
      error := NoError;
      var rules := Table(t, state);
      if rules == [] {
        return InvalidTrigger;
      }
      var rule := FirstRule(rules, View(), env);
      if rule.Some? {
        error := ExecuteTransition(t, rule.value, env, raise);
      }
    }

    /** Works off the queue, first in, first out. An error empties it. */
    method Process(env: Env, fault: Option<Fault>) returns (error: Error)
      requires Orderly(View(), pending)
      modifies this
      ensures processedOrderSpec == old(processedOrderSpec)
      ensures Result(View(), error) == Drain(old(View()), old(pending), env, fault) && pending == []
    {
      error := NoError;
      var left := fault;
      while pending != []
        invariant Orderly(View(), pending) && error == NoError && processedOrderSpec == old(processedOrderSpec)
        invariant Drain(View(), pending, env, left) == Drain(old(View()), old(pending), env, fault)
        decreases OpenOrders(View()), PendingRank(pending, state)
      {
        DrainShrinks(View(), pending, env, Now(left));
        var t := pending[0];
        pending := pending[1..];
        ghost var waiting := pending;
        error := FireTrigger(t, env, Now(left));
        if error != NoError {
          pending := [];
          return;
        }
        assert pending == waiting + pending[|waiting|..];
        left := Later(left);
      }
    }

    /** What holds between two callbacks: nothing waits, and every moveTrolley state has an active order. */
    ghost predicate Valid()
      reads this
    {
      pending == [] && Orderly(View(), [])
    }

    /** Fires triggers one after the other, as long as none of them ends with an error. */
    method Trigger(triggers: seq<Trigger>, env: Env, fault: Option<Fault>) returns (error: Error)
      requires Orderly(View(), triggers) && pending == []
      modifies this
      ensures processedOrderSpec == old(processedOrderSpec)
      ensures Result(View(), error) == Drain(old(View()), triggers, env, fault) && Valid()
    {
      pending := triggers;
      error := Process(env, fault);
    }

    /* ---------- Callbacks from outside ---------- */

    method MissionCb(report: MissionReport, env: Env, fault: Option<Fault>) returns (error: Error)
      requires Valid()
      modifies this
      ensures Valid() && Result(View(), error) == Callback(old(View()), MissionChanged(report), env, fault)
    {
      error := NoError;
      if activeMission != "" {
        match report {
          case Succeeded =>
            activeMission := "";
            error := Trigger([MissionSucceeded], env, fault);
          case Unsuccessful =>
            activeMission := "";
            error := Trigger([MissionFailed], env, fault);
          case Docking => error := Trigger([MissionDocking], env, fault);
          case Moving =>
        }
      }
    }

    method RobotCb(battery: real, env: Env, fault: Option<Fault>) returns (error: Error)
      requires Valid()
      modifies this
      ensures Valid() && Result(View(), error) == Callback(old(View()), RobotReported(battery), env, fault)
    {
      error := NoError;
      PrepareKeeps(View(), RobotReported(battery), env);
      if state == AtStaging {
        if battery < env.batteryIdle {
          error := Trigger([ChargeBattery], env, fault);
        }
      } else if state == MovingToStaging || state == RobotError {
        if battery < env.batteryMin {
          error := Trigger([CancelActiveMission, ChargeBattery], env, fault);
        }
      } else if state == Charging {
        if warehouseorders != [] && battery > env.batteryMin {
          error := Trigger([CancelActiveMission, ProcessWarehouseOrder(warehouseorders[0].order)], env, fault);
        }
      }
    }

    method CfgRecoverCb(env: Env, fault: Option<Fault>) returns (error: Error)
      requires Valid()
      modifies this
      ensures Valid() && Result(View(), error) == Callback(old(View()), RecoverRequested, env, fault)
    {
      error := NoError;
      if ErrorState(state) {
        error := Trigger([RecoverRobot], env, fault);
      }
    }

    method CfgIdleChargeStatesCb(env: Env, fault: Option<Fault>) returns (error: Error)
      requires Valid()
      modifies this
      ensures Valid() && Result(View(), error) == Callback(old(View()), ConfigurationChanged, env, fault)
    {
      error := NoError;
      if env.mode == Run {
        if state == AtStaging {
          error := Trigger([StagingTimeout], env, fault);
        } else if state == Charging && env.battery >= env.batteryOk {
          error := Trigger([CancelActiveMission, ChargingCanceled], env, fault);
        }
      }
    }

    /** The callback for a changed order: each spec that passes the precheck is processed once. */
    method WarehouseorderCb(name: string, assignee: string, spec: OrderSpec, statusData: seq<StatusEntry>, env: Env,
                            fault: Option<Fault>)
      returns (error: Error)
      requires Valid()
      modifies this
      ensures Valid()
      ensures var skipped := assignee != robotName || old(Known(name, spec)) || !UpToDate(spec, statusData, robotName);
        if skipped then View() == old(View()) && error == NoError
        else Result(View(), error) == Callback(old(View()), EventOf(spec), env, fault)
      ensures var updated := assignee == robotName && UpToDate(spec, statusData, robotName) && !spec.processed;
        processedOrderSpec ==
        if updated && error == NoError then old(processedOrderSpec)[name := spec] else old(processedOrderSpec)
    {
      error := NoError;
      if assignee != robotName || Known(name, spec) {
        return;
      }
      var ok := WarehouseOrderPrecheck(spec, statusData, robotName);
      if ok {
        if spec.processed {
          error := CheckAwaitedCompletion(spec.order.id, env, fault);
        } else {
          error := UpdateWarehouseorder(spec.order, spec.sequence, env, fault);
          if error == NoError {
            processedOrderSpec := processedOrderSpec[name := spec];
          }
        }
      }
    }

    /** The spec was processed before. */
    predicate Known(name: string, spec: OrderSpec)
      reads this`processedOrderSpec
    {
      name in processedOrderSpec && processedOrderSpec[name] == spec
    }

    /** Queueing an order is a transition itself; what it triggers is worked off afterwards. */
    method UpdateWarehouseorder(order: Order, sequence: int, env: Env, fault: Option<Fault>) returns (error: Error)
      requires Valid()
      modifies this
      ensures processedOrderSpec == old(processedOrderSpec)
      ensures Valid() && Result(View(), error) == Callback(old(View()), OrderUpdated(order, sequence), env, fault)
    {
      PrepareKeeps(View(), OrderUpdated(order, sequence), env);
      UpdateRobotWho(order, sequence, env);
      error := SaveRobotState(Now(fault));
      if error == NoError {
        error := Process(env, Later(fault));
      } else {
        pending := [];
      }
    }

    /** Puts the order into the queue; a robot without work takes it up, an active order is replaced. */
    method UpdateRobotWho(order: Order, sequence: int, env: Env)
      requires pending == []
      modifies this`warehouseorders, this`pending, this`activeWho
      ensures (View(), pending) == AfterUpdate(Updated(old(View()), order, sequence), order, env)
    {
      warehouseorders := Enqueued(warehouseorders, Queued(order, sequence));
      if activeWho.None? {
        if env.mode == Run {
          if state == MovingToStaging || (state == Charging && env.battery >= env.batteryMin) {
            pending := [CancelActiveMission, ProcessWarehouseOrder(order)];
          } else if IdleState(state) {
            pending := [ProcessWarehouseOrder(order)];
          }
        }
      } else if order.id == activeWho.value.id && order != activeWho.value {
        activeWho := Some(order);
      }
    }

    method CheckAwaitedCompletion(id: string, env: Env, fault: Option<Fault>) returns (error: Error)
      requires Valid()
      modifies this
      ensures processedOrderSpec == old(processedOrderSpec)
      ensures Valid() && Result(View(), error) == Callback(old(View()), OrderCompleted(id), env, fault)
    {
      error := NoError;
      if state == WaitingForErrorRecovery && activeWho.Some? && activeWho.value.id == id {
        error := Trigger([WarehouseOrderConfirmed], env, fault);
      }
    }

    method WarehouseorderDeletedCb(name: string, assignee: string, env: Env, fault: Option<Fault>)
      returns (error: Error)
      requires Valid()
      modifies this
      ensures Valid()
      ensures if assignee == robotName && NamesOrder(name)
              then Result(View(), error) == Callback(old(View()), OrderDeleted(Upper(name)), env, fault)
              else View() == old(View()) && error == NoError
      ensures processedOrderSpec == if assignee == robotName && error == NoError then old(processedOrderSpec) - {name}
                                    else old(processedOrderSpec)
    {
      error := NoError;
      if assignee == robotName {
        if NamesOrder(name) {
          warehouseorders := Without(warehouseorders, Upper(name));
          error := CheckAwaitedCompletion(Upper(name), env, fault);
        }
        if error == NoError {
          processedOrderSpec := processedOrderSpec - {name};
        }
      }
    }

    method OnTimeout(env: Env, fault: Option<Fault>) returns (error: Error)
      requires Valid()
      modifies this
      ensures Valid() && Result(View(), error) == Callback(old(View()), TimedOut, env, fault)
    {
      error := NoError;
      if state == Idle {
        error := Trigger([GoStaging], env, fault);
      } else if state == AtStaging {
        error := Trigger([StagingTimeout], env, fault);
      }
    }

    method StartFresh(env: Env, fault: Option<Fault>) returns (error: Error)
      requires Valid()
      modifies this
      ensures Valid() && Result(View(), error) == Callback(old(View()), StartedUp, env, fault)
    {
      error := Trigger([StartFreshMachine], env, fault);
    }
  }

  /** What an order's resource asks of the robot: to stop waiting for it, or to queue it. */
  function EventOf(spec: OrderSpec): Event {
    if spec.processed then OrderCompleted(spec.order.id) else OrderUpdated(spec.order, spec.sequence)
  }

  /** How firing a trigger ended, as the value it is specified with. */
  function Outcome(error: Error, m: Machine, queued: seq<Trigger>): Fired {
    match error
    case NoError => Fired(m, queued)
    case InvalidTrigger => Rejected
    case TypeError => Failed(m)
    case ApiError => Raised(m)
  }
}
