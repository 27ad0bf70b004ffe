/** The transition table of the robot state machine: general and moveTrolley transitions. */
module RobotConfig {
  import opened Common

  /** The pickPackPass states are kept although none of the modelled transitions leads there. */
  datatype RobotState =
    | Idle | AtStaging | MovingToStaging | Charging | RobotError
    | MovingToSourceBin | LoadingTrolley | MovingToTargetBin | UnloadingTrolley | WaitingForErrorRecovery
    | MovingToPickLocation | MovingToTargetLocation | WaitingAtPick | WaitingAtTarget | PickWaitingForErrorRecovery

  datatype Task = Task(tanum: string, handlingUnit: bool, source: string)

  /** A warehouse order with its open warehouse tasks. */
  datatype Order = Order(id: string, tasks: seq<Task>)

  datatype Trigger =
    | StartFreshMachine
    | ProcessWarehouseOrder(order: Order)
    | CreateMission
    | CancelActiveMission
    | MissionDocking | MissionSucceeded | MissionFailed
    | WarehouseOrderAborted | WarehouseOrderConfirmed
    | InvalidWarehouseTask
    | ChargeBattery | ChargingCanceled
    | GoStaging | StagingTimeout
    | TooManyFailedWhos
    | RecoverRobot

  datatype Guard = Always | MaxErrors | NotMaxErrors | MoreTasks | NoMoreTasks

  /** The callbacks of a transition that run before the state changes, by what they achieve together. */
  datatype Effect =
    | Nothing
    | CountError      // increase the error counter of the state
    | SaveOrder       // make the order the active one
    | AbortOrder      // log failure, close order
    | FailPickup      // first confirmation error, close task, log failure, close order
    | PickedUp        // first confirmation
    | FailReturn      // second confirmation error
    | FinishTask      // second confirmation, close task
    | FinishOrder     // second confirmation, close task, log success, close order
    | GiveUpOrder     // close task, log failure, close order

  /** A transition without destination keeps the state. */
  datatype Rule = Rule(guard: Guard, dest: Option<RobotState>, effect: Effect)

  predicate MoveTrolley(s: RobotState) {
    s in {MovingToSourceBin, LoadingTrolley, MovingToTargetBin, UnloadingTrolley, WaitingForErrorRecovery}
  }

  /** The robot drives, loads or unloads; a mission is running. */
  predicate Driving(s: RobotState) {
    s in {MovingToSourceBin, LoadingTrolley, MovingToTargetBin, UnloadingTrolley}
  }

  predicate IdleState(s: RobotState) {
    s == AtStaging || s == Idle
  }

  predicate ErrorState(s: RobotState) {
    s == WaitingForErrorRecovery || s == PickWaitingForErrorRecovery || s == RobotError
  }

  function Internal(): seq<Rule> {
    [Rule(Always, None, Nothing)]
  }

  function To(dest: RobotState, effect: Effect): seq<Rule> {
    [Rule(Always, Some(dest), effect)]
  }

  /** Retry until the error counter is at its maximum, then do the other thing. */
  function Retry(dest: RobotState, otherwise: RobotState, effect: Effect): seq<Rule> {
    [Rule(NotMaxErrors, Some(dest), CountError), Rule(MaxErrors, Some(otherwise), effect)]
  }

  /** The transitions of a trigger in a state, in the order in which they are tried. */
  function Table(t: Trigger, s: RobotState): (rules: seq<Rule>)
    ensures |rules| <= 2
  {
    match t
    case StartFreshMachine => if s == Idle then To(Idle, Nothing) else []
    case CreateMission => Internal()
    case CancelActiveMission => Internal()
    case GoStaging => if s == Idle then To(MovingToStaging, Nothing) else []
    case TooManyFailedWhos => if IdleState(s) then To(RobotError, Nothing) else []
    case StagingTimeout => if s == AtStaging then To(AtStaging, Nothing) else []
    case ChargeBattery => if IdleState(s) || s == MovingToStaging || s == RobotError then To(Charging, Nothing) else []
    case ChargingCanceled => if s == Charging then To(Idle, Nothing) else []
    case ProcessWarehouseOrder(_) =>
      if s in {Idle, Charging, AtStaging, MovingToStaging, UnloadingTrolley, WaitingAtTarget}
      then To(MovingToSourceBin, SaveOrder) else []
    case WarehouseOrderAborted => if s == MovingToSourceBin then To(Idle, AbortOrder) else []
    case InvalidWarehouseTask => if s == MovingToSourceBin then To(Idle, FailPickup) else []
    case WarehouseOrderConfirmed => if s == WaitingForErrorRecovery then To(Idle, GiveUpOrder) else []
    case RecoverRobot =>
      (match s
       case RobotError => To(Idle, Nothing)
       case WaitingForErrorRecovery => To(MovingToTargetBin, Nothing)
       case _ => [])
    case MissionDocking =>
      (match s
       case MovingToSourceBin => To(LoadingTrolley, Nothing)
       case MovingToTargetBin => To(UnloadingTrolley, Nothing)
       case _ => [])
    case MissionSucceeded =>
      (match s
       case MovingToStaging => To(AtStaging, Nothing)
       case Charging => To(Idle, Nothing)
       case RobotError => Internal()
       case MovingToSourceBin => To(LoadingTrolley, Nothing)
       case LoadingTrolley => To(MovingToTargetBin, PickedUp)
       case MovingToTargetBin => To(UnloadingTrolley, Nothing)
       case UnloadingTrolley => [Rule(MoreTasks, Some(MovingToSourceBin), FinishTask),
                                 Rule(NoMoreTasks, Some(Idle), FinishOrder)]
       case _ => [])
    case MissionFailed =>
      (match s
       case MovingToStaging => Retry(MovingToStaging, Idle, Nothing)
       case Charging => Retry(Charging, Idle, Nothing)
       case RobotError => [Rule(NotMaxErrors, Some(RobotError), CountError)]
       case MovingToSourceBin => Retry(MovingToSourceBin, Idle, FailPickup)
       case LoadingTrolley => Retry(MovingToSourceBin, Idle, FailPickup)
       case MovingToTargetBin => Retry(MovingToTargetBin, WaitingForErrorRecovery, FailReturn)
       case UnloadingTrolley => Retry(MovingToTargetBin, WaitingForErrorRecovery, FailReturn)
       case _ => [])
  }
}
