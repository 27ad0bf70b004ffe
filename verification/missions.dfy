/**
 * Missions of a MiR robot: the actions of a mission run one after the other, each as a mission
 * of the robot whose queue id is recorded in the status, so that a restarted controller resumes.
 */
module Missions {
  import opened Common

  datatype MissionState = Accepted | Running | Succeeded | Failed | Canceled

  /** The status of a mission resource. */
  datatype Mission = Mission(status: MissionState, missionQueueIds: seq<nat>)

  /** What the robot reports about one of its missions; `Vanished` means that the resource was deleted meanwhile. */
  datatype Report = Pending | Executing | Done | Aborted(byUser: bool) | NoAnswer | Vanished

  /**
   * Creating a robot mission: refused, recorded, not recorded before the controller stopped, or the
   * resource is gone.
   */
  datatype Launch = Refused | Recorded | Unrecorded | Orphaned

  /** What happens while an action runs; when the reports end early the controller stops. */
  datatype ActionRun = ActionRun(launch: Launch, reports: seq<Report>)

  /** `robot` lists for each mission in the robot's queue which action it performs; ids are positions in it. */
  datatype Situation = Situation(active: Mission, saved: Mission, robot: seq<nat>)

  datatype End = Finished(state: MissionState) | Interrupted

  function RunOf(runs: seq<ActionRun>, i: nat): ActionRun {
    if i < |runs| then runs[i] else ActionRun(Recorded, [])
  }

  /** The outcome of watching a mission; none when the controller stops before. */
  function Watch(reports: seq<Report>): (r: Option<MissionState>)
    ensures r.Some? ==> r.value in {Succeeded, Failed, Canceled}
  {
    if reports == [] then None
    else match reports[0]
      case Pending => Watch(reports[1..])
      case Executing => Watch(reports[1..])
      case Done => Some(Succeeded)
      case Aborted(byUser) => Some(if byUser then Canceled else Failed)
      case NoAnswer => Some(Failed)
      case Vanished => Some(Canceled)
  }

  /** The mission is still running when the robot reports this. */
  predicate Goes(report: Report) {
    report == Pending || report == Executing
  }

  /** The report at position i is the first one that tells how the mission ended. */
  predicate Decides(reports: seq<Report>, i: nat) {
    i < |reports| && !Goes(reports[i]) && forall k :: 0 <= k < i ==> Goes(reports[k])
  }

  /**
   * The first report that is neither pending nor executing decides: done is success, an abortion is
   * cancellation or failure depending on who did it, a robot that does not answer is failure, and a
   * deleted resource is cancellation. Without such a report there is no outcome.
   */
  lemma {:induction false} WatchIs(reports: seq<Report>)
    ensures Watch(reports) == None <==> forall i :: 0 <= i < |reports| ==> Goes(reports[i])
    ensures forall i: nat | Decides(reports, i) ::
              && (Watch(reports) == Some(Succeeded) <==> reports[i] == Done)
              && (Watch(reports) == Some(Canceled) <==> reports[i] in {Aborted(true), Vanished})
              && (Watch(reports) == Some(Failed) <==> reports[i] in {Aborted(false), NoAnswer})
  {
    if reports != [] && Goes(reports[0]) {
      var rest := reports[1..];
      WatchIs(rest);
      forall i: nat | Decides(reports, i) ensures i > 0 && Decides(rest, i - 1) {
        assert reports[i] == rest[i - 1] && forall k :: 0 <= k < i - 1 ==> rest[k] == reports[k + 1];
      }
      assert forall i :: 0 <= i < |rest| ==> rest[i] == reports[i + 1];
    } else {
      assert forall i: nat | Decides(reports, i) :: i == 0;
    }
  }

  function Finish(s: Situation, state: MissionState): Situation {
    s.(active := s.active.(status := state), saved := s.active.(status := state))
  }

  /** Launching action i on the robot and recording its queue id. */
  function Launched(s: Situation, i: nat, launch: Launch): Situation {
    match launch
    case Refused => s
    case Unrecorded => s.(robot := s.robot + [i])
    case _ =>
      var active := s.active.(missionQueueIds := s.active.missionQueueIds + [|s.robot|]);
      Situation(active, active, s.robot + [i])
  }

  /** Runs the actions from i on; `known` says for each action whether it is one the robot can do. */
  function RunFrom(s: Situation, known: seq<bool>, runs: seq<ActionRun>, i: nat): (Situation, End)
    requires i <= |known|
    decreases |known| - i
  {
    if i == |known| then (Finish(s, Succeeded), Finished(Succeeded))
    else if !known[i] then (Finish(s, Failed), Finished(Failed))
    else
      var run := RunOf(runs, i);
      var launch := i >= |s.active.missionQueueIds|;
      var t := if launch then Launched(s, i, run.launch) else s;
      if launch && run.launch == Refused then (Finish(t, Failed), Finished(Failed))
      else if launch && run.launch == Unrecorded then (t, Interrupted)
      else if launch && run.launch == Orphaned then (Finish(t, Canceled), Finished(Canceled))
      else
        match Watch(run.reports)
        case None => (t, Interrupted)
        case Some(state) =>
          if state == Failed || state == Canceled then (Finish(t, state), Finished(state))
          else RunFrom(t, known, runs, i + 1)
  }

  /** Starting or resuming a mission from the recorded status. */
  function Begin(saved: Mission, robot: seq<nat>): Situation {
    Situation(saved.(status := Running), saved.(status := Running), robot)
  }

  /** One run of the controller on a mission, whose resource may have been deleted before it begins. */
  datatype Attempt = Attempt(deleted: bool, runs: seq<ActionRun>)

  /** A deleted mission is not started; one that was running is resumed without looking for its resource. */
  predicate NotStarted(saved: Mission, a: Attempt) {
    a.deleted && saved.status != Running
  }

  function RunMission(saved: Mission, robot: seq<nat>, known: seq<bool>, a: Attempt): (Situation, End) {
    if NotStarted(saved, a) then (Situation(saved.(status := Running), saved, robot), Finished(Canceled))
    else RunFrom(Begin(saved, robot), known, a.runs, 0)
  }

  /** The mission controller with its active mission, the recorded status and the robot's queue. */
  class MissionController {
    var active: Mission
    var saved: Mission
    var robot: seq<nat>

    constructor (saved: Mission, robot: seq<nat>)
      ensures this.saved == saved && this.robot == robot && active == saved
    {
      this.active, this.saved, this.robot := saved, saved, robot;
    }

    function View(): Situation
      reads this
    {
      Situation(active, saved, robot)
    }

    method SaveStatus(state: MissionState)
      modifies this`active, this`saved
      ensures View() == Finish(old(View()), state)
    {
      active := active.(status := state);
      saved := active;
    }

    method WatchRunningMission(reports: seq<Report>) returns (result: Option<MissionState>)
      ensures result == Watch(reports)
      ensures result == None <==> forall i :: 0 <= i < |reports| ==> Goes(reports[i])
      ensures forall i: nat | Decides(reports, i) ::
                && (result == Some(Succeeded) <==> reports[i] == Done)
                && (result == Some(Canceled) <==> reports[i] in {Aborted(true), Vanished})
                && (result == Some(Failed) <==> reports[i] in {Aborted(false), NoAnswer})
    {
      WatchIs(reports);
      for i := 0 to |reports|
        invariant Watch(reports) == Watch(reports[i..])
      {
        assert reports[i..][1..] == reports[i + 1..];
        match reports[i] {
          case Pending =>
          case Executing =>
          case Done => return Some(Succeeded);
          case Aborted(byUser) => return Some(if byUser then Canceled else Failed);
          case NoAnswer => return Some(Failed);
          case Vanished => return Some(Canceled);
        }
      }
      result := None;
    }

    /** Creates the mission on the robot and appends its queue id to the status. */
    method LaunchAction(i: nat, launch: Launch)
      modifies this
      ensures View() == Launched(old(View()), i, launch)
    {
      if launch == Refused {
        return;
      }
      var id := |robot|;
      robot := robot + [i];
      if launch != Unrecorded {
        active := active.(missionQueueIds := active.missionQueueIds + [id]);
        saved := active;
      }
    }

    method Run(known: seq<bool>, attempt: Attempt) returns (end: End)
      modifies this
      ensures (View(), end) == RunMission(old(saved), old(robot), known, attempt)
    {
      var runs := attempt.runs;
      active := saved;
      if saved.status != Running {
        active := active.(status := Running);
        if attempt.deleted {
          return Finished(Canceled);
        }
        saved := active;
      }
      ghost var start := View();
      for i := 0 to |known|
        invariant RunFrom(View(), known, runs, i) == RunFrom(start, known, runs, 0)
      {
        if !known[i] {
          SaveStatus(Failed);
          return Finished(Failed);
        }
        var run := RunOf(runs, i);
        if i >= |active.missionQueueIds| {
          LaunchAction(i, run.launch);
          match run.launch {
            case Refused =>
              SaveStatus(Failed);
              return Finished(Failed);
            case Unrecorded => return Interrupted;
            case Orphaned =>
              SaveStatus(Canceled);
              return Finished(Canceled);
            case Recorded =>
          }
        }
        var result := WatchRunningMission(run.reports);
        if result.None? {
          return Interrupted;
        }
        if result.value == Failed || result.value == Canceled {
          SaveStatus(result.value);
          return Finished(result.value);
        }
      }
      SaveStatus(Succeeded);
      end := Finished(Succeeded);
    }
  }

  /* ---------- Queue ids belong to their actions ---------- */

  /** The id at position i is that of a mission performing action i. */
  ghost predicate Aligned(m: Mission, robot: seq<nat>) {
    forall i :: 0 <= i < |m.missionQueueIds| ==> m.missionQueueIds[i] < |robot| && robot[m.missionQueueIds[i]] == i
  }

  function Range(from: nat, to: nat): (r: seq<nat>)
    requires from <= to
    ensures |r| == to - from && forall k :: 0 <= k < |r| ==> r[k] == from + k
  {
    seq(to - from, k requires 0 <= k < to - from => from + k)
  }

  lemma RangeGrows(robot: seq<nat>, from: nat, to: nat)
    requires from <= to
    ensures from == to ==> robot + Range(from, to) == robot
    ensures from < to ==> robot + [from] + Range(from + 1, to) == robot + Range(from, to)
    ensures from + 1 == to ==> robot + [from] == robot + Range(from, to)
  {
  }

  lemma LaunchAligned(s: Situation, i: nat, launch: Launch)
    requires Aligned(s.active, s.robot) && Aligned(s.saved, s.robot) && i == |s.active.missionQueueIds|
    ensures var t := Launched(s, i, launch); Aligned(t.active, t.robot) && Aligned(t.saved, t.robot)
    ensures launch != Refused ==> Launched(s, i, launch).robot == s.robot + [i]
  {
  }

  lemma {:induction false} RunStaysAligned(s: Situation, known: seq<bool>, runs: seq<ActionRun>, i: nat)
    requires i <= |known| && i <= |s.active.missionQueueIds|
    requires Aligned(s.active, s.robot) && Aligned(s.saved, s.robot)
    ensures var t := RunFrom(s, known, runs, i).0; Aligned(t.active, t.robot) && Aligned(t.saved, t.robot)
    decreases |known| - i
  {
    if i < |known| && known[i] {
      var run := RunOf(runs, i);
      if i == |s.active.missionQueueIds| {
        LaunchAligned(s, i, run.launch);
        if run.launch == Recorded && Watch(run.reports) == Some(Succeeded) {
          RunStaysAligned(Launched(s, i, run.launch), known, runs, i + 1);
        }
      } else if Watch(run.reports) == Some(Succeeded) {
        RunStaysAligned(s, known, runs, i + 1);
      }
    }
  }

  /** From any recorded status on, the actions without queue id are launched in order, each once at most. */
  lemma {:induction false} RunLaunchesRest(s: Situation, known: seq<bool>, runs: seq<ActionRun>, i: nat)
    returns (m: nat)
    requires i <= |known| && i <= |s.active.missionQueueIds|
    ensures var (t, end) := RunFrom(s, known, runs, i);
      && |s.active.missionQueueIds| <= m && t.robot == s.robot + Range(|s.active.missionQueueIds|, m)
      && (end == Finished(Succeeded) && |s.active.missionQueueIds| <= |known| ==> m == |known|)
    decreases |known| - i
  {
    m := |s.active.missionQueueIds|;
    RangeGrows(s.robot, m, m);
    if i < |known| && known[i] {
      var run := RunOf(runs, i);
      if i == m {
        if run.launch != Refused {
          m := m + 1;
          RangeGrows(s.robot, i, m);
          if run.launch == Recorded && Watch(run.reports) == Some(Succeeded) {
            m := RunLaunchesRest(Launched(s, i, run.launch), known, runs, i + 1);
            RangeGrows(s.robot, i, m);
          }
        }
      } else if Watch(run.reports) == Some(Succeeded) {
        m := RunLaunchesRest(s, known, runs, i + 1);
      }
    }
  }

  /* ---------- Success ---------- */

  /** Action j can be run, gets launched if it was not before, and its robot mission succeeds. */
  predicate ActionSucceeds(launched: nat, known: seq<bool>, runs: seq<ActionRun>, j: nat)
    requires j < |known|
  {
    && known[j] && (j >= launched ==> RunOf(runs, j).launch == Recorded)
    && Reports(RunOf(runs, j).reports, Done)
  }

  /** The first report that tells how the mission ended is this one. */
  predicate Reports(reports: seq<Report>, report: Report) {
    exists i :: 0 <= i < |reports| && Decides(reports, i) && reports[i] == report
  }

  lemma SucceededIff(reports: seq<Report>)
    ensures Watch(reports) == Some(Succeeded) <==> Reports(reports, Done)
  {
    WatchIs(reports);
    if Watch(reports).Some? {
      var i := FirstDecides(reports);
    }
  }

  lemma {:induction false} FirstDecides(reports: seq<Report>) returns (i: nat)
    requires exists k :: 0 <= k < |reports| && !Goes(reports[k])
    ensures Decides(reports, i)
  {
    if Goes(reports[0]) {
      var k :| 0 <= k < |reports| && !Goes(reports[k]);
      assert reports[1..][k - 1] == reports[k];
      i := FirstDecides(reports[1..]);
      i := i + 1;
    } else {
      i := 0;
    }
  }

  lemma {:induction false} SucceedsFrom(s: Situation, known: seq<bool>, runs: seq<ActionRun>, i: nat, launched: nat)
    requires i <= |known| && |s.active.missionQueueIds| == if i > launched then i else launched
    ensures RunFrom(s, known, runs, i).1 == Finished(Succeeded) <==>
            forall j :: i <= j < |known| ==> ActionSucceeds(launched, known, runs, j)
    decreases |known| - i
  {
    if i < |known| {
      var run := RunOf(runs, i);
      SucceededIff(run.reports);
      if ActionSucceeds(launched, known, runs, i) {
        var t := if i >= launched then Launched(s, i, run.launch) else s;
        SucceedsFrom(t, known, runs, i + 1, launched);
      } else {
        assert RunFrom(s, known, runs, i).1 != Finished(Succeeded);
      }
    }
  }

  /**
   * A mission ends as succeeded exactly when it was started and the robot missions of all its
   * actions succeeded, also of those started before the controller was restarted.
   */
  lemma SucceedsIff(saved: Mission, robot: seq<nat>, known: seq<bool>, a: Attempt)
    ensures RunMission(saved, robot, known, a).1 == Finished(Succeeded) <==>
            !NotStarted(saved, a) && forall j :: 0 <= j < |known| ==>
                ActionSucceeds(|saved.missionQueueIds|, known, a.runs, j)
  {
    SucceedsFrom(Begin(saved, robot), known, a.runs, 0, |saved.missionQueueIds|);
  }

  /** Action j cannot be run, or a new robot mission for it cannot be created. */
  predicate Unrunnable(launched: nat, known: seq<bool>, runs: seq<ActionRun>, j: nat)
    requires j < |known|
  {
    !known[j] || (j >= launched && RunOf(runs, j).launch == Refused)
  }

  /** A robot mission is watched for action j. */
  predicate Watched(launched: nat, known: seq<bool>, runs: seq<ActionRun>, j: nat)
    requires j < |known|
  {
    known[j] && (j >= launched ==> RunOf(runs, j).launch == Recorded)
  }

  /** How the mission ends when action j does not succeed. */
  ghost predicate EndsAt(launched: nat, known: seq<bool>, runs: seq<ActionRun>, j: nat, end: End)
    requires j < |known|
  {
    var run, watched := RunOf(runs, j), Watched(launched, known, runs, j);
    && (end == Finished(Failed) <==>
        Unrunnable(launched, known, runs, j)
        || (watched && (Reports(run.reports, Aborted(false)) || Reports(run.reports, NoAnswer))))
    && (end == Finished(Canceled) <==>
        (known[j] && j >= launched && run.launch == Orphaned)
        || (watched && (Reports(run.reports, Aborted(true)) || Reports(run.reports, Vanished))))
    && (end == Interrupted <==>
        (known[j] && j >= launched && run.launch == Unrecorded)
        || (watched && forall i :: 0 <= i < |run.reports| ==> Goes(run.reports[i])))
    && end != Finished(Succeeded)
  }

  /** The recorded status is the one with which the run ended; an interrupted mission is still running. */
  predicate RecordsEnd(t: Situation, end: End) {
    t.saved.status == if end.Finished? then end.state else Running
  }

  lemma WatchEnds(reports: seq<Report>)
    ensures Watch(reports) == Some(Failed) <==> Reports(reports, Aborted(false)) || Reports(reports, NoAnswer)
    ensures Watch(reports) == Some(Canceled) <==> Reports(reports, Aborted(true)) || Reports(reports, Vanished)
    ensures Watch(reports) == None <==> forall i :: 0 <= i < |reports| ==> Goes(reports[i])
  {
    WatchIs(reports);
    if Watch(reports).Some? {
      var i := FirstDecides(reports);
    }
  }

  lemma {:induction false} EndsFrom(s: Situation, known: seq<bool>, runs: seq<ActionRun>, i: nat, launched: nat, j: nat)
    requires i <= j <= |known| && |s.active.missionQueueIds| == if i > launched then i else launched
    requires s.active.status == s.saved.status == Running
    requires forall k :: i <= k < j ==> ActionSucceeds(launched, known, runs, k)
    requires j < |known| ==> !ActionSucceeds(launched, known, runs, j)
    ensures var (t, end) := RunFrom(s, known, runs, i);
      && RecordsEnd(t, end)
      && (if j == |known| then end == Finished(Succeeded) else EndsAt(launched, known, runs, j, end))
    decreases j - i
  {
    if i < j {
      var run := RunOf(runs, i);
      assert ActionSucceeds(launched, known, runs, i);
      SucceededIff(run.reports);
      EndsFrom(if i >= launched then Launched(s, i, run.launch) else s, known, runs, i + 1, launched, j);
    } else if j < |known| {
      EndsNow(s, known, runs, j, launched);
    }
  }

  lemma EndsNow(s: Situation, known: seq<bool>, runs: seq<ActionRun>, j: nat, launched: nat)
    requires j < |known| && |s.active.missionQueueIds| == if j > launched then j else launched
    requires s.active.status == s.saved.status == Running && !ActionSucceeds(launched, known, runs, j)
    ensures var (t, end) := RunFrom(s, known, runs, j);
      RecordsEnd(t, end) && EndsAt(launched, known, runs, j, end)
  {
    SucceededIff(RunOf(runs, j).reports);
    WatchEnds(RunOf(runs, j).reports);
  }

  /** A started mission ends as its first action does that does not succeed, and that is recorded. */
  lemma MissionEnds(saved: Mission, robot: seq<nat>, known: seq<bool>, a: Attempt, j: nat)
    requires !NotStarted(saved, a) && j <= |known|
    requires forall k :: 0 <= k < j ==> ActionSucceeds(|saved.missionQueueIds|, known, a.runs, k)
    requires j < |known| ==> !ActionSucceeds(|saved.missionQueueIds|, known, a.runs, j)
    ensures var (t, end) := RunMission(saved, robot, known, a);
      && RecordsEnd(t, end)
      && (if j == |known| then end == Finished(Succeeded)
          else EndsAt(|saved.missionQueueIds|, known, a.runs, j, end))
  {
    EndsFrom(Begin(saved, robot), known, a.runs, 0, |saved.missionQueueIds|, j);
  }

  /* ---------- Restarts ---------- */

  /** The state between runs of one mission: its recorded status and the robot's queue. */
  datatype Recovery = Recovery(saved: Mission, robot: seq<nat>)

  /** The controller starts over from what is recorded; the robot keeps its queue. */
  function Restarted(r: Recovery, known: seq<bool>, a: Attempt): Recovery {
    var s := RunMission(r.saved, r.robot, known, a).0;
    Recovery(s.saved, s.robot)
  }

  /** After restarts with the given happenings. */
  function After(known: seq<bool>, restarts: seq<Attempt>): Recovery {
    if restarts == [] then Recovery(Mission(Accepted, []), [])
    else Restarted(After(known, restarts[..|restarts| - 1]), known, restarts[|restarts| - 1])
  }

  /** Whatever happens, after any number of restarts queue ids belong to their actions. */
  lemma {:induction false} RestartsStayAligned(known: seq<bool>, restarts: seq<Attempt>)
    ensures Aligned(After(known, restarts).saved, After(known, restarts).robot)
  {
    if restarts != [] {
      var r := After(known, restarts[..|restarts| - 1]);
      RestartsStayAligned(known, restarts[..|restarts| - 1]);
      RunStaysAligned(Begin(r.saved, r.robot), known, restarts[|restarts| - 1].runs, 0);
    }
  }

  /* ---------- Launches that are not recorded ---------- */

  /** A run from action i on gets to creating a robot mission for action j. */
  predicate GetsTo(launched: nat, known: seq<bool>, runs: seq<ActionRun>, i: nat, j: nat) {
    && i <= j && launched <= j < |known| && known[j]
    && forall k :: i <= k < j ==> ActionSucceeds(launched, known, runs, k)
  }

  /** The run stops between creating a robot mission and recording its id. */
  predicate LosesFrom(launched: nat, known: seq<bool>, runs: seq<ActionRun>, i: nat) {
    exists j :: i <= j < |known| && GetsTo(launched, known, runs, i, j) && RunOf(runs, j).launch == Unrecorded
  }

  /** The run creates a robot mission. */
  predicate LaunchesFrom(launched: nat, known: seq<bool>, runs: seq<ActionRun>, i: nat) {
    var j := if i > launched then i else launched;
    GetsTo(launched, known, runs, i, j) && RunOf(runs, j).launch != Refused
  }

  predicate Loses(saved: Mission, known: seq<bool>, a: Attempt) {
    !NotStarted(saved, a) && LosesFrom(|saved.missionQueueIds|, known, a.runs, 0)
  }

  predicate Launches(saved: Mission, known: seq<bool>, a: Attempt) {
    !NotStarted(saved, a) && LaunchesFrom(|saved.missionQueueIds|, known, a.runs, 0)
  }

  /** What a run does to an action decides for the rest of it. */
  lemma GetsToNext(launched: nat, known: seq<bool>, runs: seq<ActionRun>, i: nat, j: nat)
    requires i < |known|
    ensures j > i ==> (GetsTo(launched, known, runs, i, j) <==>
                       ActionSucceeds(launched, known, runs, i) && GetsTo(launched, known, runs, i + 1, j))
    ensures GetsTo(launched, known, runs, i, i) <==> launched <= i && known[i]
  {
  }

  lemma LosesNext(launched: nat, known: seq<bool>, runs: seq<ActionRun>, i: nat)
    requires i < |known|
    ensures LosesFrom(launched, known, runs, i) <==>
            (launched <= i && known[i] && RunOf(runs, i).launch == Unrecorded)
            || (ActionSucceeds(launched, known, runs, i) && LosesFrom(launched, known, runs, i + 1))
  {
    forall j ensures j > i ==> (GetsTo(launched, known, runs, i, j) <==>
        ActionSucceeds(launched, known, runs, i) && GetsTo(launched, known, runs, i + 1, j))
    {
      if j > i {
        GetsToNext(launched, known, runs, i, j);
      }
    }
    GetsToNext(launched, known, runs, i, i);
  }

  lemma LaunchesNext(launched: nat, known: seq<bool>, runs: seq<ActionRun>, i: nat)
    requires i < |known|
    ensures LaunchesFrom(launched, known, runs, i) <==>
            if i >= launched then known[i] && RunOf(runs, i).launch != Refused
            else ActionSucceeds(launched, known, runs, i) && LaunchesFrom(launched, known, runs, i + 1)
  {
    GetsToNext(launched, known, runs, i, if i > launched then i else launched);
  }

  function Count(b: bool): nat {
    if b then 1 else 0
  }

  /** How many robot missions are not recorded. */
  function Missing(s: Situation): int {
    |s.robot| - |s.saved.missionQueueIds|
  }

  lemma {:induction false} RunMisses(s: Situation, known: seq<bool>, runs: seq<ActionRun>, i: nat, launched: nat)
    requires i <= |known| && |s.active.missionQueueIds| == if i > launched then i else launched
    requires |s.saved.missionQueueIds| == |s.active.missionQueueIds|
    ensures Missing(RunFrom(s, known, runs, i).0) == Missing(s) + Count(LosesFrom(launched, known, runs, i))
    ensures LaunchesFrom(launched, known, runs, i) <==> |RunFrom(s, known, runs, i).0.robot| > |s.robot|
    decreases |known| - i
  {
    if i < |known| {
      LosesNext(launched, known, runs, i);
      LaunchesNext(launched, known, runs, i);
      SucceededIff(RunOf(runs, i).reports);
      if ActionSucceeds(launched, known, runs, i) {
        RunMisses(if i >= launched then Launched(s, i, RunOf(runs, i).launch) else s, known, runs, i + 1, launched);
      }
    }
  }

  /** A run misses a robot mission more than before exactly when it stops before recording one. */
  lemma MissesIff(r: Recovery, known: seq<bool>, a: Attempt)
    ensures var t := Restarted(r, known, a);
      && |t.robot| - |t.saved.missionQueueIds|
         == |r.robot| - |r.saved.missionQueueIds| + Count(Loses(r.saved, known, a))
      && (Launches(r.saved, known, a) <==> |t.robot| > |r.robot|)
  {
    RunMisses(Begin(r.saved, r.robot), known, a.runs, 0, |r.saved.missionQueueIds|);
  }

  /** One of the runs stopped before it recorded a robot mission. */
  predicate Lost(known: seq<bool>, restarts: seq<Attempt>) {
    restarts != [] &&
    var init := restarts[..|restarts| - 1];
    Lost(known, init) || Loses(After(known, init).saved, known, restarts[|restarts| - 1])
  }

  /** After such a run another one created a robot mission. */
  predicate LostAndLaunched(known: seq<bool>, restarts: seq<Attempt>) {
    restarts != [] &&
    var init := restarts[..|restarts| - 1];
    || LostAndLaunched(known, init)
    || (Lost(known, init) && Launches(After(known, init).saved, known, restarts[|restarts| - 1]))
  }

  /** What is in the robot's queue before anything was launched twice. */
  ghost predicate InOrder(r: Recovery, lost: bool) {
    r.robot == Range(0, |r.saved.missionQueueIds| + Count(lost))
  }

  lemma RestartedQueue(r: Recovery, known: seq<bool>, a: Attempt) returns (m: nat)
    requires Aligned(r.saved, r.robot)
    ensures m >= |r.saved.missionQueueIds|
    ensures Restarted(r, known, a).robot == r.robot + Range(|r.saved.missionQueueIds|, m)
  {
    m := |r.saved.missionQueueIds|;
    RangeGrows(r.robot, m, m);
    if !NotStarted(r.saved, a) {
      m := RunLaunchesRest(Begin(r.saved, r.robot), known, a.runs, 0);
    }
  }

  /** The first launch after a lost one repeats it. */
  lemma LaunchesAgain(r: Recovery, known: seq<bool>, a: Attempt)
    requires Aligned(r.saved, r.robot) && InOrder(r, true) && Launches(r.saved, known, a)
    ensures !NoDuplicates(Restarted(r, known, a).robot)
  {
    var n, t := |r.saved.missionQueueIds|, Restarted(r, known, a);
    var m := RestartedQueue(r, known, a);
    MissesIff(r, known, a);
    assert t.robot[n] == n && t.robot[n + 1] == Range(n, m)[0] == n;
  }

  lemma StaysInOrder(r: Recovery, known: seq<bool>, a: Attempt, lost: bool)
    requires Aligned(r.saved, r.robot) && InOrder(r, lost) && !(lost && Launches(r.saved, known, a))
    ensures InOrder(Restarted(r, known, a), lost || Loses(r.saved, known, a))
  {
    var n, t := |r.saved.missionQueueIds|, Restarted(r, known, a);
    var m := RestartedQueue(r, known, a);
    MissesIff(r, known, a);
    if Loses(r.saved, known, a) {
      LosingLaunches(n, known, a.runs);
    }
    if lost {
      assert t.robot == r.robot;
    } else {
      assert t.robot == Range(0, m);
    }
  }

  /** A run that stops before recording a robot mission created one. */
  lemma LosingLaunches(launched: nat, known: seq<bool>, runs: seq<ActionRun>)
    requires LosesFrom(launched, known, runs, 0)
    ensures LaunchesFrom(launched, known, runs, 0)
  {
    var j :| 0 <= j < |known| && GetsTo(launched, known, runs, 0, j) && RunOf(runs, j).launch == Unrecorded;
    assert launched < j ==> ActionSucceeds(launched, known, runs, launched);
  }

  lemma DuplicatesStay(r: Recovery, known: seq<bool>, a: Attempt)
    requires Aligned(r.saved, r.robot) && !NoDuplicates(r.robot)
    ensures !NoDuplicates(Restarted(r, known, a).robot)
  {
    var m := RestartedQueue(r, known, a);
    var t := Restarted(r, known, a);
    assert forall i :: 0 <= i < |r.robot| ==> t.robot[i] == r.robot[i];
  }

  /**
   * Over any number of restarts an action is launched twice exactly when a run stopped between
   * creating a robot mission and recording it, and a later one created a robot mission. Until
   * then all actions are launched in order, and one is missing in the record if a run stopped so.
   */
  lemma {:induction false} LaunchedTwiceIff(known: seq<bool>, restarts: seq<Attempt>)
    ensures var r := After(known, restarts);
      && (NoDuplicates(r.robot) <==> !LostAndLaunched(known, restarts))
      && (!LostAndLaunched(known, restarts) ==> InOrder(r, Lost(known, restarts)))
  {
    if restarts != [] {
      var init, last := restarts[..|restarts| - 1], restarts[|restarts| - 1];
      var r := After(known, init);
      LaunchedTwiceIff(known, init);
      RestartsStayAligned(known, init);
      if LostAndLaunched(known, init) {
        DuplicatesStay(r, known, last);
      } else if Lost(known, init) && Launches(r.saved, known, last) {
        LaunchesAgain(r, known, last);
      } else {
        StaysInOrder(r, known, last, Lost(known, init));
      }
    }
  }

  /** The record has all robot missions exactly when no run stopped before recording one. */
  lemma {:induction false} RecordedIff(known: seq<bool>, restarts: seq<Attempt>)
    ensures var r := After(known, restarts);
      && |r.saved.missionQueueIds| <= |r.robot|
      && (|r.saved.missionQueueIds| == |r.robot| <==> !Lost(known, restarts))
  {
    if restarts != [] {
      var init := restarts[..|restarts| - 1];
      RecordedIff(known, init);
      MissesIff(After(known, init), known, restarts[|restarts| - 1]);
    }
  }

  /** Otherwise the resumed mission launches the action whose id was not recorded a second time. */
  lemma UnrecordedLaunchesTwice(saved: Mission, robot: seq<nat>, known: seq<bool>, runs: seq<ActionRun>,
                                again: seq<ActionRun>, i: nat)
    requires i == |saved.missionQueueIds| < |known| && Aligned(saved, robot)
    requires forall j :: 0 <= j < i ==>
               known[j] && Watch(RunOf(runs, j).reports) == Some(Succeeded) == Watch(RunOf(again, j).reports)
    requires known[i] && RunOf(runs, i).launch == Unrecorded && RunOf(again, i).launch == Recorded
    ensures var s := RunMission(saved, robot, known, Attempt(false, runs)).0;
      && s.robot == robot + [i] && s.saved.missionQueueIds == saved.missionQueueIds
      && robot + [i, i] <= RunMission(s.saved, s.robot, known, Attempt(false, again)).0.robot
  {
    Reaches(Begin(saved, robot), known, runs, i, 0);
    var s := RunMission(saved, robot, known, Attempt(false, runs)).0;
    Reaches(Begin(s.saved, s.robot), known, again, i, 0);
    var t := Launched(Begin(s.saved, s.robot), i, Recorded);
    assert t.robot == robot + [i, i];
    var m := RunLaunchesRest(Begin(s.saved, s.robot), known, again, 0);
    if Watch(RunOf(again, i).reports) == Some(Succeeded) {
      LaunchAligned(Begin(s.saved, s.robot), i, Recorded);
      m := RunLaunchesRest(t, known, again, i + 1);
    }
  }

  /** A resumed mission passes the actions that succeeded before without launching anything. */
  lemma {:induction false} Reaches(s: Situation, known: seq<bool>, runs: seq<ActionRun>, i: nat, k: nat)
    requires k <= i < |known| && i <= |s.active.missionQueueIds|
    requires forall j :: k <= j < i ==> known[j] && Watch(RunOf(runs, j).reports) == Some(Succeeded)
    ensures RunFrom(s, known, runs, k) == RunFrom(s, known, runs, i)
    decreases i - k
  {
    if k < i {
      Reaches(s, known, runs, i, k + 1);
    }
  }
}
