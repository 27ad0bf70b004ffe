/**
 * Confirmations of warehouse tasks: the robot appends them to the status of its order's
 * resource, the order manager works them off against EWM and records what it processed.
 */
module Confirmations {
  import opened Common

  datatype Conf = Conf(tanum: string, rsrc: string, first: bool, success: bool, date: string)

  /** The tasks of the order that are open in EWM, and those which got their first confirmation. */
  datatype Tasks = Tasks(open: set<string>, confirmed: set<string>)

  datatype CallFault = Fine | Lost | AnswerLost | Refused

  /** What goes wrong with one confirmation: reading the order, the call itself, or what follows it. */
  datatype Fault = Fault(reading: bool, call: CallFault, following: bool)

  /**
   * EWM, the confirmations whose calls it worked off, errors as well as successes, those of them
   * that took effect, and the order manager's memory.
   */
  datatype Work = Work(tasks: Tasks, reached: seq<Conf>, effects: seq<Conf>, memory: seq<Conf>)

  function FaultAt(faults: seq<Fault>, i: nat): Fault {
    if i < |faults| then faults[i] else Fault(false, Fine, false)
  }

  /* ---------- One confirmation ---------- */

  /** EWM has nothing to do for this confirmation (any more). */
  predicate Settled(c: Conf, tasks: Tasks) {
    !c.success || c.tanum !in tasks.open || (c.first && c.tanum in tasks.confirmed)
  }

  /** EWM worked off the call for this confirmation, or its task is not open any more. */
  predicate Handled(c: Conf, w: Work) {
    c in w.reached || c.tanum !in w.tasks.open
  }

  /** A success takes effect unless EWM already has it. */
  function TakesEffect(w: Work, c: Conf): Work {
    if Settled(c, w.tasks) then w
    else w.(effects := w.effects + [c],
            tasks := if c.first then w.tasks.(confirmed := w.tasks.confirmed + {c.tanum})
                     else w.tasks.(open := w.tasks.open - {c.tanum}))
  }

  function Called(w: Work, c: Conf, call: CallFault): Work {
    if call in {Lost, Refused} then w else TakesEffect(w.(reached := w.reached + [c]), c)
  }

  /**
   * What follows a confirmation: new orders are sent after a first success; the order is cleaned
   * up after a first error, and after a second success when no other task is open.
   */
  predicate FollowedUp(c: Conf, tasks: Tasks) {
    || (c.first && c.success)
    || (c.tanum in tasks.open && c.first)
    || (c.tanum in tasks.open && c.success && tasks.open == {c.tanum})
  }

  /** Processing one confirmation; the flag says whether an error ended the callback. */
  function ProcessOne(w: Work, c: Conf, f: Fault): (Work, bool) {
    if c in w.memory then (w, false)
    else if f.reading then (w, true)
    else
      var v := if c.tanum in w.tasks.open then Called(w, c, f.call) else w;
      if c.tanum in w.tasks.open && f.call != Fine then (v, true)
      else if f.following && FollowedUp(c, w.tasks) then (v, true)
      else (v.(memory := v.memory + [c]), false)
  }

  /** The confirmations from position i on, up to the first error. */
  function ProcessFrom(w: Work, confs: seq<Conf>, faults: seq<Fault>, i: nat): (Work, bool)
    requires i <= |confs|
    decreases |confs| - i
  {
    if i == |confs| then (w, false)
    else
      var (v, raised) := ProcessOne(w, confs[i], FaultAt(faults, i));
      if raised then (v, true) else ProcessFrom(v, confs, faults, i + 1)
  }

  /** The confirmations in the status that are not recorded as processed. */
  function NewConfirmations(confs: seq<Conf>, processed: seq<Conf>): seq<Conf> {
    if confs == [] then [] else
      NewConfirmations(confs[..|confs| - 1], processed)
      + if confs[|confs| - 1] in processed then [] else [confs[|confs| - 1]]
  }

  /** The robot's side: a confirmation that was sent before is not sent again. */
  class OrderStatus {
    var data: seq<Conf>

    constructor ()
      ensures data == []
    {
      data := [];
    }

    method ConfirmWht(c: Conf)
      requires NoDuplicates(data)
      modifies this
      ensures data == if c in old(data) then old(data) else old(data) + [c]
      ensures NoDuplicates(data)
    {
      for i := 0 to |data|
        invariant data == old(data) && c !in data[..i]
      {
        if data[i] == c {
          return;
        }
      }
      data := data + [c];
    }
  }

  /** The order manager's side. */
  class ConfirmationProcessor {
    var tasks: Tasks
    var reached: seq<Conf>
    var effects: seq<Conf>
    var memory: seq<Conf>

    constructor (tasks: Tasks)
      ensures View() == Work(tasks, [], [], [])
    {
      this.tasks := tasks;
      reached, effects, memory := [], [], [];
    }

    function View(): Work
      reads this
    {
      Work(tasks, reached, effects, memory)
    }

    /** The call of EWM for an open task. */
    method CallEwm(c: Conf, call: CallFault) returns (failed: bool)
      modifies this`tasks, this`reached, this`effects
      ensures View() == Called(old(View()), c, call) && failed == (call != Fine)
    {
      failed := call != Fine;
      if call == Lost || call == Refused {
        return;
      }
      reached := reached + [c];
      if Settled(c, tasks) {
        return;
      }
      effects := effects + [c];
      if c.first {
        tasks := tasks.(confirmed := tasks.confirmed + {c.tanum});
      } else {
        tasks := tasks.(open := tasks.open - {c.tanum});
      }
    }

    method ProcessConfirmation(c: Conf, f: Fault) returns (raised: bool)
      modifies this
      ensures (View(), raised) == ProcessOne(old(View()), c, f)
    {
      if c in memory {
        return false;
      }
      if f.reading {
        return true;
      }
      var followed := FollowedUp(c, tasks);
      if c.tanum in tasks.open {
        var failed := CallEwm(c, f.call);
        if failed {
          return true;
        }
      }
      if f.following && followed {
        return true;
      }
      memory := memory + [c];
      return false;
    }

    method GetWhoConfirmations(confs: seq<Conf>, processed: seq<Conf>) returns (newConfs: seq<Conf>)
      ensures newConfs == NewConfirmations(confs, processed)
    {
      newConfs := [];
      for i := 0 to |confs|
        invariant newConfs == NewConfirmations(confs[..i], processed)
      {
        assert confs[..i + 1][..i] == confs[..i];
        if confs[i] !in processed {
          newConfs := newConfs + [confs[i]];
        }
      }
      assert confs[..|confs|] == confs;
    }

    /** Processes what is new in sequence; only when nothing was raised the status counts as processed. */
    method ProcessWhoCr(confs: seq<Conf>, processed: seq<Conf>, faults: seq<Fault>) returns (saved: seq<Conf>)
      modifies this
      ensures var (v, raised) := ProcessFrom(old(View()), NewConfirmations(confs, processed), faults, 0);
        View() == v && saved == if raised then processed else confs
      ensures var newConfs := NewConfirmations(confs, processed);
        && ((exists i :: 0 <= i < |newConfs| && Stops(old(View()), newConfs, faults, i)) ==> saved == processed)
        && (!(exists i :: 0 <= i < |newConfs| && Stops(old(View()), newConfs, faults, i)) ==>
              saved == confs && WorkedOff(old(View()), View(), newConfs, |newConfs|))
        && (forall i | 0 <= i < |newConfs| && Stops(old(View()), newConfs, faults, i)
              && (forall j :: 0 <= j < i ==> !Stops(old(View()), newConfs, faults, j)) ::
              StoppedAt(old(View()), View(), newConfs, faults, i))
    {
      var newConfs := GetWhoConfirmations(confs, processed);
      ghost var (v, ended) := ProcessFrom(View(), newConfs, faults, 0);
      CallbackProgress(View(), newConfs, faults, v, ended);
      for i := 0 to |newConfs|
        invariant ProcessFrom(View(), newConfs, faults, i) == ProcessFrom(old(View()), newConfs, faults, 0)
      {
        var raised := ProcessConfirmation(newConfs[i], FaultAt(faults, i));
        if raised {
          return processed;
        }
      }
      saved := confs;
    }
  }

  /* ---------- Progress ---------- */

  /** The confirmation at position i is processed, unless it was before. */
  predicate Unknown(w: Work, confs: seq<Conf>, i: nat) {
    i < |confs| && confs[i] !in w.memory && confs[i] !in confs[..i]
  }

  /** The tasks that are still open once the first i confirmations were worked off. */
  ghost function OpenAt(w: Work, confs: seq<Conf>, i: nat): set<string> {
    set t | t in w.tasks.open && !exists j :: 0 <= j < i && Unknown(w, confs, j) && confs[j].tanum == t
                                              && !confs[j].first && confs[j].success
  }

  /** The tasks that have their first confirmation then. */
  ghost function ConfirmedAt(w: Work, confs: seq<Conf>, i: nat): set<string> {
    w.tasks.confirmed
    + set j | 0 <= j < i && j < |confs| && CallDue(w, confs, j) && confs[j].first && confs[j].success :: confs[j].tanum
  }

  /** EWM is called for an unknown confirmation whose task is open. */
  ghost predicate CallDue(w: Work, confs: seq<Conf>, i: nat) {
    Unknown(w, confs, i) && confs[i].tanum in OpenAt(w, confs, i)
  }

  /** The call is for a success that EWM does not have. */
  ghost predicate EffectDue(w: Work, confs: seq<Conf>, i: nat) {
    CallDue(w, confs, i) && confs[i].success && (confs[i].first ==> confs[i].tanum !in ConfirmedAt(w, confs, i))
  }

  /**
   * Something has to be done after the confirmation: after each first one of an open task, after
   * every first success, and after the second success of the last open task.
   */
  ghost predicate FollowUpDue(w: Work, confs: seq<Conf>, i: nat) {
    Unknown(w, confs, i) &&
    if confs[i].first then confs[i].success || confs[i].tanum in OpenAt(w, confs, i)
    else confs[i].success && OpenAt(w, confs, i) == {confs[i].tanum}
  }

  /** The order cannot be read, the call of EWM fails, or what follows it does. */
  ghost predicate Stops(w: Work, confs: seq<Conf>, faults: seq<Fault>, i: nat) {
    var f := if i < |faults| then faults[i] else Fault(false, Fine, false);
    Unknown(w, confs, i) &&
    (f.reading || (CallDue(w, confs, i) && f.call != Fine) || (f.following && FollowUpDue(w, confs, i)))
  }

  /** The confirmations among the first n for which EWM is called, and those that take effect. */
  ghost function CallsUpTo(w: Work, confs: seq<Conf>, n: nat): set<Conf> {
    set j | 0 <= j < n && j < |confs| && CallDue(w, confs, j) :: confs[j]
  }

  ghost function EffectsUpTo(w: Work, confs: seq<Conf>, n: nat): set<Conf> {
    set j | 0 <= j < n && j < |confs| && EffectDue(w, confs, j) :: confs[j]
  }

  /** Exactly what is due for the first n confirmations was done. */
  ghost predicate WorkedOff(w: Work, v: Work, confs: seq<Conf>, n: nat)
    requires n <= |confs|
  {
    && (forall c :: c in v.memory <==> c in w.memory || c in confs[..n])
    && v.tasks == Tasks(OpenAt(w, confs, n), ConfirmedAt(w, confs, n))
    && (forall c :: c in v.reached <==> c in w.reached || c in CallsUpTo(w, confs, n))
    && (forall c :: c in v.effects <==> c in w.effects || c in EffectsUpTo(w, confs, n))
  }

  lemma OpenNext(w: Work, confs: seq<Conf>, n: nat)
    requires n < |confs|
    ensures OpenAt(w, confs, n + 1) ==
            OpenAt(w, confs, n)
            - if CallDue(w, confs, n) && !confs[n].first && confs[n].success then {confs[n].tanum} else {}
    ensures ConfirmedAt(w, confs, n + 1) ==
            ConfirmedAt(w, confs, n)
            + if CallDue(w, confs, n) && confs[n].first && confs[n].success then {confs[n].tanum} else {}
  {
  }

  lemma DueNext(w: Work, confs: seq<Conf>, n: nat)
    requires n < |confs|
    ensures CallsUpTo(w, confs, n + 1) == CallsUpTo(w, confs, n) + if CallDue(w, confs, n) then {confs[n]} else {}
    ensures EffectsUpTo(w, confs, n + 1) == EffectsUpTo(w, confs, n) + if EffectDue(w, confs, n) then {confs[n]} else {}
  {
  }

  /** What a call that reaches EWM does. */
  lemma CalledIs(w: Work, v: Work, confs: seq<Conf>, n: nat, call: CallFault)
    requires n < |confs| && CallDue(w, confs, n) && call in {Fine, AnswerLost}
    requires v.tasks == Tasks(OpenAt(w, confs, n), ConfirmedAt(w, confs, n))
    ensures var u, c := Called(v, confs[n], call), confs[n];
      && u.memory == v.memory && u.reached == v.reached + [c]
      && u.effects == v.effects + (if EffectDue(w, confs, n) then [c] else [])
      && u.tasks == Tasks(OpenAt(w, confs, n + 1), ConfirmedAt(w, confs, n + 1))
  {
    OpenNext(w, confs, n);
  }

  lemma WorkNext(w: Work, v: Work, confs: seq<Conf>, n: nat, f: Fault, u: Work, raised: bool)
    requires n < |confs| && WorkedOff(w, v, confs, n) && !f.reading && (CallDue(w, confs, n) ==> f.call == Fine)
    requires !(f.following && FollowUpDue(w, confs, n)) && (u, raised) == ProcessOne(v, confs[n], f)
    ensures !raised && WorkedOff(w, u, confs, n + 1)
  {
    assert confs[..n + 1] == confs[..n] + [confs[n]];
    assert confs[n] in v.memory <==> !Unknown(w, confs, n);
    OpenNext(w, confs, n);
    DueNext(w, confs, n);
    if CallDue(w, confs, n) {
      CalledIs(w, v, confs, n, f.call);
    }
  }

  /** The call for the confirmation at which the callback stops may have reached EWM. */
  ghost predicate CallArrives(w: Work, confs: seq<Conf>, faults: seq<Fault>, n: nat) {
    var f := if n < |faults| then faults[n] else Fault(false, Fine, false);
    CallDue(w, confs, n) && !f.reading && f.call in {Fine, AnswerLost}
  }

  /** What is due for the first n confirmations was done, and at most the call for the next one. */
  ghost predicate StoppedAt(w: Work, v: Work, confs: seq<Conf>, faults: seq<Fault>, n: nat)
    requires n < |confs|
  {
    var m := if CallArrives(w, confs, faults, n) then n + 1 else n;
    && (forall c :: c in v.memory <==> c in w.memory || c in confs[..n])
    && v.tasks == Tasks(OpenAt(w, confs, m), ConfirmedAt(w, confs, m))
    && (forall c :: c in v.reached <==> c in w.reached || c in CallsUpTo(w, confs, m))
    && (forall c :: c in v.effects <==> c in w.effects || c in EffectsUpTo(w, confs, m))
  }

  lemma WorkStops(w: Work, v: Work, confs: seq<Conf>, faults: seq<Fault>, n: nat, u: Work, raised: bool)
    requires n < |confs| && WorkedOff(w, v, confs, n) && Stops(w, confs, faults, n)
    requires (u, raised) == ProcessOne(v, confs[n], FaultAt(faults, n))
    ensures raised && StoppedAt(w, u, confs, faults, n)
  {
    assert confs[n] !in v.memory;
    DueNext(w, confs, n);
    if CallArrives(w, confs, faults, n) {
      CalledIs(w, v, confs, n, FaultAt(faults, n).call);
    }
  }

  /** The confirmations are processed one after the other, up to the first one that stops the callback. */
  lemma {:induction false} ProgressFrom(w: Work, v: Work, confs: seq<Conf>, faults: seq<Fault>, n: nat, u: Work,
                                        raised: bool)
    requires n <= |confs| && WorkedOff(w, v, confs, n) && (u, raised) == ProcessFrom(v, confs, faults, n)
    requires forall i :: 0 <= i < n ==> !Stops(w, confs, faults, i)
    ensures raised <==> exists i :: 0 <= i < |confs| && Stops(w, confs, faults, i)
    ensures !raised ==> WorkedOff(w, u, confs, |confs|)
    ensures forall i | 0 <= i < |confs| && Stops(w, confs, faults, i)
              && (forall j :: 0 <= j < i ==> !Stops(w, confs, faults, j)) :: StoppedAt(w, u, confs, faults, i)
    decreases |confs| - n
  {
    if n < |confs| {
      var (x, stopped) := ProcessOne(v, confs[n], FaultAt(faults, n));
      ProcessUnfolds(v, confs, faults, n, x, stopped);
      if Stops(w, confs, faults, n) {
        WorkStops(w, v, confs, faults, n, x, stopped);
      } else {
        GoesOnAt(w, v, confs, faults, n, x, stopped);
        ProgressFrom(w, x, confs, faults, n + 1, u, raised);
      }
    }
  }

  /** The next confirmation does not stop the callback. */
  lemma GoesOnAt(w: Work, v: Work, confs: seq<Conf>, faults: seq<Fault>, n: nat, u: Work, raised: bool)
    requires n < |confs| && WorkedOff(w, v, confs, n) && !Stops(w, confs, faults, n)
    requires (u, raised) == ProcessOne(v, confs[n], FaultAt(faults, n))
    ensures !raised && WorkedOff(w, u, confs, n + 1)
  {
    if Unknown(w, confs, n) {
      WorkNext(w, v, confs, n, FaultAt(faults, n), u, raised);
    } else {
      assert confs[..n + 1] == confs[..n] + [confs[n]] && confs[n] in v.memory;
      OpenNext(w, confs, n);
      DueNext(w, confs, n);
    }
  }

  lemma NothingWorkedOff(w: Work, confs: seq<Conf>)
    ensures WorkedOff(w, w, confs, 0)
  {
  }

  /**
   * A callback stops early exactly when an unknown confirmation cannot be read, its call fails
   * while its task is open, or what follows it fails. Everything due before that one was done,
   * and nothing after it; without such a confirmation everything was done.
   */
  lemma CallbackProgress(w: Work, confs: seq<Conf>, faults: seq<Fault>, v: Work, raised: bool)
    requires (v, raised) == ProcessFrom(w, confs, faults, 0)
    ensures raised <==> exists i :: 0 <= i < |confs| && Stops(w, confs, faults, i)
    ensures !raised ==> WorkedOff(w, v, confs, |confs|)
    ensures forall i | 0 <= i < |confs| && Stops(w, confs, faults, i)
              && (forall j :: 0 <= j < i ==> !Stops(w, confs, faults, j)) :: StoppedAt(w, v, confs, faults, i)
  {
    NothingWorkedOff(w, confs);
    ProgressFrom(w, w, confs, faults, 0, v, raised);
  }

  lemma {:induction false} FirstOccurrence(confs: seq<Conf>, c: Conf) returns (i: nat)
    requires c in confs
    ensures i < |confs| && confs[i] == c && c !in confs[..i]
  {
    var init := confs[..|confs| - 1];
    if c in init {
      i := FirstOccurrence(init, c);
      assert confs[..i] == init[..i];
    } else {
      i := |confs| - 1;
    }
  }

  /** Once all are worked off, EWM has nothing left to do for any of them. */
  lemma WorkedOffSettles(w: Work, v: Work, confs: seq<Conf>, c: Conf)
    requires WorkedOff(w, v, confs, |confs|) && c in confs && c !in w.memory
    ensures c in v.memory && Handled(c, v) && Settled(c, v.tasks)
  {
    assert confs[..|confs|] == confs;
    var i := FirstOccurrence(confs, c);
    assert Unknown(w, confs, i);
    if CallDue(w, confs, i) {
      assert c in CallsUpTo(w, confs, |confs|);
    }
  }

  /**
   * Without faults the callback does not stop. Every confirmation it did not know is handled and
   * settled afterwards, and the first success for an open task takes effect.
   */
  lemma FaultlessProgress(w: Work, confs: seq<Conf>, v: Work, raised: bool)
    requires (v, raised) == ProcessFrom(w, confs, [], 0)
    ensures !raised
    ensures forall c :: c in confs && c !in w.memory ==> c in v.memory && Handled(c, v) && Settled(c, v.tasks)
    ensures forall i: nat | Unknown(w, confs, i) && confs[i].success && confs[i].tanum in w.tasks.open
              && (confs[i].first ==> confs[i].tanum !in w.tasks.confirmed)
              && (forall j :: 0 <= j < i ==> confs[j].tanum != confs[i].tanum || !confs[j].success) ::
              confs[i] in v.effects
  {
    CallbackProgress(w, confs, [], v, raised);
    forall c | c in confs && c !in w.memory ensures c in v.memory && Handled(c, v) && Settled(c, v.tasks) {
      WorkedOffSettles(w, v, confs, c);
    }
    forall i: nat | Unknown(w, confs, i) && confs[i].success && confs[i].tanum in w.tasks.open
      && (confs[i].first ==> confs[i].tanum !in w.tasks.confirmed)
      && (forall j :: 0 <= j < i ==> confs[j].tanum != confs[i].tanum || !confs[j].success)
      ensures confs[i] in v.effects
    {
      assert EffectDue(w, confs, i) && confs[i] in EffectsUpTo(w, confs, |confs|);
    }
  }

  /* ---------- Runs ---------- */

  /**
   * `longest` is the largest number of confirmations ever recorded as processed; cached
   * resources may still show any earlier status.
   */
  datatype State = State(log: seq<Conf>, processed: seq<Conf>, longest: nat, work: Work)

  datatype Step =
    | Append(c: Conf)
    | Callback(seen: nat, recorded: nat, faults: seq<Fault>, written: bool)
    | Forget(memory: seq<Conf>)
    | CloseTask(tanum: string)

  ghost predicate Next(s: State, t: State, step: Step) {
    match step
    case Append(c) => c !in s.log && t == s.(log := s.log + [c])
    case Callback(seen, recorded, faults, written) =>
      && recorded <= seen <= |s.log| && recorded <= s.longest
      && var (v, raised) := ProcessFrom(s.work, NewConfirmations(s.log[..seen], s.log[..recorded]), faults, 0);
         if raised || !written then t == s.(work := v)
         else t == s.(work := v, processed := s.log[..seen], longest := if seen > s.longest then seen else s.longest)
    case Forget(memory) =>
      (forall c :: c in memory ==> c in s.work.memory) && t == s.(work := s.work.(memory := memory))
    case CloseTask(tanum) => t == s.(work := s.work.(tasks := s.work.tasks.(open := s.work.tasks.open - {tanum})))
  }

  ghost predicate Run(states: seq<State>, steps: seq<Step>) {
    && |states| == |steps| + 1
    && states[0].log == [] && states[0].processed == [] && states[0].longest == 0
    && states[0].work.reached == [] && states[0].work.effects == [] && states[0].work.memory == []
    && forall i :: 0 <= i < |steps| ==> Next(states[i], states[i + 1], steps[i])
  }

  /** The first sequence is what is left of the second one after leaving out some elements. */
  predicate Subsequence(a: seq<Conf>, b: seq<Conf>) {
    a == [] || (b != [] &&
      if a[|a| - 1] == b[|b| - 1] then Subsequence(a[..|a| - 1], b[..|b| - 1]) else Subsequence(a, b[..|b| - 1]))
  }

  lemma SubsequenceAppend(a: seq<Conf>, b: seq<Conf>, c: Conf)
    requires Subsequence(a, b)
    ensures Subsequence(a + [c], b + [c])
  {
  }

  lemma {:induction false} SubsequenceElements(a: seq<Conf>, b: seq<Conf>, c: Conf)
    requires Subsequence(a, b) && c in a
    ensures c in b
  {
    if a[|a| - 1] == b[|b| - 1] {
      if c != a[|a| - 1] {
        SubsequenceElements(a[..|a| - 1], b[..|b| - 1], c);
      }
    } else {
      SubsequenceElements(a, b[..|b| - 1], c);
    }
  }

  /** No two effects concern the same confirmation of the same task. */
  ghost predicate OncePerTask(effects: seq<Conf>) {
    forall i, j | 0 <= i < j < |effects| :: effects[i].tanum != effects[j].tanum || effects[i].first != effects[j].first
  }

  /**
   * The first g confirmations are handled and settled in EWM, no other ones were worked off, and
   * nothing but successes among them took effect, in their order.
   */
  ghost predicate Frontier(log: seq<Conf>, w: Work, g: nat) {
    && g <= |log| && NoDuplicates(log)
    && (forall j :: 0 <= j < g ==> Settled(log[j], w.tasks) && Handled(log[j], w))
    && (forall c :: c in w.reached ==> c in log[..g])
    && Subsequence(w.effects, log[..g])
    && (forall e :: e in w.effects ==> e.success && Settled(e, w.tasks)) && OncePerTask(w.effects)
    && (forall c :: c in w.memory ==> c in log[..g])
  }

  ghost predicate Inv(s: State, g: nat) {
    Frontier(s.log, s.work, g) && s.processed <= s.log && |s.processed| <= s.longest <= g
  }

  lemma {:induction false} TakeSubsequence(a: seq<Conf>, log: seq<Conf>, g: nat, h: nat)
    requires g <= h <= |log| && NoDuplicates(log) && Subsequence(a, log[..g])
    ensures Subsequence(a, log[..h])
    decreases h - g
  {
    if g < h {
      TakeSubsequence(a, log, g, h - 1);
      assert log[..h] == log[..h - 1] + [log[h - 1]];
      if a != [] && a[|a| - 1] == log[h - 1] && h > g {
        SubsequenceElements(a, log[..g], log[h - 1]);
      }
      if a != [] {
        assert log[..h][..h - 1] == log[..h - 1];
      }
    }
  }

  /** The next confirmation of the log takes effect and is settled from then on. */
  lemma EffectKeeps(log: seq<Conf>, w: Work, g: nat)
    requires Frontier(log, w, g) && g < |log| && !Settled(log[g], w.tasks)
    ensures Frontier(log, TakesEffect(w.(reached := w.reached + [log[g]]), log[g]), g + 1)
  {
    var c, v := log[g], TakesEffect(w.(reached := w.reached + [log[g]]), log[g]);
    assert log[..g + 1] == log[..g] + [c];
    SubsequenceAppend(w.effects, log[..g], c);
    assert forall e :: Settled(e, w.tasks) ==> Settled(e, v.tasks);
    assert c in v.reached && forall e :: Handled(e, w) ==> Handled(e, v);
    forall i | 0 <= i < |w.effects| ensures w.effects[i].tanum != c.tanum || w.effects[i].first != c.first {
      assert w.effects[i] in w.effects;
    }
  }

  /** A confirmation whose task is not open any more moves the frontier, too. */
  lemma SettledKeeps(log: seq<Conf>, w: Work, g: nat)
    requires Frontier(log, w, g) && g < |log| && log[g].tanum !in w.tasks.open
    ensures Frontier(log, w, g + 1)
  {
    TakeSubsequence(w.effects, log, g, g + 1);
    assert log[..g + 1] == log[..g] + [log[g]];
  }

  lemma ReachedKeeps(log: seq<Conf>, w: Work, g: nat)
    requires Frontier(log, w, g) && g < |log| && Settled(log[g], w.tasks)
    ensures Frontier(log, w.(reached := w.reached + [log[g]]), g + 1)
  {
    TakeSubsequence(w.effects, log, g, g + 1);
    assert log[..g + 1] == log[..g] + [log[g]];
    assert forall e :: Handled(e, w) ==> Handled(e, w.(reached := w.reached + [log[g]]));
  }

  /** Working off an earlier confirmation once more has no effect. */
  lemma RepeatKeeps(log: seq<Conf>, w: Work, k: nat, g: nat)
    requires Frontier(log, w, g) && k < g
    ensures Frontier(log, w.(reached := w.reached + [log[k]]), g)
  {
    assert log[..g][k] == log[k];
    assert forall e :: Handled(e, w) ==> Handled(e, w.(reached := w.reached + [log[k]]));
  }

  lemma CallKeeps(log: seq<Conf>, w: Work, k: nat, g: nat, call: CallFault) returns (h: nat)
    requires Frontier(log, w, g) && k <= g && k < |log|
    ensures g <= h && Frontier(log, Called(w, log[k], call), h)
    ensures call == Fine ==> k < h
  {
    h := g;
    if call !in {Lost, Refused} {
      if k < g {
        RepeatKeeps(log, w, k, g);
      } else {
        if Settled(log[g], w.tasks) {
          ReachedKeeps(log, w, g);
        } else {
          EffectKeeps(log, w, g);
        }
        h := g + 1;
      }
    }
  }

  lemma RememberKeeps(log: seq<Conf>, w: Work, k: nat, g: nat)
    requires Frontier(log, w, g) && k < g
    ensures Frontier(log, w.(memory := w.memory + [log[k]]), g)
  {
  }

  /** Processing the next confirmation or repeating one keeps the frontier, which never falls back. */
  lemma ProcessOneKeeps(log: seq<Conf>, w: Work, k: nat, g: nat, f: Fault) returns (h: nat)
    requires Frontier(log, w, g) && k <= g && k < |log|
    ensures g <= h && Frontier(log, ProcessOne(w, log[k], f).0, h)
    ensures !ProcessOne(w, log[k], f).1 ==> k < h
  {
    var c := log[k];
    h := g;
    if c in w.memory {
      var j :| 0 <= j < g && log[..g][j] == c;
      assert k == j;
    } else if !f.reading {
      var v := w;
      if c.tanum in w.tasks.open {
        h := CallKeeps(log, w, k, g, f.call);
        v := Called(w, c, f.call);
      } else if k == g {
        SettledKeeps(log, w, g);
        h := g + 1;
      }
      if !ProcessOne(w, c, f).1 {
        RememberKeeps(log, v, k, h);
      }
    }
  }

  /** The new confirmations are those that are not recorded, in their order. */
  lemma {:induction false} NewConfirmationsAre(confs: seq<Conf>, processed: seq<Conf>)
    ensures forall c :: c in NewConfirmations(confs, processed) <==> c in confs && c !in processed
    ensures Subsequence(NewConfirmations(confs, processed), confs)
  {
    if confs != [] {
      var init, last := confs[..|confs| - 1], confs[|confs| - 1];
      assert confs == init + [last];
      NewConfirmationsAre(init, processed);
      if last !in processed {
        SubsequenceAppend(NewConfirmations(init, processed), init, last);
      } else {
        SkipLast(NewConfirmations(init, processed), init, last);
        assert NewConfirmations(confs, processed) == NewConfirmations(init, processed);
      }
    }
  }

  lemma SkipLast(a: seq<Conf>, b: seq<Conf>, c: Conf)
    requires Subsequence(a, b) && c !in a
    ensures Subsequence(a, b + [c])
  {
    if a != [] {
      assert a[|a| - 1] in a && (b + [c])[..|b|] == b;
    }
  }

  lemma {:induction false} NewAre(log: seq<Conf>, recorded: nat, seen: nat)
    requires recorded <= seen <= |log| && NoDuplicates(log)
    ensures NewConfirmations(log[..seen], log[..recorded]) == log[recorded..seen]
    decreases seen
  {
    if seen > 0 {
      var confs := log[..seen];
      assert confs[..seen - 1] == log[..seen - 1];
      if recorded < seen {
        NewAre(log, recorded, seen - 1);
        assert log[recorded..seen] == log[recorded..seen - 1] + [log[seen - 1]];
        assert log[seen - 1] !in log[..recorded];
      } else {
        NothingNew(log[..seen], log[..recorded]);
      }
    }
  }

  lemma {:induction false} NothingNew(confs: seq<Conf>, processed: seq<Conf>)
    requires forall c :: c in confs ==> c in processed
    ensures NewConfirmations(confs, processed) == []
  {
    if confs != [] {
      assert confs[|confs| - 1] in confs;
      NothingNew(confs[..|confs| - 1], processed);
    }
  }

  lemma ProcessUnfolds(w: Work, confs: seq<Conf>, faults: seq<Fault>, i: nat, v: Work, raised: bool)
    requires i < |confs| && (v, raised) == ProcessOne(w, confs[i], FaultAt(faults, i))
    ensures raised ==> ProcessFrom(w, confs, faults, i) == (v, true)
    ensures !raised ==> ProcessFrom(w, confs, faults, i) == ProcessFrom(v, confs, faults, i + 1)
  {
  }

  lemma {:induction false} ProcessKeeps(log: seq<Conf>, w: Work, recorded: nat, confs: seq<Conf>, faults: seq<Fault>,
                                        i: nat, g: nat, r: (Work, bool)) returns (h: nat)
    requires recorded + |confs| <= |log| && confs == log[recorded..recorded + |confs|]
    requires i <= |confs| && Frontier(log, w, g) && recorded + i <= g && r == ProcessFrom(w, confs, faults, i)
    ensures g <= h && Frontier(log, r.0, h) && (!r.1 ==> recorded + |confs| <= h)
    decreases |confs| - i
  {
    h := g;
    if i < |confs| {
      assert confs[i] == log[recorded + i];
      var (v, raised) := ProcessOne(w, confs[i], FaultAt(faults, i));
      ProcessUnfolds(w, confs, faults, i, v, raised);
      h := ProcessNextKeeps(log, w, recorded + i, g, FaultAt(faults, i), v, raised);
      if !raised {
        h := ProcessKeeps(log, v, recorded, confs, faults, i + 1, h, r);
      }
    }
  }

  lemma ProcessNextKeeps(log: seq<Conf>, w: Work, k: nat, g: nat, f: Fault, v: Work, raised: bool) returns (h: nat)
    requires Frontier(log, w, g) && k <= g && k < |log| && (v, raised) == ProcessOne(w, log[k], f)
    ensures g <= h && Frontier(log, v, h) && (!raised ==> k < h)
  {
    h := ProcessOneKeeps(log, w, k, g, f);
  }

  lemma AppendKeeps(log: seq<Conf>, w: Work, g: nat, c: Conf)
    requires Frontier(log, w, g) && c !in log
    ensures Frontier(log + [c], w, g)
  {
    assert (log + [c])[..g] == log[..g];
  }

  lemma StepKeeps(s: State, t: State, step: Step, g: nat) returns (h: nat)
    requires Inv(s, g) && Next(s, t, step)
    ensures g <= h && Inv(t, h)
  {
    h := g;
    match step {
      case Append(c) => AppendKeeps(s.log, s.work, g, c);
      case Callback(seen, recorded, faults, written) =>
        NewAre(s.log, recorded, seen);
        h := ProcessKeeps(s.log, s.work, recorded, s.log[recorded..seen], faults, 0, g,
                          ProcessFrom(s.work, s.log[recorded..seen], faults, 0));
      case Forget(_) =>
      case CloseTask(tanum) =>
        assert forall e :: Settled(e, s.work.tasks) ==> Settled(e, t.work.tasks);
        assert forall e :: Handled(e, s.work) ==> Handled(e, t.work);
    }
  }

  /**
   * In every run, whatever calls fail, callbacks are repeated or see an old status, and however
   * often the order manager forgets what it did: successful confirmations take effect in EWM in
   * the order of the log, each of them once at most. The recorded status is a beginning of the
   * log; every confirmation in it, error or success, was worked off by EWM or its task is not
   * open any more, and EWM has nothing left to do for it. No confirmation is worked off before
   * all earlier ones of the log are handled.
   */
  lemma {:induction false} RunsConfirmInOrder(states: seq<State>, steps: seq<Step>, i: nat) returns (g: nat)
    requires Run(states, steps) && i < |states|
    ensures Subsequence(states[i].work.effects, states[i].log) && OncePerTask(states[i].work.effects)
    ensures forall e :: e in states[i].work.effects ==> e.success
    ensures states[i].processed <= states[i].log
    ensures forall c :: c in states[i].processed ==> Settled(c, states[i].work.tasks) && Handled(c, states[i].work)
    ensures forall j, k :: 0 <= j < k < |states[i].log| && states[i].log[k] in states[i].work.reached ==>
              Handled(states[i].log[j], states[i].work)
    ensures Inv(states[i], g)
  {
    if i == 0 {
      g := 0;
      assert states[0].log[..0] == [];
    } else {
      g := RunsConfirmInOrder(states, steps, i - 1);
      g := StepKeeps(states[i - 1], states[i], steps[i - 1], g);
    }
    var s := states[i];
    TakeSubsequence(s.work.effects, s.log, g, |s.log|);
    assert s.log[..|s.log|] == s.log;
    forall k | 0 <= k < |s.log| && s.log[k] in s.work.reached ensures k < g {
      var j :| 0 <= j < g && s.log[..g][j] == s.log[k];
      assert s.log[j] == s.log[k];
    }
  }
}
