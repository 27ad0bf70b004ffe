/**
 * What a callback of the order manager achieves, told by the answers of EWM: which orders are
 * delivered, handed back or kept, and when a reservation is done.
 */
module ReservationResults {
  import opened Common
  import opened Warehouse
  import opened ReservationManager

  /* ---------- One callback on assigned orders ---------- */

  /** What is consistent about a reservation: each order is listed once and assigned to one robot at most. */
  ghost predicate Consistent(res: Reservation) {
    && NoDuplicates(Idents(res.whos))
    && (forall i, j | 0 <= i < j < |res.assignments| :: res.assignments[i].id != res.assignments[j].id)
    && forall a :: a in res.delivered ==> a in res.assignments
  }

  predicate Listed(res: Reservation, id: Ident) {
    exists i :: 0 <= i < |res.whos| && res.whos[i].id == id
  }

  /** EWM is asked to make assignment i. */
  predicate Due(res: Reservation, i: nat) {
    i < |res.assignments| && Listed(res, res.assignments[i].id) && res.assignments[i] !in res.delivered
  }

  /** Nobody has the order yet. */
  predicate Takeable(ewm: Ewm, id: Ident) {
    id in ewm && ewm[id] in {Open, InProcess}
  }

  predicate Made(res: Reservation, ewm: Ewm, faults: CallbackFaults, i: nat) {
    Due(res, i) && FaultAt(faults.assign, i) in {Fine, AnswerLost} && Takeable(ewm, res.assignments[i].id)
  }

  predicate Confirmed(res: Reservation, ewm: Ewm, faults: CallbackFaults, i: nat) {
    Made(res, ewm, faults, i) && FaultAt(faults.assign, i) == Fine
  }

  /**
   * The callback has to be repeated: EWM could not be reached, its answer got lost, it refused for
   * now, or the order could not be sent to its robot. A decline for good is no reason.
   */
  predicate Troubles(res: Reservation, ewm: Ewm, faults: CallbackFaults, i: nat) {
    Due(res, i) && (FaultAt(faults.assign, i) in {Lost, AnswerLost, Refused}
                    || (Confirmed(res, ewm, faults, i) && FaultAt(faults.send, i) != Fine))
  }

  /** The orders that were delivered before or by the first n assignments. */
  ghost function Gone(res: Reservation, ewm: Ewm, faults: CallbackFaults, n: nat): set<Ident> {
    set j | 0 <= j < n && j < |res.assignments|
            && (res.assignments[j] in res.delivered || Confirmed(res, ewm, faults, j)) :: res.assignments[j].id
  }

  ghost function Keep(ids: seq<Ident>, gone: set<Ident>): (r: seq<Ident>)
    ensures forall id :: id in r <==> id in ids && id !in gone
  {
    if ids == [] then [] else
      assert ids == [ids[0]] + ids[1..];
      (if ids[0] in gone then [] else [ids[0]]) + Keep(ids[1..], gone)
  }

  lemma {:induction false} KeepAll(ids: seq<Ident>)
    ensures Keep(ids, {}) == ids
  {
    if ids != [] {
      KeepAll(ids[1..]);
    }
  }

  lemma {:induction false} KeepSame(ids: seq<Ident>, gone: set<Ident>, id: Ident)
    ensures id !in ids ==> Keep(ids, gone + {id}) == Keep(ids, gone)
  {
    if ids != [] {
      KeepSame(ids[1..], gone, id);
    }
  }

  lemma RemoveFrom(head: Ident, s: seq<Ident>, id: Ident)
    ensures RemoveFirst([head] + s, id) == if head == id then s else [head] + RemoveFirst(s, id)
  {
    assert ([head] + s)[1..] == s;
  }

  lemma RestDiffers(ids: seq<Ident>)
    requires NoDuplicates(ids) && ids != []
    ensures NoDuplicates(ids[1..]) && ids[0] !in ids[1..]
  {
    forall i, j | 0 <= i < j < |ids[1..]| ensures ids[1..][i] != ids[1..][j] {
      assert ids[i + 1] != ids[j + 1];
    }
  }

  lemma {:induction false} KeepRemoves(ids: seq<Ident>, gone: set<Ident>, id: Ident)
    requires NoDuplicates(ids) && id in ids && id !in gone
    ensures RemoveFirst(Keep(ids, gone), id) == Keep(ids, gone + {id})
  {
    RestDiffers(ids);
    var head, rest := ids[0], ids[1..];
    KeepHead(ids, gone);
    KeepHead(ids, gone + {id});
    RemoveFrom(head, Keep(rest, gone), id);
    if head == id {
      KeepSame(rest, gone, id);
    } else {
      assert ids == [head] + rest;
      KeepRemoves(rest, gone, id);
    }
  }

  lemma KeepHead(ids: seq<Ident>, gone: set<Ident>)
    requires ids != []
    ensures Keep(ids, gone) == if ids[0] in gone then Keep(ids[1..], gone) else [ids[0]] + Keep(ids[1..], gone)
  {
  }

  /** The state of the assignment loop after n assignments. */
  ghost predicate LoopAt(res: Reservation, ewm: Ewm, faults: CallbackFaults, n: nat, w: Work) {
    && w.reserved == Keep(Idents(res.whos), Gone(res, ewm, faults, n))
    && (w.retry <==> exists j :: 0 <= j < n && Troubles(res, ewm, faults, j))
    && DeliveredAt(res, ewm, faults, n, w.delivered) && AssignedAt(res, ewm, faults, n, w.ewm)
  }

  /** The deliveries are those from before and the confirmed ones among the first n assignments. */
  ghost predicate DeliveredAt(res: Reservation, ewm: Ewm, faults: CallbackFaults, n: nat,
                              delivered: seq<OrderAssignment>)
  {
    forall a :: a in delivered <==>
        a in res.delivered || exists j :: 0 <= j < n && Confirmed(res, ewm, faults, j) && res.assignments[j] == a
  }

  /** In EWM exactly the orders of those of the first n assignments that were made changed, to their robots. */
  ghost predicate AssignedAt(res: Reservation, ewm: Ewm, faults: CallbackFaults, n: nat, after: Ewm) {
    && (forall j :: 0 <= j < n && Made(res, ewm, faults, j) ==> Holds(after, res.assignments[j]))
    && (forall id :: SameAt(after, ewm, id)
                     || exists j :: 0 <= j < n && Made(res, ewm, faults, j) && res.assignments[j].id == id)
  }

  lemma GoneNext(res: Reservation, ewm: Ewm, faults: CallbackFaults, n: nat)
    requires n < |res.assignments|
    ensures var a := res.assignments[n];
      Gone(res, ewm, faults, n + 1) ==
      Gone(res, ewm, faults, n)
      + if a in res.delivered || Confirmed(res, ewm, faults, n) then {a.id} else {}
  {
  }

  lemma LoopStarts(res: Reservation, ewm: Ewm, running: map<Ident, Robot>, faults: CallbackFaults)
    ensures LoopAt(res, ewm, faults, 0, Work(ewm, running, Idents(res.whos), res.delivered, false))
  {
    assert Gone(res, ewm, faults, 0) == {};
    KeepAll(Idents(res.whos));
  }

  /** Assignment n finds its order as it was: no other assignment concerns it. */
  lemma OrderUntouched(res: Reservation, ewm: Ewm, faults: CallbackFaults, n: nat, w: Work)
    requires Consistent(res) && n < |res.assignments| && LoopAt(res, ewm, faults, n, w)
    ensures Untouched(res, ewm, n, w)
    ensures var a := res.assignments[n];
      (a.id in Idents(res.whos) <==> Listed(res, a.id)) && a.id !in Gone(res, ewm, faults, n)
  {
    var a, ids := res.assignments[n], Idents(res.whos);
    assert a.id in ids <==> Listed(res, a.id) by {
      if Listed(res, a.id) {
        var i :| 0 <= i < |res.whos| && res.whos[i].id == a.id;
        assert ids[i] == a.id;
      }
    }
    assert a.id !in Gone(res, ewm, faults, n);
  }

  /** The loop finds the order of assignment n as it was. */
  ghost predicate Untouched(res: Reservation, ewm: Ewm, n: nat, w: Work)
    requires n < |res.assignments|
  {
    var a := res.assignments[n];
    && (a.id in w.reserved <==> Listed(res, a.id)) && (a in w.delivered <==> a in res.delivered)
    && SameAt(w.ewm, ewm, a.id)
  }

  /** What assignment n changes. */
  lemma NextDelivered(res: Reservation, ewm: Ewm, faults: CallbackFaults, n: nat, w: Work, v: Work)
    requires n < |res.assignments| && Untouched(res, ewm, n, w)
    requires v == AssignStep(w, res.assignments[n], FaultAt(faults.assign, n), FaultAt(faults.send, n))
    ensures v.retry == (w.retry || Troubles(res, ewm, faults, n))
    ensures v.delivered == w.delivered + if Confirmed(res, ewm, faults, n) then [res.assignments[n]] else []
    ensures v.ewm == if Made(res, ewm, faults, n)
                     then w.ewm[res.assignments[n].id := AssignedTo(res.assignments[n].rsrc)] else w.ewm
    ensures v.reserved == if Listed(res, res.assignments[n].id)
                             && (res.assignments[n] in res.delivered || Confirmed(res, ewm, faults, n))
                          then RemoveFirst(w.reserved, res.assignments[n].id) else w.reserved
    ensures v.running == if Confirmed(res, ewm, faults, n) && FaultAt(faults.send, n) == Fine
                         then Sent(v.ewm, w.running, res.assignments[n].rsrc) else w.running
  {
  }

  lemma NextReserved(res: Reservation, ewm: Ewm, faults: CallbackFaults, n: nat, reserved: seq<Ident>, v: Work)
    requires NoDuplicates(Idents(res.whos)) && n < |res.assignments|
    requires reserved == Keep(Idents(res.whos), Gone(res, ewm, faults, n))
    requires res.assignments[n].id in Idents(res.whos) <==> Listed(res, res.assignments[n].id)
    requires res.assignments[n].id !in Gone(res, ewm, faults, n)
    requires v.reserved == if Listed(res, res.assignments[n].id)
                              && (res.assignments[n] in res.delivered || Confirmed(res, ewm, faults, n))
                           then RemoveFirst(reserved, res.assignments[n].id) else reserved
    ensures v.reserved == Keep(Idents(res.whos), Gone(res, ewm, faults, n + 1))
  {
    var a, gone := res.assignments[n], Gone(res, ewm, faults, n);
    GoneNext(res, ewm, faults, n);
    if a in res.delivered || Confirmed(res, ewm, faults, n) {
      if Listed(res, a.id) {
        KeepRemoves(Idents(res.whos), gone, a.id);
      } else {
        KeepSame(Idents(res.whos), gone, a.id);
      }
    } else {
      assert gone + {} == gone;
    }
  }

  lemma NextAssignedAt(res: Reservation, ewm: Ewm, faults: CallbackFaults, n: nat, e: Ewm, f: Ewm)
    requires Consistent(res) && n < |res.assignments| && AssignedAt(res, ewm, faults, n, e)
    requires f == if Made(res, ewm, faults, n) then e[res.assignments[n].id := AssignedTo(res.assignments[n].rsrc)]
                  else e
    ensures AssignedAt(res, ewm, faults, n + 1, f)
  {
    forall id
      ensures SameAt(f, ewm, id)
              || exists j :: 0 <= j < n + 1 && Made(res, ewm, faults, j) && res.assignments[j].id == id
    {
      if Made(res, ewm, faults, n) && id == res.assignments[n].id {
      } else if !SameAt(e, ewm, id) {
        var j :| 0 <= j < n && Made(res, ewm, faults, j) && res.assignments[j].id == id;
      }
    }
  }

  lemma NextDeliveredAt(res: Reservation, ewm: Ewm, faults: CallbackFaults, n: nat, before: seq<OrderAssignment>,
                        after: seq<OrderAssignment>)
    requires n < |res.assignments| && DeliveredAt(res, ewm, faults, n, before)
    requires after == before + if Confirmed(res, ewm, faults, n) then [res.assignments[n]] else []
    ensures DeliveredAt(res, ewm, faults, n + 1, after)
  {
  }

  lemma NextLoopAt(res: Reservation, ewm: Ewm, faults: CallbackFaults, n: nat, w: Work, v: Work)
    requires Consistent(res) && n < |res.assignments| && LoopAt(res, ewm, faults, n, w)
    requires v == AssignStep(w, res.assignments[n], FaultAt(faults.assign, n), FaultAt(faults.send, n))
    ensures LoopAt(res, ewm, faults, n + 1, v)
  {
    OrderUntouched(res, ewm, faults, n, w);
    NextDelivered(res, ewm, faults, n, w, v);
    NextReserved(res, ewm, faults, n, w.reserved, v);
    NextAssignedAt(res, ewm, faults, n, w.ewm, v.ewm);
    NextDeliveredAt(res, ewm, faults, n, w.delivered, v.delivered);
  }

  /** The loop did what it should up to every one of the first n assignments. */
  ghost predicate LoopHolds(res: Reservation, ewm: Ewm, trace: seq<Work>, faults: CallbackFaults, n: nat)
    requires n < |trace|
  {
    forall k :: 0 <= k <= n ==> LoopAt(res, ewm, faults, k, trace[k])
  }

  lemma TraceNext(res: Reservation, ewm: Ewm, trace: seq<Work>, faults: CallbackFaults, n: nat)
    requires Consistent(res) && n < |res.assignments| && Traces(trace, res.assignments, faults)
    requires LoopHolds(res, ewm, trace, faults, n)
    ensures LoopHolds(res, ewm, trace, faults, n + 1)
  {
    assert LoopAt(res, ewm, faults, n, trace[n]);
    NextLoopAt(res, ewm, faults, n, trace[n], trace[n + 1]);
  }

  lemma LoopEnds(res: Reservation, ewm: Ewm, trace: seq<Work>, faults: CallbackFaults, n: nat)
    requires Consistent(res) && n <= |res.assignments| && Traces(trace, res.assignments, faults)
    requires LoopAt(res, ewm, faults, 0, trace[0])
    ensures LoopHolds(res, ewm, trace, faults, n)
  {
    for k := 0 to n
      invariant LoopHolds(res, ewm, trace, faults, k)
    {
      TraceNext(res, ewm, trace, faults, k);
    }
  }

  /* ---------- Sending ---------- */

  predicate SentAt(res: Reservation, ewm: Ewm, faults: CallbackFaults, i: nat) {
    Confirmed(res, ewm, faults, i) && FaultAt(faults.send, i) == Fine
  }

  /** Both maps agree on the robot of the order. */
  predicate SameRobot(a: map<Ident, Robot>, b: map<Ident, Robot>, id: Ident) {
    (id in a <==> id in b) && (id in a ==> a[id] == b[id])
  }

  /** The order runs on the robot of assignment j, which was sent its orders, and EWM assigned it to that robot. */
  ghost predicate RunsWith(res: Reservation, after: map<Ident, Robot>, e: Ewm, id: Ident, j: nat) {
    && j < |res.assignments| && Holds(e, OrderAssignment(id, res.assignments[j].rsrc))
    && id in after && after[id] == Lower(res.assignments[j].rsrc)
  }

  /** An order that was sent runs on its robot; nothing changes but for orders of robots that were sent something. */
  ghost predicate RunningAt(res: Reservation, ewm: Ewm, running: map<Ident, Robot>, faults: CallbackFaults, n: nat,
                            after: map<Ident, Robot>, e: Ewm)
  {
    && (forall j :: 0 <= j < n && SentAt(res, ewm, faults, j) ==> RunsWith(res, after, e, res.assignments[j].id, j))
    && (forall id :: SameRobot(after, running, id)
                     || exists j :: 0 <= j < n && SentAt(res, ewm, faults, j) && RunsWith(res, after, e, id, j))
  }

  /** Sending a robot its orders keeps what runs, on the same robots. */
  lemma SendingRuns(res: Reservation, before: map<Ident, Robot>, e: Ewm, id: Ident, j: nat, rsrc: string)
    requires RunsWith(res, before, e, id, j)
    ensures RunsWith(res, Sent(e, before, rsrc), e, id, j)
  {
  }

  /** An order with a robot stays with it when another order is assigned. */
  lemma AssigningRuns(res: Reservation, running: map<Ident, Robot>, e: Ewm, f: Ewm, id: Ident, j: nat, n: nat)
    requires RunsWith(res, running, e, id, j) && n < |res.assignments| && Takeable(e, res.assignments[n].id)
    requires f == e[res.assignments[n].id := AssignedTo(res.assignments[n].rsrc)]
    ensures RunsWith(res, running, f, id, j)
  {
  }

  lemma NextRunningAt(res: Reservation, ewm: Ewm, running: map<Ident, Robot>, faults: CallbackFaults, n: nat,
                      before: map<Ident, Robot>, e: Ewm, after: map<Ident, Robot>, f: Ewm)
    requires n < |res.assignments| && RunningAt(res, ewm, running, faults, n, before, e)
    requires SameAt(e, ewm, res.assignments[n].id)
    requires f == if Made(res, ewm, faults, n) then e[res.assignments[n].id := AssignedTo(res.assignments[n].rsrc)]
                  else e
    requires after == if SentAt(res, ewm, faults, n) then Sent(f, before, res.assignments[n].rsrc) else before
    ensures RunningAt(res, ewm, running, faults, n + 1, after, f)
  {
    forall id, j: nat | RunsWith(res, before, e, id, j) ensures RunsWith(res, after, f, id, j) {
      if Made(res, ewm, faults, n) {
        AssigningRuns(res, before, e, f, id, j, n);
      }
      SendingRuns(res, before, f, id, j, res.assignments[n].rsrc);
    }
    forall id
      ensures SameRobot(after, running, id)
              || exists j :: 0 <= j < n + 1 && SentAt(res, ewm, faults, j) && RunsWith(res, after, f, id, j)
    {
      if !SameRobot(after, before, id) {
        assert SentAt(res, ewm, faults, n) && RunsWith(res, after, f, id, n);
      } else if !SameRobot(before, running, id) {
        var j :| 0 <= j < n && SentAt(res, ewm, faults, j) && RunsWith(res, before, e, id, j);
        assert RunsWith(res, after, f, id, j);
      }
    }
  }

  /** What runs before assignment n is as the assignments before it demand. */
  ghost predicate RunningHolds(res: Reservation, ewm: Ewm, running: map<Ident, Robot>, trace: seq<Work>,
                               faults: CallbackFaults, n: nat)
  {
    forall w | n < |trace| && w == trace[n] :: RunningAt(res, ewm, running, faults, n, w.running, w.ewm)
  }

  lemma RunningEnds(res: Reservation, ewm: Ewm, running: map<Ident, Robot>, trace: seq<Work>, faults: CallbackFaults,
                    n: nat)
    requires Consistent(res) && n <= |res.assignments| && Traces(trace, res.assignments, faults)
    requires LoopAt(res, ewm, faults, 0, trace[0]) && trace[0].running == running
    ensures RunningHolds(res, ewm, running, trace, faults, n)
  {
    for k := 0 to n
      invariant RunningHolds(res, ewm, running, trace, faults, k)
    {
      LoopEnds(res, ewm, trace, faults, k);
      RunningNext(res, ewm, running, trace, faults, k);
    }
  }

  lemma RunningNext(res: Reservation, ewm: Ewm, running: map<Ident, Robot>, trace: seq<Work>, faults: CallbackFaults,
                    n: nat)
    requires Consistent(res) && n < |res.assignments| && Traces(trace, res.assignments, faults)
    requires LoopHolds(res, ewm, trace, faults, n) && RunningHolds(res, ewm, running, trace, faults, n)
    ensures RunningHolds(res, ewm, running, trace, faults, n + 1)
  {
    assert LoopAt(res, ewm, faults, n, trace[n]);
    NextRunning(res, ewm, running, faults, n, trace[n], trace[n + 1]);
  }

  lemma NextRunning(res: Reservation, ewm: Ewm, running: map<Ident, Robot>, faults: CallbackFaults, n: nat, w: Work,
                    v: Work)
    requires Consistent(res) && n < |res.assignments| && LoopAt(res, ewm, faults, n, w)
    requires RunningAt(res, ewm, running, faults, n, w.running, w.ewm)
    requires v == AssignStep(w, res.assignments[n], FaultAt(faults.assign, n), FaultAt(faults.send, n))
    ensures RunningAt(res, ewm, running, faults, n + 1, v.running, v.ewm)
  {
    OrderUntouched(res, ewm, faults, n, w);
    NextDelivered(res, ewm, faults, n, w, v);
    NextRunningAt(res, ewm, running, faults, n, w.running, w.ewm, v.running, v.ewm);
  }

  /* ---------- Handing back ---------- */

  lemma {:induction false} ReleaseFailedIff(ewm: Ewm, ids: seq<Ident>, faults: seq<Fault>, n: nat)
    requires n <= |ids|
    ensures ReleaseFailed(ewm, ids, faults, n) <==> exists j :: 0 <= j < n && FaultAt(faults, j) != Fine
  {
    if n > 0 {
      ReleaseFailedIff(ewm, ids, faults, n - 1);
    }
  }

  /** The call that hands back the order at position j reaches EWM, which still has it in process. */
  predicate TakenBack(ewm: Ewm, ids: seq<Ident>, faults: seq<Fault>, id: Ident, j: nat) {
    j < |ids| && ids[j] == id && FaultAt(faults, j) in {Fine, AnswerLost} && id in ewm && ewm[id] == InProcess
  }

  /** Exactly the orders that EWM takes back are open afterwards, the others as they were. */
  ghost predicate HandedBack(ewm: Ewm, ids: seq<Ident>, faults: seq<Fault>, after: Ewm) {
    forall id ::
      if exists j :: 0 <= j < |ids| && TakenBack(ewm, ids, faults, id, j) then id in after && after[id] == Open
      else SameAt(after, ewm, id)
  }

  lemma ReleaseHandsBack(ewm: Ewm, ids: seq<Ident>, faults: seq<Fault>)
    ensures HandedBack(ewm, ids, faults, ReleaseUpTo(ewm, ids, faults, |ids|))
  {
    var after := ReleaseUpTo(ewm, ids, faults, |ids|);
    ReleaseLoop(ewm, ids, faults, |ids|);
    forall id
      ensures if exists j :: 0 <= j < |ids| && TakenBack(ewm, ids, faults, id, j) then id in after && after[id] == Open
              else SameAt(after, ewm, id)
    {
      if id in ewm && ewm[id] == InProcess {
        ReleaseReached(ewm, ids, faults, |ids|, id);
        if exists j :: 0 <= j < |ids| && ids[j] == id && Reaches(FaultAt(faults, j)) {
          var j :| 0 <= j < |ids| && ids[j] == id && Reaches(FaultAt(faults, j));
          assert TakenBack(ewm, ids, faults, id, j);
        }
      }
    }
  }

  /* ---------- The result ---------- */

  /**
   * A callback on assigned orders. The reservation succeeds exactly when no assignment ran into
   * trouble and every call for handing back the rest worked. Deliveries are those that EWM
   * confirmed. Each order that EWM assigned is with its robot; the orders that are left are
   * handed back, but only without trouble; all other orders are as they were.
   */
  lemma CallbackResult(res: Reservation, ewm: Ewm, running: map<Ident, Robot>, now: int, faults: CallbackFaults,
                       o: Outcome)
    requires Consistent(res) && res.status == Reservations && res.assignments != []
    requires o == ProcessReservations(res, ewm, running, now, faults)
    ensures o.res == res.(delivered := o.res.delivered, status := o.res.status)
    ensures DeliveredAt(res, ewm, faults, |res.assignments|, o.res.delivered)
    ensures var troubled := exists i :: 0 <= i < |res.assignments| && Troubles(res, ewm, faults, i);
      var left := Keep(Idents(res.whos), Gone(res, ewm, faults, |res.assignments|));
      && o.res.status == (if !troubled && (forall j :: 0 <= j < |left| ==> FaultAt(faults.release, j) == Fine)
                          then Succeeded else Reservations)
      && exists e: Ewm, r: map<Ident, Robot> ::
           && AssignedAt(res, ewm, faults, |res.assignments|, e) && r == o.running
           && RunningAt(res, ewm, running, faults, |res.assignments|, r, e)
           && (if troubled then o.ewm == e else HandedBack(e, left, faults.release, o.ewm))
  {
    var n := |res.assignments|;
    var trace := TraceOf(res, ewm, running, faults);
    var w := trace[n];
    LoopStarts(res, ewm, running, faults);
    LoopEnds(res, ewm, trace, faults, n);
    assert LoopAt(res, ewm, faults, n, w);
    RunningEnds(res, ewm, running, trace, faults, n);
    ReleaseFailedIff(w.ewm, w.reserved, faults.release, |w.reserved|);
    ReleaseHandsBack(w.ewm, w.reserved, faults.release);
    assert AssignedAt(res, ewm, faults, n, w.ewm) && RunningAt(res, ewm, running, faults, n, o.running, w.ewm);
  }

  /** Without assignments, all orders are handed back once the reservation is over; until then nothing happens. */
  lemma TimeoutResult(res: Reservation, ewm: Ewm, running: map<Ident, Robot>, now: int, faults: CallbackFaults,
                      o: Outcome)
    requires res.status == Reservations && res.assignments == []
    requires o == ProcessReservations(res, ewm, running, now, faults)
    ensures o.running == running && o.res == res.(status := o.res.status)
    ensures o.res.status == if now > res.validUntil
                               && (forall j :: 0 <= j < |res.whos| ==> FaultAt(faults.release, j) == Fine)
                            then Timeout else Reservations
    ensures if now > res.validUntil then HandedBack(ewm, Idents(res.whos), faults.release, o.ewm) else o.ewm == ewm
  {
    ReleaseFailedIff(ewm, Idents(res.whos), faults.release, |res.whos|);
    ReleaseHandsBack(ewm, Idents(res.whos), faults.release);
  }

  /* ---------- Reserving ---------- */

  /** The orders at these positions, in increasing order, are kept. */
  ghost predicate Picks(whos: seq<WarehouseOrder>, kept: seq<WarehouseOrder>, origins: seq<nat>) {
    && |origins| == |kept| && (forall i, j :: 0 <= i < j < |origins| ==> origins[i] < origins[j])
    && forall i :: 0 <= i < |origins| ==> origins[i] < |whos| && whos[origins[i]] == kept[i]
  }

  /** Exactly the orders that nobody reserved are kept, in their order. */
  lemma {:induction false} UnreservedPicks(whos: seq<WarehouseOrder>, reserved: seq<Ident>) returns (origins: seq<nat>)
    ensures Picks(whos, Unreserved(whos, reserved), origins)
    ensures forall p: nat :: p in origins <==> p < |whos| && whos[p].id !in reserved
  {
    origins := [];
    if whos != [] {
      var init, last := whos[..|whos| - 1], whos[|whos| - 1];
      origins := UnreservedPicks(init, reserved);
      PicksNext(init, last, Unreserved(init, reserved), origins);
      assert whos == init + [last];
      if last.id !in reserved {
        origins := origins + [|init|];
      }
    }
  }

  lemma PicksNext(whos: seq<WarehouseOrder>, w: WarehouseOrder, kept: seq<WarehouseOrder>, origins: seq<nat>)
    requires Picks(whos, kept, origins)
    ensures Picks(whos + [w], kept, origins) && Picks(whos + [w], kept + [w], origins + [|whos|])
  {
  }

  /** A reservation in process lists the order. */
  predicate ReservedElsewhere(cache: seq<Reservation>, id: Ident) {
    exists i :: 0 <= i < |cache| && cache[i].status in {New, Accepted, Reservations} && Listed(cache[i], id)
  }

  /** EWM answered the first request with orders or with none. */
  predicate Answers(listing: Listing) {
    listing.Orders? || listing.NoOrders?
  }

  function OrdersIn(listing: Listing): seq<WarehouseOrder> {
    if listing.Orders? then listing.whos else []
  }

  /**
   * What a callback reserves for a request: all unreserved orders that were in process already,
   * and all further ones EWM hands out when those are fewer than requested. Without a usable
   * answer nothing changes; the request fails only when EWM refuses its resource type.
   */
  lemma ReserveResult(res: Reservation, existing: Listing, further: Listing, cache: seq<Reservation>, r: Reservation)
    returns (kept: seq<WarehouseOrder>, origins: seq<nat>)
    requires res.status in {Unset, New} && r == ProcessNew(res, existing, further, ReservedBy(cache))
    ensures Picks(OrdersIn(existing), kept, origins)
    ensures forall p: nat :: p in origins <==>
              p < |OrdersIn(existing)| && !ReservedElsewhere(cache, OrdersIn(existing)[p].id)
    ensures var asks := |kept| < res.quantity;
      var found := kept + if asks then OrdersIn(further) else [];
      r == if existing.NoRobotType? then res.(status := Failed)
           else if !Answers(existing) || (asks && (further.NoConnection? || further.ApiError?)) then res
           else if found != [] then res.(status := Accepted, whos := found)
           else res.(status := if asks && further.NoRobotType? then Failed else New)
  {
    var reserved := ReservedBy(cache);
    kept := Unreserved(OrdersIn(existing), reserved);
    origins := UnreservedPicks(OrdersIn(existing), reserved);
    forall p: nat | p < |OrdersIn(existing)|
      ensures p in origins <==> !ReservedElsewhere(cache, OrdersIn(existing)[p].id)
    {
      ReservedIs(cache, OrdersIn(existing)[p].id, reserved);
    }
    ReservesAll(res, existing, further, reserved, kept, r);
  }

  lemma ReservedIs(cache: seq<Reservation>, id: Ident, reserved: seq<Ident>)
    requires reserved == ReservedBy(cache)
    ensures id in reserved <==> ReservedElsewhere(cache, id)
  {
  }

  lemma ReservesAll(res: Reservation, existing: Listing, further: Listing, reserved: seq<Ident>,
                    kept: seq<WarehouseOrder>, r: Reservation)
    requires res.status in {Unset, New} && r == ProcessNew(res, existing, further, reserved)
    requires kept == Unreserved(OrdersIn(existing), reserved)
    ensures var asks := |kept| < res.quantity;
      var found := kept + if asks then OrdersIn(further) else [];
      r == if existing.NoRobotType? then res.(status := Failed)
           else if !Answers(existing) || (asks && (further.NoConnection? || further.ApiError?)) then res
           else if found != [] then res.(status := Accepted, whos := found)
           else res.(status := if asks && further.NoRobotType? then Failed else New)
  {
  }

  /**
   * Orders get the tasks EWM answers with, unless they have some; the reservation goes on exactly
   * when every order without tasks was answered.
   */
  lemma FetchResult(res: Reservation, answers: seq<Option<seq<string>>>, validUntil: int, r: Reservation)
    requires res.status == Accepted && |answers| == |res.whos| && r == ProcessAccepted(res, answers, validUntil)
    ensures r.status == Reservations <==>
            forall i :: 0 <= i < |res.whos| ==> res.whos[i].sources != [] || answers[i].Some?
    ensures r.status in {Accepted, Reservations} && r.validUntil == validUntil && |r.whos| == |res.whos|
    ensures r == res.(status := r.status, validUntil := validUntil, whos := r.whos)
    ensures forall i :: 0 <= i < |res.whos| ==>
              && r.whos[i].id == res.whos[i].id && r.whos[i].lsd == res.whos[i].lsd
              && (res.whos[i].sources != [] ==> r.whos[i].sources == res.whos[i].sources)
              && (res.whos[i].sources == [] && answers[i].Some? ==> r.whos[i].sources == answers[i].value)
              && (res.whos[i].sources == [] && answers[i].None? ==> r.whos[i].sources == [])
  {
  }
}
