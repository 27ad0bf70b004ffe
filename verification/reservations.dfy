/**
 * The order manager's work on OrderReservation resources: reserving orders in EWM, assigning
 * them to robots once the auctioneer decided, and handing back the rest.
 */
module ReservationManager {
  import opened Common
  import opened Warehouse

  /* ---------- EWM as seen through its order services ---------- */

  datatype OrderState = Open | InProcess | AssignedTo(rsrc: string) | Done

  /** An order that is not in the map is unknown to EWM. */
  type Ewm = map<Ident, OrderState>

  /**
   * What happens to a call: it works; the connection breaks before or after EWM did its part;
   * EWM refuses with an error that is worth another try; or it declines for good.
   */
  datatype Fault = Fine | Lost | AnswerLost | Refused | Declined

  datatype Answer = Ok | NotFound | CannotAssign | ConnectionError | OtherError

  /** The fault of call number i; calls beyond the end of the list work. */
  function FaultAt(faults: seq<Fault>, i: nat): Fault {
    if i < |faults| then faults[i] else Fine
  }

  predicate Reaches(f: Fault) {
    f == Fine || f == AnswerLost
  }

  predicate Assignable(ewm: Ewm, id: Ident) {
    id in ewm && (ewm[id] == Open || ewm[id] == InProcess)
  }

  function AfterAssign(ewm: Ewm, id: Ident, rsrc: string, f: Fault): Ewm {
    if Reaches(f) && Assignable(ewm, id) then ewm[id := AssignedTo(rsrc)] else ewm
  }

  function AssignAnswer(ewm: Ewm, id: Ident, f: Fault): Answer {
    match f
    case Lost => ConnectionError
    case AnswerLost => ConnectionError
    case Refused => OtherError
    case Declined => CannotAssign
    case Fine => if Assignable(ewm, id) then Ok else if id !in ewm || ewm[id] == Done then NotFound else CannotAssign
  }

  /** Only an order in process without a resource goes back to open; other orders are left alone. */
  function Released(ewm: Ewm, id: Ident): Ewm {
    if id in ewm && ewm[id] == InProcess then ewm[id := Open] else ewm
  }

  function AfterRelease(ewm: Ewm, id: Ident, f: Fault): Ewm {
    if Reaches(f) then Released(ewm, id) else ewm
  }

  function ReleaseAnswer(ewm: Ewm, id: Ident, f: Fault): Answer {
    match f
    case Lost => ConnectionError
    case AnswerLost => ConnectionError
    case Refused => OtherError
    case Declined => OtherError
    case Fine => if id in ewm then Ok else NotFound
  }

  /**
   * Sending a robot its orders creates or renews the resource of every order EWM has assigned to
   * it. `running` maps the orders with a running resource to the robot it is labeled with.
   */
  function Sent(ewm: Ewm, running: map<Ident, Robot>, rsrc: string): map<Ident, Robot> {
    running + map id | id in ewm && ewm[id] == AssignedTo(rsrc) :: Lower(rsrc)
  }

  datatype CallbackFaults = CallbackFaults(assign: seq<Fault>, send: seq<Fault>, release: seq<Fault>)

  /* ---------- Assigning the winners ---------- */

  /** The local variables of the assignment loop together with what it changes outside. */
  datatype Work = Work(ewm: Ewm, running: map<Ident, Robot>, reserved: seq<Ident>,
                       delivered: seq<OrderAssignment>, retry: bool)

  function RemoveFirst(s: seq<Ident>, id: Ident): (r: seq<Ident>)
    ensures forall x :: x != id ==> (x in r <==> x in s)
    ensures forall x :: x in r ==> x in s
    ensures |r| <= |s|
  {
    if s == [] then [] else if s[0] == id then s[1..] else
      var r := RemoveFirst(s[1..], id);
      assert s == [s[0]] + s[1..];
      [s[0]] + r
  }

  function AssignStep(w: Work, a: OrderAssignment, assignFault: Fault, sendFault: Fault): Work {
    if a.id !in w.reserved then w
    else if a in w.delivered then w.(reserved := RemoveFirst(w.reserved, a.id))
    else
      var ewm := AfterAssign(w.ewm, a.id, a.rsrc, assignFault);
      match AssignAnswer(w.ewm, a.id, assignFault)
      case Ok =>
        Work(ewm, if sendFault == Fine then Sent(ewm, w.running, a.rsrc) else w.running,
             RemoveFirst(w.reserved, a.id), w.delivered + [a], w.retry || sendFault != Fine)
      case ConnectionError => w.(ewm := ewm, retry := true)
      case OtherError => w.(ewm := ewm, retry := true)
      case NotFound => w.(ewm := ewm)
      case CannotAssign => w.(ewm := ewm)
  }

  /** The state of the loop after the first i assignments. */
  function AssignUpTo(w: Work, todo: seq<OrderAssignment>, faults: CallbackFaults, i: nat): Work
    requires i <= |todo|
  {
    if i == 0 then w
    else AssignStep(AssignUpTo(w, todo, faults, i - 1), todo[i - 1],
                    FaultAt(faults.assign, i - 1), FaultAt(faults.send, i - 1))
  }

  /** The assignment is made in EWM by this callback. */
  predicate Assigns(w: Work, a: OrderAssignment, f: Fault) {
    a.id in w.reserved && a !in w.delivered && Reaches(f) && Assignable(w.ewm, a.id)
  }

  /** The local variables before and after each assignment. */
  function Trace(w: Work, todo: seq<OrderAssignment>, faults: CallbackFaults): (trace: seq<Work>)
    ensures Traces(trace, todo, faults) && trace[0] == w && trace[|todo|] == AssignUpTo(w, todo, faults, |todo|)
  {
    seq(|todo| + 1, i requires 0 <= i <= |todo| => AssignUpTo(w, todo, faults, i))
  }

  ghost predicate Traces(trace: seq<Work>, todo: seq<OrderAssignment>, faults: CallbackFaults) {
    && |trace| == |todo| + 1
    && forall i :: 0 <= i < |todo| ==>
         trace[i + 1] == AssignStep(trace[i], todo[i], FaultAt(faults.assign, i), FaultAt(faults.send, i))
  }

  /** Step j of the loop makes its assignment in EWM. */
  predicate AssignsAt(trace: seq<Work>, todo: seq<OrderAssignment>, faults: CallbackFaults, j: nat) {
    j < |todo| && j < |trace| && Assigns(trace[j], todo[j], FaultAt(faults.assign, j))
  }

  /** The assignment loop of a callback. */
  function TraceOf(res: Reservation, ewm: Ewm, running: map<Ident, Robot>, faults: CallbackFaults): seq<Work> {
    Trace(Work(ewm, running, Idents(res.whos), res.delivered, false), res.assignments, faults)
  }

  /* ---------- Handing back orders ---------- */

  function ReleaseUpTo(ewm: Ewm, ids: seq<Ident>, faults: seq<Fault>, i: nat): Ewm
    requires i <= |ids|
  {
    if i == 0 then ewm
    else AfterRelease(ReleaseUpTo(ewm, ids, faults, i - 1), ids[i - 1], FaultAt(faults, i - 1))
  }

  function ReleaseFailed(ewm: Ewm, ids: seq<Ident>, faults: seq<Fault>, i: nat): bool
    requires i <= |ids|
  {
    i > 0 && (ReleaseFailed(ewm, ids, faults, i - 1)
              || ReleaseAnswer(ReleaseUpTo(ewm, ids, faults, i - 1), ids[i - 1], FaultAt(faults, i - 1))
                 in {ConnectionError, OtherError})
  }

  function Idents(whos: seq<WarehouseOrder>): (r: seq<Ident>)
    ensures |r| == |whos| && forall i :: 0 <= i < |whos| ==> r[i] == whos[i].id
  {
    seq(|whos|, i requires 0 <= i < |whos| => whos[i].id)
  }

  /* ---------- One callback on a reservation in status RESERVATIONS ---------- */

  datatype Outcome = Outcome(res: Reservation, ewm: Ewm, running: map<Ident, Robot>)

  function ProcessReservations(res: Reservation, ewm: Ewm, running: map<Ident, Robot>, now: int,
                               faults: CallbackFaults): Outcome
    requires res.status == Reservations
  {
    if res.assignments != [] then
      var w := AssignUpTo(Work(ewm, running, Idents(res.whos), res.delivered, false), res.assignments, faults,
                          |res.assignments|);
      var release := w.reserved != [] && !w.retry;
      var ewm' := if release then ReleaseUpTo(w.ewm, w.reserved, faults.release, |w.reserved|) else w.ewm;
      var retry := w.retry || (release && ReleaseFailed(w.ewm, w.reserved, faults.release, |w.reserved|));
      Outcome(res.(delivered := w.delivered, status := if retry then Reservations else Succeeded), ewm', w.running)
    else if res.validUntil < now then
      var ids := Idents(res.whos);
      var retry := ReleaseFailed(ewm, ids, faults.release, |ids|);
      var ewm' := ReleaseUpTo(ewm, ids, faults.release, |ids|);
      Outcome(res.(status := if retry then Reservations else Timeout), ewm', running)
    else
      Outcome(res, ewm, running)
  }

  /** The order manager: its view of EWM and of the warehouse order resources sent to robots. */
  class OrderManager {
    var ewm: Ewm
    var running: map<Ident, Robot>

    constructor (ewm: Ewm, running: map<Ident, Robot>)
      ensures this.ewm == ewm && this.running == running
    {
      this.ewm := ewm;
      this.running := running;
    }

    method AssignRobotWarehouseOrder(id: Ident, rsrc: string, f: Fault) returns (answer: Answer)
      modifies this`ewm
      ensures ewm == AfterAssign(old(ewm), id, rsrc, f) && answer == AssignAnswer(old(ewm), id, f)
    {
      answer := AssignAnswer(ewm, id, f);
      ewm := AfterAssign(ewm, id, rsrc, f);
    }

    method UnsetWarehouseOrderInProcess(id: Ident, f: Fault) returns (answer: Answer)
      modifies this`ewm
      ensures ewm == AfterRelease(old(ewm), id, f) && answer == ReleaseAnswer(old(ewm), id, f)
    {
      answer := ReleaseAnswer(ewm, id, f);
      ewm := AfterRelease(ewm, id, f);
    }

    /** Hands back every listed order; connection trouble with one does not stop the others. */
    method ReleaseAll(ids: seq<Ident>, faults: seq<Fault>) returns (retry: bool)
      modifies this`ewm
      ensures ewm == ReleaseUpTo(old(ewm), ids, faults, |ids|)
      ensures retry == ReleaseFailed(old(ewm), ids, faults, |ids|)
    {
      retry := false;
      for i := 0 to |ids|
        invariant ewm == ReleaseUpTo(old(ewm), ids, faults, i)
        invariant retry == ReleaseFailed(old(ewm), ids, faults, i)
      {
        var answer := UnsetWarehouseOrderInProcess(ids[i], FaultAt(faults, i));
        if answer in {ConnectionError, OtherError} {
          retry := true;
        }
      }
    }

    method Process(res: Reservation, now: int, faults: CallbackFaults) returns (updated: Reservation)
      requires res.status == Reservations
      modifies this
      ensures Outcome(updated, ewm, running) == ProcessReservations(res, old(ewm), old(running), now, faults)
    {
      updated := res;
      if res.assignments != [] {
        var reserved, retry := Idents(res.whos), false;
        ghost var start := Work(ewm, running, reserved, res.delivered, false);
        for i := 0 to |res.assignments|
          invariant Work(ewm, running, reserved, updated.delivered, retry) ==
                    AssignUpTo(start, res.assignments, faults, i)
          invariant updated == res.(delivered := updated.delivered)
        {
          var a := res.assignments[i];
          if a.id !in reserved {
            continue;
          }
          if a in updated.delivered {
            reserved := RemoveFirst(reserved, a.id);
            continue;
          }
          var answer := AssignRobotWarehouseOrder(a.id, a.rsrc, FaultAt(faults.assign, i));
          if answer == ConnectionError || answer == OtherError {
            retry := true;
          } else if answer == Ok {
            reserved := RemoveFirst(reserved, a.id);
            updated := updated.(delivered := updated.delivered + [a]);
            if FaultAt(faults.send, i) == Fine {
              running := Sent(ewm, running, a.rsrc);
            } else {
              retry := true;
            }
          }
        }
        if reserved != [] && !retry {
          retry := ReleaseAll(reserved, faults.release);
        }
        if !retry {
          updated := updated.(status := Succeeded);
        }
      } else if res.validUntil < now {
        var retry := ReleaseAll(Idents(res.whos), faults.release);
        if !retry {
          updated := updated.(status := Timeout);
        }
      }
    }
  }

  /* ---------- Nothing reserved gets lost ---------- */

  predicate IsDelivered(delivered: seq<OrderAssignment>, id: Ident) {
    exists a :: a in delivered && a.id == id
  }

  /** Both maps agree on the order. */
  predicate SameAt(e: Ewm, f: Ewm, id: Ident) {
    (id in e <==> id in f) && (id in e ==> e[id] == f[id])
  }

  /**
   * What the assignment loop keeps, whatever goes wrong: deliveries are only added; an order
   * leaves the list of reserved ones only by being delivered; until the first connection
   * trouble only delivered orders changed in EWM; and a delivered order belongs to its robot.
   */
  ghost predicate LoopFacts(w: Work, v: Work) {
    && w.delivered <= v.delivered
    && (forall id :: id in w.reserved ==> id in v.reserved || IsDelivered(v.delivered, id))
    && (forall id :: id in v.reserved ==> id in w.reserved)
    && (!v.retry ==> forall id :: !IsDelivered(v.delivered, id) ==> SameAt(w.ewm, v.ewm, id))
    && (forall k :: |w.delivered| <= k < |v.delivered| ==> Holds(v.ewm, v.delivered[k]))
    && (forall id :: id in v.ewm && v.ewm[id].Open? ==> id in w.ewm && w.ewm[id].Open?)
  }

  predicate Holds(ewm: Ewm, a: OrderAssignment) {
    a.id in ewm && ewm[a.id] == AssignedTo(a.rsrc)
  }

  lemma {:induction false} AssignLoop(w: Work, todo: seq<OrderAssignment>, faults: CallbackFaults, i: nat)
    requires i <= |todo|
    ensures LoopFacts(w, AssignUpTo(w, todo, faults, i))
    ensures forall a :: a in AssignUpTo(w, todo, faults, i).delivered ==> a in w.delivered || a in todo
  {
    if i > 0 {
      AssignLoop(w, todo, faults, i - 1);
      AssignStepKeeps(w, AssignUpTo(w, todo, faults, i - 1), todo[i - 1], FaultAt(faults.assign, i - 1),
                      FaultAt(faults.send, i - 1));
    }
  }

  lemma AssignStepKeeps(w: Work, v: Work, a: OrderAssignment, f: Fault, g: Fault)
    requires LoopFacts(w, v)
    ensures LoopFacts(w, AssignStep(v, a, f, g))
  {
    if a.id in v.reserved && a !in v.delivered && AssignAnswer(v.ewm, a.id, f) == Ok {
      DeliveryKeeps(w, v, a, f, g);
    } else if a.id in v.reserved && a in v.delivered {
      assert IsDelivered(v.delivered, a.id);
    }
  }

  lemma DeliveryKeeps(w: Work, v: Work, a: OrderAssignment, f: Fault, g: Fault)
    requires LoopFacts(w, v)
    requires a.id in v.reserved && a !in v.delivered && AssignAnswer(v.ewm, a.id, f) == Ok
    ensures LoopFacts(w, AssignStep(v, a, f, g))
  {
    var u := AssignStep(v, a, f, g);
    assert u.delivered == v.delivered + [a];
    forall id ensures IsDelivered(u.delivered, id) <==> IsDelivered(v.delivered, id) || id == a.id {
      DeliveredAppend(v.delivered, a, id);
    }
  }

  lemma DeliveredAppend(delivered: seq<OrderAssignment>, a: OrderAssignment, id: Ident)
    ensures IsDelivered(delivered + [a], id) <==> IsDelivered(delivered, id) || id == a.id
  {
  }

  lemma {:induction false} ReleaseLoop(ewm: Ewm, ids: seq<Ident>, faults: seq<Fault>, i: nat)
    requires i <= |ids|
    ensures var e := ReleaseUpTo(ewm, ids, faults, i);
      && (forall id :: SameAt(e, ewm, id) || (id in ids[..i] && SameAt(e, Released(ewm, id), id)))
      && (!ReleaseFailed(ewm, ids, faults, i) ==> forall id :: id in ids[..i] ==> SameAt(e, Released(ewm, id), id))
  {
    if i > 0 {
      ReleaseLoop(ewm, ids, faults, i - 1);
      assert ids[..i] == ids[..i - 1] + [ids[i - 1]];
    }
  }

  /**
   * When a reservation succeeds, every reserved order was delivered to a robot or was handed
   * back just now if EWM still had it in process; when it times out, all of them were. This
   * holds whatever calls failed before and however often the callback was repeated.
   */
  lemma NothingReservedIsLost(res: Reservation, ewm: Ewm, running: map<Ident, Robot>, now: int, faults: CallbackFaults)
    requires res.status == Reservations
    ensures var o := ProcessReservations(res, ewm, running, now, faults);
      && o.res.status in {Reservations, Succeeded, Timeout}
      && (o.res.status == Succeeded ==> res.assignments != [])
      && (o.res.status == Succeeded ==> forall w :: w in res.whos ==>
            IsDelivered(o.res.delivered, w.id) || SameAt(o.ewm, Released(ewm, w.id), w.id))
      && (o.res.status == Timeout ==> res.assignments == [] && res.validUntil < now)
      && (o.res.status == Timeout ==> forall w :: w in res.whos ==> SameAt(o.ewm, Released(ewm, w.id), w.id))
  {
    var o := ProcessReservations(res, ewm, running, now, faults);
    var ids := Idents(res.whos);
    if res.assignments != [] && o.res.status == Succeeded {
      var start := Work(ewm, running, ids, res.delivered, false);
      var w := AssignUpTo(start, res.assignments, faults, |res.assignments|);
      AssignLoop(start, res.assignments, faults, |res.assignments|);
      ReleaseLoop(w.ewm, w.reserved, faults.release, |w.reserved|);
      assert w.reserved[..|w.reserved|] == w.reserved;
      forall who | who in res.whos && !IsDelivered(o.res.delivered, who.id)
        ensures SameAt(o.ewm, Released(ewm, who.id), who.id)
      {
        var i :| 0 <= i < |res.whos| && res.whos[i] == who;
        assert ids[i] in ids;
      }
    } else if res.assignments == [] {
      ReleaseLoop(ewm, ids, faults.release, |ids|);
      assert ids[..|ids|] == ids;
      forall who | who in res.whos ensures who.id in ids {
        var i :| 0 <= i < |res.whos| && res.whos[i] == who;
        assert ids[i] in ids;
      }
    }
  }

  /** Retries only add deliveries, each taken from the auctioneer's assignments; new ones are in force in EWM. */
  lemma DeliveriesOnlyGrow(res: Reservation, ewm: Ewm, running: map<Ident, Robot>, now: int, faults: CallbackFaults)
    requires res.status == Reservations
    ensures var o := ProcessReservations(res, ewm, running, now, faults);
      && res.delivered <= o.res.delivered
      && (forall a :: a in o.res.delivered ==> a in res.delivered || a in res.assignments)
      && (forall k :: |res.delivered| <= k < |o.res.delivered| ==> Holds(o.ewm, o.res.delivered[k]))
  {
    if res.assignments != [] {
      var start := Work(ewm, running, Idents(res.whos), res.delivered, false);
      var w := AssignUpTo(start, res.assignments, faults, |res.assignments|);
      AssignLoop(start, res.assignments, faults, |res.assignments|);
      ReleaseLoop(w.ewm, w.reserved, faults.release, |w.reserved|);
      var o := ProcessReservations(res, ewm, running, now, faults);
      forall k | |res.delivered| <= k < |o.res.delivered| ensures Holds(o.ewm, o.res.delivered[k]) {
        assert Holds(w.ewm, w.delivered[k]);
        assert SameAt(o.ewm, w.ewm, o.res.delivered[k].id);
      }
    }
  }

  /* ---------- When a retry endangers exclusivity ---------- */

  predicate InProcessStatus(s: ReservationStatus) {
    s == New || s == Accepted || s == Reservations
  }

  /** The orders a reservation still has to deliver or to hand back. */
  function Held(res: Reservation): set<Ident> {
    if InProcessStatus(res.status) then
      set i | 0 <= i < |res.whos| && !IsDelivered(res.delivered, res.whos[i].id) :: res.whos[i].id
    else {}
  }

  /** No order held by the reservation is open to be reserved once more. */
  ghost predicate HeldNotOpen(res: Reservation, ewm: Ewm) {
    forall id :: id in Held(res) && id in ewm ==> ewm[id] != Open
  }

  /** The orders a callback tries to hand back; EWM and the deliveries at that moment. */
  datatype HandBack = HandBack(ids: seq<Ident>, ewm: Ewm, delivered: seq<OrderAssignment>)

  function ToRelease(res: Reservation, ewm: Ewm, running: map<Ident, Robot>, now: int, faults: CallbackFaults): HandBack
    requires res.status == Reservations
  {
    if res.assignments != [] then
      var w := AssignUpTo(Work(ewm, running, Idents(res.whos), res.delivered, false), res.assignments, faults,
                          |res.assignments|);
      HandBack(if w.retry then [] else w.reserved, w.ewm, w.delivered)
    else HandBack(if res.validUntil < now then Idents(res.whos) else [], ewm, res.delivered)
  }

  /** EWM takes back an order that is not among the deliveries. */
  predicate TakesBack(ids: seq<Ident>, ewm: Ewm, faults: seq<Fault>, delivered: seq<OrderAssignment>) {
    exists j :: 0 <= j < |ids| && Reaches(FaultAt(faults, j)) && ids[j] in ewm && ewm[ids[j]] == InProcess
                && !IsDelivered(delivered, ids[j])
  }

  /** One hand-back failed while another one took effect: the reservation keeps listing an open order. */
  predicate PartialRelease(res: Reservation, ewm: Ewm, running: map<Ident, Robot>, now: int, faults: CallbackFaults)
    requires res.status == Reservations
  {
    var HandBack(ids, e, delivered) := ToRelease(res, ewm, running, now, faults);
    ReleaseFailed(e, ids, faults.release, |ids|) && TakesBack(ids, e, faults.release, delivered)
  }

  /** A hand-back took effect; when the status cannot be written, the reservation keeps listing the order. */
  predicate AnyRelease(res: Reservation, ewm: Ewm, running: map<Ident, Robot>, now: int, faults: CallbackFaults)
    requires res.status == Reservations
  {
    var HandBack(ids, e, _) := ToRelease(res, ewm, running, now, faults);
    TakesBack(ids, e, faults.release, res.delivered)
  }

  /** The callback leaves an order open that its reservation, as it is stored afterwards, still holds. */
  predicate LeavesOpen(res: Reservation, ewm: Ewm, running: map<Ident, Robot>, now: int, faults: CallbackFaults,
                       written: bool)
    requires res.status == Reservations
  {
    if written then PartialRelease(res, ewm, running, now, faults) else AnyRelease(res, ewm, running, now, faults)
  }

  lemma {:induction false} ReleaseReached(ewm: Ewm, ids: seq<Ident>, faults: seq<Fault>, i: nat, id: Ident)
    requires i <= |ids| && id in ewm && ewm[id] == InProcess
    ensures id in ReleaseUpTo(ewm, ids, faults, i)
    ensures ReleaseUpTo(ewm, ids, faults, i)[id] in {Open, InProcess}
    ensures ReleaseUpTo(ewm, ids, faults, i)[id] == Open <==>
            exists j :: 0 <= j < i && ids[j] == id && Reaches(FaultAt(faults, j))
  {
    if i > 0 {
      ReleaseReached(ewm, ids, faults, i - 1, id);
    }
  }

  /** What the callback hands back, and what it does to the orders. */
  lemma CallbackFacts(res: Reservation, ewm: Ewm, running: map<Ident, Robot>, now: int, faults: CallbackFaults)
    requires res.status == Reservations
    ensures var o, r := ProcessReservations(res, ewm, running, now, faults), ToRelease(res, ewm, running, now, faults);
      && o.ewm == ReleaseUpTo(r.ewm, r.ids, faults.release, |r.ids|)
      && (ReleaseFailed(r.ewm, r.ids, faults.release, |r.ids|) ==> o.res.status == Reservations)
      && o.res.whos == res.whos && res.delivered <= o.res.delivered && o.res.delivered == r.delivered
    ensures var o, r := ProcessReservations(res, ewm, running, now, faults), ToRelease(res, ewm, running, now, faults);
      forall id :: id in o.ewm && o.ewm[id] == Open ==>
        (id in r.ewm && r.ewm[id] == Open) || (id in r.ids && id in r.ewm && r.ewm[id] == InProcess)
    ensures var e := ToRelease(res, ewm, running, now, faults).ewm;
      forall id :: id in e && e[id] == Open ==> id in ewm && ewm[id] == Open
    ensures forall id :: id in ToRelease(res, ewm, running, now, faults).ids ==> Reserved(res.whos, id)
  {
    var ids := Idents(res.whos);
    var start := Work(ewm, running, ids, res.delivered, false);
    AssignLoop(start, res.assignments, faults, |res.assignments|);
    var HandBack(rel, e, _) := ToRelease(res, ewm, running, now, faults);
    ReleaseLoop(e, rel, faults.release, |rel|);
    assert rel[..|rel|] == rel;
    var after := ReleaseUpTo(e, rel, faults.release, |rel|);
    forall id | id in after && after[id] == Open
      ensures (id in e && e[id] == Open) || (id in rel && id in e && e[id] == InProcess)
    {
      assert SameAt(after, e, id) || SameAt(after, Released(e, id), id);
    }
    forall id | id in rel ensures Reserved(res.whos, id) {
      assert id in ids;
      var i :| 0 <= i < |ids| && ids[i] == id;
    }
  }

  /**
   * A callback keeps the orders that its reservation holds from being open exactly when it is not
   * cut short between two hand-backs, or after one of them before the status is written.
   */
  lemma HeldStaysReservedIff(res: Reservation, ewm: Ewm, running: map<Ident, Robot>, now: int, faults: CallbackFaults,
                             written: bool)
    requires res.status == Reservations && HeldNotOpen(res, ewm)
    ensures var o := ProcessReservations(res, ewm, running, now, faults);
      HeldNotOpen(if written then o.res else res, o.ewm) <==> !LeavesOpen(res, ewm, running, now, faults, written)
  {
    var o := ProcessReservations(res, ewm, running, now, faults);
    CallbackFacts(res, ewm, running, now, faults);
    if written {
      WrittenStaysReservedIff(res, ewm, running, now, faults);
    } else {
      OpenIsTakenBack(res, ewm, running, now, faults, res.delivered);
    }
  }

  /** Of the orders that were not open, exactly those are open now that EWM took back. */
  lemma OpenIsTakenBack(res: Reservation, ewm: Ewm, running: map<Ident, Robot>, now: int, faults: CallbackFaults,
                        delivered: seq<OrderAssignment>)
    requires res.status == Reservations && HeldNotOpen(res, ewm) && res.delivered <= delivered
    ensures var o, r := ProcessReservations(res, ewm, running, now, faults), ToRelease(res, ewm, running, now, faults);
      HeldNotOpen(res.(delivered := delivered), o.ewm) <==> !TakesBack(r.ids, r.ewm, faults.release, delivered)
  {
    CallbackFacts(res, ewm, running, now, faults);
    var o := ProcessReservations(res, ewm, running, now, faults);
    var HandBack(rel, e, _) := ToRelease(res, ewm, running, now, faults);
    if TakesBack(rel, e, faults.release, delivered) {
      var j :| 0 <= j < |rel| && Reaches(FaultAt(faults.release, j)) && rel[j] in e && e[rel[j]] == InProcess
               && !IsDelivered(delivered, rel[j]);
      ReleaseReached(e, rel, faults.release, |rel|, rel[j]);
      assert Reserved(res.whos, rel[j]);
    } else {
      forall id | id in Held(res.(delivered := delivered)) && id in o.ewm ensures o.ewm[id] != Open {
        HeldShrinks(res, res.(delivered := delivered), id);
        if o.ewm[id] == Open {
          ReleaseReached(e, rel, faults.release, |rel|, id);
          assert false;
        }
      }
    }
  }

  lemma WrittenStaysReservedIff(res: Reservation, ewm: Ewm, running: map<Ident, Robot>, now: int,
                                faults: CallbackFaults)
    requires res.status == Reservations && HeldNotOpen(res, ewm)
    ensures var o := ProcessReservations(res, ewm, running, now, faults);
      HeldNotOpen(o.res, o.ewm) <==> !PartialRelease(res, ewm, running, now, faults)
  {
    CallbackFacts(res, ewm, running, now, faults);
    var o := ProcessReservations(res, ewm, running, now, faults);
    OpenIsTakenBack(res, ewm, running, now, faults, o.res.delivered);
    var HandBack(rel, e, _) := ToRelease(res, ewm, running, now, faults);
    if o.res.status == Reservations {
      assert Held(o.res) == Held(res.(delivered := o.res.delivered));
    }
  }

  /**
   * Such a callback exists: two orders in process, the time is over, the first one is handed
   * back and the connection breaks before the second one.
   */
  lemma PartialReleaseHappens(a: WarehouseOrder, b: WarehouseOrder, owner: string, scope: Scope, now: int)
    requires a.id != b.id
    ensures var res := Reservation(owner, 0, scope, 2, [], Reservations, now - 1, [a, b], []);
      var ewm, faults := map[a.id := InProcess, b.id := InProcess], CallbackFaults([], [], [Fine, Lost]);
      && HeldNotOpen(res, ewm) && PartialRelease(res, ewm, map[], now, faults)
      && ProcessReservations(res, ewm, map[], now, faults) == Outcome(res, ewm[a.id := Open], map[])
  {
    var ewm, ids, faults := map[a.id := InProcess, b.id := InProcess], [a.id, b.id], [Fine, Lost];
    assert Idents([a, b]) == ids;
    assert ReleaseUpTo(ewm, ids, faults, 1) == ewm[a.id := Open];
    assert ReleaseUpTo(ewm, ids, faults, 2) == ewm[a.id := Open];
    assert ReleaseFailed(ewm, ids, faults, 2);
  }

  /** Without any failing call, a status that cannot be written is enough. */
  lemma UnwrittenReleaseHappens(a: WarehouseOrder, owner: string, scope: Scope, now: int)
    ensures var res := Reservation(owner, 0, scope, 1, [], Reservations, now - 1, [a], []);
      var ewm, faults := map[a.id := InProcess], CallbackFaults([], [], []);
      && HeldNotOpen(res, ewm) && !LeavesOpen(res, ewm, map[], now, faults, true)
      && LeavesOpen(res, ewm, map[], now, faults, false)
      && ProcessReservations(res, ewm, map[], now, faults) == Outcome(res.(status := Timeout), map[a.id := Open], map[])
  {
    var ewm, ids := map[a.id := InProcess], [a.id];
    assert Idents([a]) == ids;
    assert ReleaseUpTo(ewm, ids, [], 1) == AfterRelease(ReleaseUpTo(ewm, ids, [], 0), a.id, Fine) == map[a.id := Open];
    assert !ReleaseFailed(ewm, ids, [], 0) && !ReleaseFailed(ewm, ids, [], 1);
    assert Reaches(FaultAt([], 0)) && ids[0] in ewm && ewm[ids[0]] == InProcess && !IsDelivered([], ids[0]);
  }

  lemma HeldShrinks(res: Reservation, later: Reservation, id: Ident)
    requires res.whos == later.whos && res.delivered <= later.delivered && InProcessStatus(res.status)
    requires id in Held(later)
    ensures id in Held(res)
  {
  }

  /* ---------- Reserving orders for a new request ---------- */

  /** How EWM answers a request for a list of orders. */
  datatype Listing = Orders(whos: seq<WarehouseOrder>) | NoOrders | NoRobotType | NoConnection | ApiError

  function Unreserved(whos: seq<WarehouseOrder>, reserved: seq<Ident>): (r: seq<WarehouseOrder>)
    ensures forall w :: w in r <==> w in whos && w.id !in reserved
  {
    if whos == [] then [] else
      var init, last := whos[..|whos| - 1], whos[|whos| - 1];
      assert whos == init + [last];
      Unreserved(init, reserved) + if last.id in reserved then [] else [last]
  }

  /** The orders listed by the reservations in process. */
  function ReservedBy(cache: seq<Reservation>): (r: seq<Ident>)
    ensures forall id :: id in r <==>
              exists i :: 0 <= i < |cache| && InProcessStatus(cache[i].status) && Reserved(cache[i].whos, id)
  {
    if cache == [] then [] else
      var init, last := cache[..|cache| - 1], cache[|cache| - 1];
      var r := ReservedBy(init);
      var s := if InProcessStatus(last.status) then Idents(last.whos) else [];
      assert forall id :: id in Idents(last.whos) <==> Reserved(last.whos, id) by {
        forall id | id in Idents(last.whos) ensures Reserved(last.whos, id) {
          var i :| 0 <= i < |last.whos| && Idents(last.whos)[i] == id;
        }
        forall id | Reserved(last.whos, id) ensures id in Idents(last.whos) {
          var i :| 0 <= i < |last.whos| && last.whos[i].id == id;
          assert Idents(last.whos)[i] == id;
        }
      }
      assert forall i :: 0 <= i < |init| ==> cache[i] == init[i];
      r + s
  }

  method GetReservedWarehouseOrders(cache: seq<Reservation>) returns (reserved: seq<Ident>)
    ensures reserved == ReservedBy(cache)
  {
    reserved := [];
    for i := 0 to |cache|
      invariant reserved == ReservedBy(cache[..i])
    {
      assert cache[..i + 1][..i] == cache[..i];
      if !InProcessStatus(cache[i].status) {
        continue;
      }
      ghost var before := reserved;
      for k := 0 to |cache[i].whos|
        invariant reserved == before + Idents(cache[i].whos)[..k]
      {
        reserved := reserved + [cache[i].whos[k].id];
      }
    }
    assert cache[..|cache|] == cache;
  }

  /**
   * A reservation without status counts as new. When EWM refuses the second request because of
   * the resource type, the status FAILED is overwritten if the first request found orders.
   */
  function ProcessNew(res: Reservation, existing: Listing, further: Listing, reserved: seq<Ident>): Reservation
    requires res.status == Unset || res.status == New
  {
    match existing
    case NoConnection => res
    case ApiError => res
    case NoRobotType => res.(status := Failed)
    case _ =>
      var kept := Unreserved(if existing.Orders? then existing.whos else [], reserved);
      if |kept| >= res.quantity || further.NoOrders? then WithOrders(res, kept, New)
      else if further.NoConnection? || further.ApiError? then res
      else if further.NoRobotType? then WithOrders(res, kept, Failed)
      else WithOrders(res, kept + further.whos, New)
  }

  /** The status FAILED is final for a callback only when no unreserved order was found before. */
  lemma FailedIff(res: Reservation, existing: Listing, further: Listing, reserved: seq<Ident>)
    requires res.status == Unset || res.status == New
    ensures var kept := Unreserved(if existing.Orders? then existing.whos else [], reserved);
      ProcessNew(res, existing, further, reserved).status == Failed <==>
      existing.NoRobotType?
      || ((existing.Orders? || existing.NoOrders?) && further.NoRobotType? && kept == [] && res.quantity > 0)
  {
  }

  /** Orders are found unreserved in process, or they were just taken. */
  lemma ReservesFound(res: Reservation, existing: Listing, further: Listing, reserved: seq<Ident>, w: WarehouseOrder)
    requires res.status in {Unset, New} && res.whos == [] && w in ProcessNew(res, existing, further, reserved).whos
    ensures (existing.Orders? && w in existing.whos && w.id !in reserved) || (further.Orders? && w in further.whos)
  {
  }

  function WithOrders(res: Reservation, whos: seq<WarehouseOrder>, otherwise: ReservationStatus): Reservation {
    if whos == [] then res.(status := otherwise) else res.(status := Accepted, whos := whos)
  }

  /** Use only the orders that no other auction reserved. */
  method KeepUnreserved(exist: seq<WarehouseOrder>, reserved: seq<Ident>) returns (whos: seq<WarehouseOrder>)
    ensures whos == Unreserved(exist, reserved)
  {
    whos := [];
    for i := 0 to |exist|
      invariant whos == Unreserved(exist[..i], reserved)
    {
      assert exist[..i + 1][..i] == exist[..i];
      if exist[i].id !in reserved {
        whos := whos + [exist[i]];
      }
    }
    assert exist[..|exist|] == exist;
  }

  method Reserve(res: Reservation, existing: Listing, further: Listing, cache: seq<Reservation>)
    returns (updated: Reservation)
    requires res.status == Unset || res.status == New
    ensures updated == ProcessNew(res, existing, further, ReservedBy(cache))
  {
    updated := res;
    var exist := [];
    match existing {
      case Orders(found) => exist := found;
      case NoOrders =>
      case NoRobotType =>
        updated := updated.(status := Failed);
        return;
      case NoConnection => return;
      case ApiError => return;
    }
    var reserved := GetReservedWarehouseOrders(cache);
    var whos := KeepUnreserved(exist, reserved);
    var status := New;
    if |whos| < res.quantity {
      match further {
        case Orders(found) => whos := whos + found;
        case NoOrders =>
        case NoRobotType => status := Failed;
        case NoConnection => return;
        case ApiError => return;
      }
    }
    if whos != [] {
      updated := updated.(status := Accepted, whos := whos);
    } else {
      updated := updated.(status := status);
    }
  }

  /* ---------- Fetching the open tasks of accepted orders ---------- */

  /** The order with its open tasks, or nothing when the call failed. */
  function Fetched(w: WarehouseOrder, answer: Option<seq<string>>): WarehouseOrder {
    if w.sources == [] && answer.Some? then w.(sources := answer.value) else w
  }

  function ProcessAccepted(res: Reservation, answers: seq<Option<seq<string>>>, validUntil: int): Reservation
    requires res.status == Accepted && |answers| == |res.whos|
  {
    res.(
      whos := seq(|res.whos|, i requires 0 <= i < |res.whos| => Fetched(res.whos[i], answers[i])),
      status := if exists i :: 0 <= i < |res.whos| && res.whos[i].sources == [] && answers[i].None?
                then Accepted else Reservations,
      validUntil := validUntil)
  }

  method FetchTasks(res: Reservation, answers: seq<Option<seq<string>>>, validUntil: int) returns (updated: Reservation)
    requires res.status == Accepted && |answers| == |res.whos|
    ensures updated == ProcessAccepted(res, answers, validUntil)
  {
    var whos, connectionError := res.whos, false;
    for i := 0 to |res.whos|
      invariant |whos| == |res.whos|
      invariant forall k :: 0 <= k < i ==> whos[k] == Fetched(res.whos[k], answers[k])
      invariant forall k :: i <= k < |whos| ==> whos[k] == res.whos[k]
      invariant connectionError <==> exists k :: 0 <= k < i && res.whos[k].sources == [] && answers[k].None?
    {
      if whos[i].sources == [] {
        match answers[i] {
          case Some(sources) => whos := whos[i := whos[i].(sources := sources)];
          case None => connectionError := true;
        }
      }
    }
    updated := res.(whos := whos, validUntil := validUntil,
                    status := if connectionError then Accepted else Reservations);
  }

  /** Fetching tasks never changes which orders are reserved. */
  lemma FetchingKeepsOrders(res: Reservation, answers: seq<Option<seq<string>>>, validUntil: int)
    requires res.status == Accepted && |answers| == |res.whos|
    ensures Idents(ProcessAccepted(res, answers, validUntil).whos) == Idents(res.whos)
  {
  }
}
