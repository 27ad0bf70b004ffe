/** What is kept of finished work: processed orders, processed confirmations and finished missions. */
module Retention {
  import opened Common

  /** Setting a key of an ordered dictionary: a known key keeps its place. */
  function Inserted(keys: seq<string>, k: string): (r: seq<string>)
    ensures forall x :: x in r <==> x in keys || x == k
  {
    if k in keys then keys else keys + [k]
  }

  /** Removing a key of an ordered dictionary. */
  function Popped(keys: seq<string>, k: string): (r: seq<string>)
    ensures |r| <= |keys| && forall x :: x in r <==> x in keys && x != k
  {
    if keys == [] then [] else
      var init, last := keys[..|keys| - 1], keys[|keys| - 1];
      assert keys == init + [last];
      Popped(init, k) + if last == k then [] else [last]
  }

  lemma {:induction false} PoppedOnce(keys: seq<string>, k: string)
    requires NoDuplicates(keys)
    ensures NoDuplicates(Popped(keys, k)) && |Popped(keys, k)| == |keys| - if k in keys then 1 else 0
  {
    if keys != [] {
      var init, last := keys[..|keys| - 1], keys[|keys| - 1];
      assert keys == init + [last];
      PoppedOnce(init, k);
      assert last !in init && last !in Popped(init, k);
    }
  }

  lemma {:induction false} PoppedNothing(keys: seq<string>, k: string)
    requires k !in keys
    ensures Popped(keys, k) == keys
  {
    if keys != [] {
      PoppedNothing(keys[..|keys| - 1], k);
    }
  }

  lemma {:induction false} PoppedAt(keys: seq<string>, i: nat)
    requires NoDuplicates(keys) && i < |keys|
    ensures Popped(keys, keys[i]) == keys[..i] + keys[i + 1..]
  {
    var init := keys[..|keys| - 1];
    if i == |keys| - 1 {
      PoppedNothing(init, keys[i]);
    } else {
      PoppedAt(init, i);
      assert init[..i] == keys[..i] && keys[i + 1..] == init[i + 1..] + [keys[|keys| - 1]];
    }
  }

  /* ---------- Processed orders ---------- */

  datatype OrderStatus = NoSpec | RunningOrder | ProcessedOrder | UnknownStatus

  const KEPT_ORDERS := 50

  const KEPT_DELETED := 500

  /** The keys entered last, at most `n` of them. */
  function Latest(keys: seq<string>, n: nat): (r: seq<string>)
    ensures |r| == (if |keys| <= n then |keys| else n) && r == keys[|keys| - |r|..]
  {
    if |keys| <= n then keys else keys[|keys| - n..]
  }

  class OrderController {
    var processedOrders: seq<string>
    var deletedOrders: seq<string>
    /** The order resources in the cluster. */
    var crs: set<string>

    constructor (crs: set<string>)
      ensures Valid() && processedOrders == [] && deletedOrders == [] && this.crs == crs
    {
      processedOrders, deletedOrders, this.crs := [], [], crs;
    }

    /** No order is both processed and deleted. */
    ghost predicate Valid()
      reads this
    {
      && NoDuplicates(processedOrders) && NoDuplicates(deletedOrders)
      && forall k :: k in processedOrders ==> k !in deletedOrders
    }

    /** Enters a processed order and deletes all but the latest fifty; the cluster may refuse a deletion. */
    method CleanupOrdersCb(name: string, status: OrderStatus, failing: set<string>) returns (completed: bool)
      requires Valid()
      modifies this
      ensures Valid() && crs <= old(crs)
      ensures status == RunningOrder ==>
                && processedOrders == Popped(old(processedOrders), name)
                && deletedOrders == Popped(old(deletedOrders), name) && crs == old(crs)
      ensures status == ProcessedOrder && name !in old(deletedOrders) && name !in old(processedOrders) && completed ==>
                && processedOrders == Latest(old(processedOrders) + [name], KEPT_ORDERS)
                && |deletedOrders| <= KEPT_DELETED
                && forall k :: k in old(processedOrders) + [name] && k !in processedOrders ==> k !in crs
      ensures status != RunningOrder
              && (status != ProcessedOrder || name in old(deletedOrders) || name in old(processedOrders)) ==>
                processedOrders == old(processedOrders) && deletedOrders == old(deletedOrders) && crs == old(crs)
    {
      completed := true;
      match status {
        case NoSpec => return;
        case UnknownStatus => return;
        case RunningOrder =>
          PoppedOnce(processedOrders, name);
          PoppedOnce(deletedOrders, name);
          processedOrders := Popped(processedOrders, name);
          deletedOrders := Popped(deletedOrders, name);
          return;
        case ProcessedOrder =>
          if name in deletedOrders || name in processedOrders {
            return;
          }
          processedOrders := processedOrders + [name];
          completed := DeleteExcess(failing);
          if completed {
            TrimDeleted();
          }
      }
    }

    /** Deletes one order unless the cluster refuses. */
    method DeleteOrder(order: string, failing: set<string>) returns (done: bool)
      requires Valid() && order in processedOrders
      modifies this
      ensures Valid() && crs <= old(crs)
      ensures done ==> processedOrders == Popped(old(processedOrders), order) && order !in crs
      ensures !done ==> processedOrders == old(processedOrders)
    {
      if order in crs {
        if order in failing {
          return false;
        }
        crs := crs - {order};
      }
      PoppedOnce(processedOrders, order);
      deletedOrders := Inserted(deletedOrders, order);
      processedOrders := Popped(processedOrders, order);
      done := true;
    }

    /** Deletes the orders beyond the latest fifty, the youngest of them first. */
    method DeleteExcess(failing: set<string>) returns (completed: bool)
      requires Valid()
      modifies this
      ensures Valid() && crs <= old(crs)
      ensures completed ==> processedOrders == Latest(old(processedOrders), KEPT_ORDERS)
      ensures completed ==> forall k :: k in old(processedOrders) && k !in processedOrders ==> k !in crs
    {
      ghost var all := processedOrders;
      var excess: nat := if |processedOrders| > KEPT_ORDERS then |processedOrders| - KEPT_ORDERS else 0;
      var toDelete := processedOrders[..excess];
      var i: nat := excess;
      assert all == all[..excess] + all[excess..];
      while i > 0
        invariant i <= excess <= |all| && toDelete == all[..excess]
        invariant Valid() && crs <= old(crs)
        invariant processedOrders == all[..i] + all[excess..]
        invariant forall k :: i <= k < excess ==> all[k] !in crs
      {
        i := i - 1;
        assert toDelete[i] == processedOrders[i];
        PoppedAt(processedOrders, i);
        assert processedOrders[..i] + processedOrders[i + 1..] == all[..i] + all[excess..];
        var done := DeleteOrder(toDelete[i], failing);
        if !done {
          return false;
        }
      }
      completed := true;
    }

    method TrimDeleted()
      requires Valid()
      modifies this`deletedOrders
      ensures Valid() && deletedOrders == Latest(old(deletedOrders), KEPT_DELETED)
    {
      while |deletedOrders| > KEPT_DELETED
        invariant Valid() && |deletedOrders| <= |old(deletedOrders)|
        invariant deletedOrders == old(deletedOrders)[|old(deletedOrders)| - |deletedOrders|..]
        invariant |deletedOrders| >= KEPT_DELETED || deletedOrders == old(deletedOrders)
      {
        deletedOrders := deletedOrders[1..];
      }
    }

    method OrderDeletedCb(name: string)
      requires Valid()
      modifies this`processedOrders, this`deletedOrders
      ensures Valid()
      ensures processedOrders == Popped(old(processedOrders), name)
      ensures deletedOrders == Inserted(old(deletedOrders), name)
    {
      PoppedOnce(processedOrders, name);
      deletedOrders := Inserted(deletedOrders, name);
      processedOrders := Popped(processedOrders, name);
    }

    /** Processed orders without resource count as deleted. */
    method CheckDeletedOrders()
      requires Valid()
      modifies this`processedOrders, this`deletedOrders
      ensures Valid() && |processedOrders| <= |old(processedOrders)|
      ensures forall k :: k in processedOrders <==> k in old(processedOrders) && k in crs
      ensures forall k :: k in deletedOrders <==> k in old(deletedOrders) || (k in old(processedOrders) && k !in crs)
    {
      var names := processedOrders;
      for i := 0 to |names|
        invariant Valid() && |processedOrders| <= |names|
        invariant forall k :: k in processedOrders <==> k in names && (k in crs || k !in names[..i])
        invariant forall k :: k in deletedOrders <==> k in old(deletedOrders) || (k in names[..i] && k !in crs)
      {
        if names[i] !in crs {
          OrderDeletedCb(names[i]);
        }
      }
    }
  }

  /* ---------- Memory of confirmations ---------- */

  class ProcessedMessageMemory<Conf(==)> {
    var whoConfirmations: map<string, seq<Conf>>
    var deletedWhos: seq<string>

    constructor ()
      ensures whoConfirmations == map[] && deletedWhos == []
    {
      whoConfirmations, deletedWhos := map[], [];
    }

    function Known(who: string): seq<Conf>
      reads this
    {
      if who in whoConfirmations then whoConfirmations[who] else []
    }

    method MemorizeWhoConf(who: string, conf: Conf)
      modifies this`whoConfirmations
      ensures Known(who) == old(Known(who)) + [conf] && forall w :: w != who ==> Known(w) == old(Known(w))
    {
      whoConfirmations := whoConfirmations[who := Known(who) + [conf]];
    }

    /** Deleted orders are forgotten only when five hundred others were deleted after them. */
    method DeleteWhoFromMemory(who: string)
      requires NoDuplicates(deletedWhos)
      modifies this
      ensures NoDuplicates(deletedWhos)
      ensures deletedWhos == Latest(Inserted(old(deletedWhos), who), KEPT_DELETED)
      ensures whoConfirmations ==
              old(whoConfirmations) - (Elements(Inserted(old(deletedWhos), who)) - Elements(deletedWhos))
    {
      deletedWhos := Inserted(deletedWhos, who);
      ghost var all := deletedWhos;
      var toRemove: nat := if |deletedWhos| > KEPT_DELETED then |deletedWhos| - KEPT_DELETED else 0;
      for i := 0 to toRemove
        invariant toRemove <= |all| && deletedWhos == all[i..]
        invariant whoConfirmations == old(whoConfirmations) - Elements(all[..i])
      {
        ElementsAppend(all[..i], all[i]);
        assert all[..i + 1] == all[..i] + [all[i]];
        whoConfirmations := whoConfirmations - {deletedWhos[0]};
        deletedWhos := deletedWhos[1..];
      }
      SplitElements(all, toRemove);
    }

    static lemma SplitElements(all: seq<string>, n: nat)
      requires NoDuplicates(all) && n <= |all|
      ensures Elements(all) - Elements(all[n..]) == Elements(all[..n])
    {
    }
  }

  /* ---------- Finished missions ---------- */

  datatype MissionStatus = Open | Succeeded | Canceled | Failed | Deleted

  datatype Entry = Entry(name: string, status: MissionStatus)

  predicate Finished(s: MissionStatus) {
    s in {Succeeded, Canceled, Failed}
  }

  function CountFinished(entries: seq<Entry>): nat {
    if entries == [] then 0 else (if Finished(entries[0].status) then 1 else 0) + CountFinished(entries[1..])
  }

  function CountDeleted(entries: seq<Entry>): nat {
    if entries == [] then 0 else (if entries[0].status == Deleted then 1 else 0) + CountDeleted(entries[1..])
  }

  ghost predicate DifferentNames(entries: seq<Entry>) {
    forall i, j | 0 <= i < j < |entries| :: entries[i].name != entries[j].name
  }

  /** A finished mission with nineteen younger finished ones. */
  predicate Superfluous(entries: seq<Entry>, i: nat)
    requires i < |entries|
  {
    Finished(entries[i].status) && CountFinished(entries[i..]) >= 20
  }

  /** A deleted mission with forty-nine younger deleted ones. */
  predicate Forgotten(entries: seq<Entry>, i: nat)
    requires i < |entries|
  {
    entries[i].status == Deleted && CountDeleted(entries[i..]) >= 50
  }

  /** The superfluous missions are marked as deleted. */
  function Marked(entries: seq<Entry>): (r: seq<Entry>)
    ensures |r| == |entries|
    ensures forall i :: 0 <= i < |r| ==>
              r[i] == if Superfluous(entries, i) then entries[i].(status := Deleted) else entries[i]
  {
    seq(|entries|, i requires 0 <= i < |entries| =>
      if Superfluous(entries, i) then entries[i].(status := Deleted) else entries[i])
  }

  /** Marking keeps the nineteen youngest finished missions. */
  lemma {:induction false} MarkedCount(entries: seq<Entry>, i: nat)
    requires i <= |entries|
    ensures CountFinished(Marked(entries)[i..]) ==
            if CountFinished(entries[i..]) <= 19 then CountFinished(entries[i..]) else 19
    decreases |entries| - i
  {
    if i < |entries| {
      MarkedCount(entries, i + 1);
      assert entries[i..][1..] == entries[i + 1..];
      assert Marked(entries)[i..][1..] == Marked(entries)[i + 1..];
    }
  }

  /** The entries whose name is not in the list. */
  function WithoutNames(entries: seq<Entry>, names: seq<string>): (r: seq<Entry>)
    ensures forall e :: e in r <==> e in entries && e.name !in names
  {
    if entries == [] then [] else
      var rest := WithoutNames(entries[1..], names);
      assert entries == [entries[0]] + entries[1..];
      if entries[0].name in names then rest else [entries[0]] + rest
  }

  lemma {:induction false} WithoutUnfinished(entries: seq<Entry>, names: seq<string>)
    requires forall e :: e in entries && e.name in names ==> !Finished(e.status)
    ensures CountFinished(WithoutNames(entries, names)) == CountFinished(entries)
  {
    if entries != [] {
      assert entries == [entries[0]] + entries[1..];
      WithoutUnfinished(entries[1..], names);
      if entries[0].name !in names {
        assert WithoutNames(entries, names)[1..] == WithoutNames(entries[1..], names);
      }
    }
  }

  lemma {:induction false} WithoutKeepsDifferent(entries: seq<Entry>, names: seq<string>)
    requires DifferentNames(entries)
    ensures DifferentNames(WithoutNames(entries, names))
  {
    if entries != [] {
      assert entries == [entries[0]] + entries[1..];
      WithoutKeepsDifferent(entries[1..], names);
    }
  }

  /** A status update of a known mission keeps its place, a new mission comes last. */
  function Updated(entries: seq<Entry>, name: string, status: MissionStatus): (r: seq<Entry>)
    ensures DifferentNames(entries) ==> DifferentNames(r)
  {
    if exists i :: 0 <= i < |entries| && entries[i].name == name then
      seq(|entries|, i requires 0 <= i < |entries| =>
        if entries[i].name == name then Entry(name, status) else entries[i])
    else entries + [Entry(name, status)]
  }

  /** The mission has the new status, the others have theirs, and all stay in their places. */
  lemma UpdatedIs(entries: seq<Entry>, name: string, status: MissionStatus)
    ensures var r := Updated(entries, name, status);
      && (forall e :: e in r <==> (e in entries && e.name != name) || e == Entry(name, status))
      && |r| >= |entries| && forall i :: 0 <= i < |entries| ==> r[i].name == entries[i].name
  {
    var r := Updated(entries, name, status);
    if i :| 0 <= i < |entries| && entries[i].name == name {
      assert r[i] == Entry(name, status);
    } else {
      assert r[|entries|] == Entry(name, status);
    }
    forall e | e in entries && e.name != name ensures e in r {
      var i :| 0 <= i < |entries| && entries[i] == e;
      assert r[i] == e;
    }
  }

  class MissionController {
    var missionStatus: seq<Entry>

    constructor ()
      ensures missionStatus == []
    {
      missionStatus := [];
    }

    /** Names of the superfluous finished missions and of the forgotten ones, counted from the back. */
    method CollectOutdated() returns (deleteMissions: seq<string>, cleanup: seq<string>)
      ensures forall n :: n in deleteMissions <==>
                exists i :: 0 <= i < |missionStatus| && Superfluous(missionStatus, i) && missionStatus[i].name == n
      ensures forall n :: n in cleanup <==>
                exists i :: 0 <= i < |missionStatus| && Forgotten(missionStatus, i) && missionStatus[i].name == n
    {
      deleteMissions, cleanup := [], [];
      var finished, deleted := 0, 0;
      var i: nat := |missionStatus|;
      while i > 0
        invariant i <= |missionStatus|
        invariant finished == CountFinished(missionStatus[i..]) && deleted == CountDeleted(missionStatus[i..])
        invariant forall n :: n in deleteMissions <==>
                    exists k :: i <= k < |missionStatus| && Superfluous(missionStatus, k) && missionStatus[k].name == n
        invariant forall n :: n in cleanup <==>
                    exists k :: i <= k < |missionStatus| && Forgotten(missionStatus, k) && missionStatus[k].name == n
      {
        i := i - 1;
        assert missionStatus[i..][1..] == missionStatus[i + 1..];
        if Finished(missionStatus[i].status) {
          finished := finished + 1;
          if finished >= 20 {
            deleteMissions := deleteMissions + [missionStatus[i].name];
          }
        }
        if missionStatus[i].status == Deleted {
          deleted := deleted + 1;
          if deleted >= 50 {
            cleanup := cleanup + [missionStatus[i].name];
          }
        }
      }
    }

    /** Marks the named missions as deleted. */
    method MarkDeleted(names: seq<string>)
      modifies this
      ensures |missionStatus| == |old(missionStatus)|
      ensures forall i :: 0 <= i < |missionStatus| ==>
                missionStatus[i] == if old(missionStatus)[i].name in names
                                    then old(missionStatus)[i].(status := Deleted) else old(missionStatus)[i]
    {
      for j := 0 to |names|
        invariant |missionStatus| == |old(missionStatus)|
        invariant forall i :: 0 <= i < |missionStatus| ==>
                    missionStatus[i] == if old(missionStatus)[i].name in names[..j]
                                        then old(missionStatus)[i].(status := Deleted) else old(missionStatus)[i]
      {
        missionStatus := seq(|missionStatus|, i requires 0 <= i < |missionStatus| reads this =>
          if missionStatus[i].name == names[j] then missionStatus[i].(status := Deleted) else missionStatus[i]);
      }
    }

    /**
     * Takes over a status, if the resource has one, and cleans up: at most nineteen finished
     * missions remain. A deletion that raises an error ends the cleanup, which the next call goes on with.
     */
    method UpdateMissionStatusCb(name: string, status: Option<MissionStatus>, failing: Option<nat>)
      returns (raised: bool)
      requires DifferentNames(missionStatus)
      modifies this
      ensures DifferentNames(missionStatus) && (failing.None? ==> !raised)
      ensures var all := if status.Some? then Updated(old(missionStatus), name, status.value) else old(missionStatus);
        if raised then PartlyCleaned(all, missionStatus) else Cleaned(all, missionStatus)
    {
      if status.Some? {
        missionStatus := Updated(missionStatus, name, status.value);
      }
      ghost var all := missionStatus;
      var deleteMissions, cleanup := CollectOutdated();
      if failing.Some? && failing.value < |deleteMissions| {
        MarkDeleted(deleteMissions[..failing.value]);
        MarksSome(all, deleteMissions, deleteMissions[..failing.value], missionStatus);
        return true;
      }
      raised := false;
      MarkDeleted(deleteMissions);
      MarksSuperfluous(all, deleteMissions, missionStatus);
      WithoutKeepsDifferent(missionStatus, cleanup);
      CleaningCounts(all, cleanup);
      CleaningSelects(all, cleanup, WithoutNames(missionStatus, cleanup));
      CleanedIs(all, WithoutNames(missionStatus, cleanup));
      missionStatus := WithoutNames(missionStatus, cleanup);
    }
  }

  /** What a cleanup leaves: nineteen finished missions at most, and every unfinished one as it was. */
  ghost predicate Cleaned(entries: seq<Entry>, cleaned: seq<Entry>) {
    && CountFinished(cleaned) == (if CountFinished(entries) <= 19 then CountFinished(entries) else 19)
    && (forall i :: 0 <= i < |entries| && entries[i].status == Open ==> entries[i] in cleaned)
    && (forall i :: 0 <= i < |entries| && Finished(entries[i].status) ==>
        (entries[i] in cleaned <==> !Superfluous(entries, i)))
    && (forall e :: e in cleaned && e.status != Deleted ==> e in entries)
  }

  /** No mission is forgotten; some superfluous ones are marked as deleted, the others are as they were. */
  ghost predicate PartlyCleaned(entries: seq<Entry>, cleaned: seq<Entry>) {
    && |cleaned| == |entries|
    && forall i :: 0 <= i < |entries| ==>
         cleaned[i] == entries[i] || (Superfluous(entries, i) && cleaned[i] == entries[i].(status := Deleted))
  }

  lemma MarksSome(all: seq<Entry>, names: seq<string>, some: seq<string>, marked: seq<Entry>)
    requires DifferentNames(all) && |marked| == |all| && some <= names
    requires forall n :: n in names <==> exists i :: 0 <= i < |all| && Superfluous(all, i) && all[i].name == n
    requires forall i :: 0 <= i < |all| ==>
               marked[i] == if all[i].name in some then all[i].(status := Deleted) else all[i]
    ensures PartlyCleaned(all, marked) && DifferentNames(marked)
  {
    assert forall n :: n in some ==> n in names;
  }

  lemma MarksSuperfluous(all: seq<Entry>, names: seq<string>, marked: seq<Entry>)
    requires DifferentNames(all) && |marked| == |all|
    requires forall n :: n in names <==> exists i :: 0 <= i < |all| && Superfluous(all, i) && all[i].name == n
    requires forall i :: 0 <= i < |all| ==>
               marked[i] == if all[i].name in names then all[i].(status := Deleted) else all[i]
    ensures marked == Marked(all) && DifferentNames(marked)
  {
  }

  lemma ForgottenUnfinished(all: seq<Entry>, names: seq<string>)
    requires DifferentNames(all) && forall n :: n in names ==>
               exists i :: 0 <= i < |all| && Forgotten(all, i) && all[i].name == n
    ensures forall e :: e in Marked(all) && e.name in names ==> e.status == Deleted
  {
  }

  lemma CleaningKeeps(all: seq<Entry>, names: seq<string>, i: nat)
    requires DifferentNames(all) && forall n :: n in names ==>
               exists k :: 0 <= k < |all| && Forgotten(all, k) && all[k].name == n
    requires i < |all| && all[i].status != Deleted
    ensures all[i] in WithoutNames(Marked(all), names) <==> !Superfluous(all, i)
  {
    var marked := Marked(all);
    forall k | 0 <= k < |all| && all[k].name == all[i].name ensures k == i {
    }
    assert all[i].name !in names;
    if Superfluous(all, i) {
      forall k | 0 <= k < |marked| ensures marked[k] != all[i] {
        assert marked[k].name == all[k].name;
      }
    } else {
      assert marked[i] in marked;
    }
  }

  lemma CleaningCounts(all: seq<Entry>, names: seq<string>)
    requires DifferentNames(all)
    requires forall n :: n in names ==> exists i :: 0 <= i < |all| && Forgotten(all, i) && all[i].name == n
    ensures CountFinished(WithoutNames(Marked(all), names)) ==
            if CountFinished(all) <= 19 then CountFinished(all) else 19
  {
    ForgottenUnfinished(all, names);
    WithoutUnfinished(Marked(all), names);
    MarkedCount(all, 0);
    assert all[0..] == all && Marked(all)[0..] == Marked(all);
  }

  lemma CleaningSelects(all: seq<Entry>, names: seq<string>, cleaned: seq<Entry>)
    requires DifferentNames(all) && cleaned == WithoutNames(Marked(all), names)
    requires forall n :: n in names ==> exists i :: 0 <= i < |all| && Forgotten(all, i) && all[i].name == n
    ensures forall i :: 0 <= i < |all| && all[i].status != Deleted ==> (all[i] in cleaned <==> !Superfluous(all, i))
    ensures forall e :: e in cleaned && e.status != Deleted ==> e in all
  {
    forall i | 0 <= i < |all| && all[i].status != Deleted ensures all[i] in cleaned <==> !Superfluous(all, i) {
      CleaningKeeps(all, names, i);
    }
  }

  lemma CleanedIs(all: seq<Entry>, cleaned: seq<Entry>)
    requires CountFinished(cleaned) == if CountFinished(all) <= 19 then CountFinished(all) else 19
    requires forall i :: 0 <= i < |all| && all[i].status != Deleted ==> (all[i] in cleaned <==> !Superfluous(all, i))
    requires forall e :: e in cleaned && e.status != Deleted ==> e in all
    ensures Cleaned(all, cleaned)
  {
  }
}
