/**
 * Travel times and bids: the calculator looks up requested paths in the robot's path cache, the
 * bid agent turns the reported run times into bids for warehouse orders.
 */
module Travel {
  import opened Common
  import opened Warehouse

  datatype Path = Path(start: string, goal: string)

  datatype Position = Position(guid: string, name: string, typeId: int)

  /** An entry of the path cache; reading its details may fail. */
  datatype MirPath = MirPath(start: string, goal: string, details: Option<Details>)

  datatype Details = Details(valid: bool, time: real)

  datatype RunTime = RunTime(path: Path, time: real)

  const POS_TYPE_IDS_FOR_PATH_GUIDES: set<int> := {0, 1, 5, 8, 10, 12, 14, 15, 19, 21, 22, 23, 42}

  /* ---------- Positions ---------- */

  predicate Usable(p: Position) {
    p.typeId in POS_TYPE_IDS_FOR_PATH_GUIDES
  }

  function GuidToPos(positions: seq<Position>): map<string, string> {
    if positions == [] then map[] else
      var before, last := GuidToPos(positions[..|positions| - 1]), positions[|positions| - 1];
      if Usable(last) then before[last.guid := last.name] else before
  }

  /** Several positions may share a name; the first one is used for it. */
  function PosToGuid(positions: seq<Position>): map<string, string> {
    if positions == [] then map[] else
      var before, last := PosToGuid(positions[..|positions| - 1]), positions[|positions| - 1];
      if Usable(last) && last.name !in before then before[last.name := last.guid] else before
  }

  method GetPosMaps(positions: seq<Position>) returns (guidToPos: map<string, string>, posToGuid: map<string, string>)
    ensures guidToPos == GuidToPos(positions) && posToGuid == PosToGuid(positions)
  {
    guidToPos, posToGuid := map[], map[];
    for i := 0 to |positions|
      invariant guidToPos == GuidToPos(positions[..i]) && posToGuid == PosToGuid(positions[..i])
    {
      assert positions[..i + 1][..i] == positions[..i];
      var p := positions[i];
      if p.typeId in POS_TYPE_IDS_FOR_PATH_GUIDES {
        guidToPos := guidToPos[p.guid := p.name];
        if p.name !in posToGuid {
          posToGuid := posToGuid[p.name := p.guid];
        }
      }
    }
    assert positions[..|positions|] == positions;
  }

  ghost predicate UniqueGuids(positions: seq<Position>) {
    forall i, j | 0 <= i < j < |positions| :: positions[i].guid != positions[j].guid
  }

  lemma {:induction false} KnownGuids(positions: seq<Position>, g: string)
    requires g in GuidToPos(positions)
    ensures exists i :: 0 <= i < |positions| && positions[i].guid == g
  {
    var init, last := positions[..|positions| - 1], positions[|positions| - 1];
    if g != last.guid {
      KnownGuids(init, g);
      var i :| 0 <= i < |init| && init[i].guid == g;
      assert positions[i].guid == g;
    }
  }

  /** Every usable position is found by its GUID, its name leads to a position of the same name, the first one. */
  lemma {:induction false} PosMapsAgree(positions: seq<Position>, i: nat)
    requires UniqueGuids(positions) && i < |positions| && Usable(positions[i])
    ensures var guidToPos, posToGuid := GuidToPos(positions), PosToGuid(positions);
      && positions[i].guid in guidToPos && guidToPos[positions[i].guid] == positions[i].name
      && positions[i].name in posToGuid && posToGuid[positions[i].name] in guidToPos
      && guidToPos[posToGuid[positions[i].name]] == positions[i].name
    ensures (forall k :: 0 <= k < i && Usable(positions[k]) ==> positions[k].name != positions[i].name) <==>
            PosToGuid(positions)[positions[i].name] == positions[i].guid
  {
    var init, last := positions[..|positions| - 1], positions[|positions| - 1];
    if last.guid in GuidToPos(init) {
      KnownGuids(init, last.guid);
    }
    if i < |init| {
      PosMapsAgree(init, i);
    } else {
      NamesTaken(init, last.name);
    }
  }

  /** A name is taken exactly when a usable position bears it. */
  lemma {:induction false} NamesTaken(positions: seq<Position>, name: string)
    requires UniqueGuids(positions)
    ensures name in PosToGuid(positions) <==>
              exists k :: 0 <= k < |positions| && Usable(positions[k]) && positions[k].name == name
    ensures name in PosToGuid(positions) ==>
              var g := PosToGuid(positions)[name]; g in GuidToPos(positions) && GuidToPos(positions)[g] == name
  {
    if positions != [] {
      var init, last := positions[..|positions| - 1], positions[|positions| - 1];
      NamesTaken(init, name);
      assert forall k :: 0 <= k < |init| ==> init[k] == positions[k];
      if last.guid in GuidToPos(init) {
        KnownGuids(init, last.guid);
      }
    }
  }

  /* ---------- The path cache ---------- */

  /** Reading a missing key yields the empty name. */
  function NameOf(guidToPos: map<string, string>, guid: string): string {
    if guid in guidToPos then guidToPos[guid] else ""
  }

  function EwmPath(guidToPos: map<string, string>, p: MirPath): Path {
    Path(NameOf(guidToPos, p.start), NameOf(guidToPos, p.goal))
  }

  predicate Serves(guidToPos: map<string, string>, p: MirPath, path: Path) {
    EwmPath(guidToPos, p) == path && p.details.Some? && p.details.value.valid
  }

  /** The run time of the first valid cache entry for the path. */
  function CachedTime(guidToPos: map<string, string>, cache: seq<MirPath>, path: Path): (r: Option<real>)
    ensures r.Some? <==> exists i :: 0 <= i < |cache| && Serves(guidToPos, cache[i], path)
  {
    if cache == [] then None else
      var init, last := cache[..|cache| - 1], cache[|cache| - 1];
      assert forall i :: 0 <= i < |init| ==> cache[i] == init[i];
      var before := CachedTime(guidToPos, init, path);
      if before.Some? then before
      else if Serves(guidToPos, last, path) then Some(last.details.value.time) else None
  }

  /** The entry is a valid one for the drive from start to goal; a GUID without position has the empty name. */
  predicate ValidEntry(guidToPos: map<string, string>, p: MirPath, path: Path) {
    && path.start == (if p.start in guidToPos then guidToPos[p.start] else "")
    && path.goal == (if p.goal in guidToPos then guidToPos[p.goal] else "")
    && p.details.Some? && p.details.value.valid
  }

  /** The first valid cache entry for the path has this run time. */
  ghost predicate FirstTime(guidToPos: map<string, string>, cache: seq<MirPath>, path: Path, time: real) {
    exists i :: 0 <= i < |cache| && ValidEntry(guidToPos, cache[i], path) && cache[i].details.value.time == time
                && forall k :: 0 <= k < i ==> !ValidEntry(guidToPos, cache[k], path)
  }

  ghost predicate NoTime(guidToPos: map<string, string>, cache: seq<MirPath>, path: Path) {
    forall i :: 0 <= i < |cache| ==> !ValidEntry(guidToPos, cache[i], path)
  }

  lemma {:induction false} CachedTimeIs(guidToPos: map<string, string>, cache: seq<MirPath>, path: Path)
    ensures CachedTime(guidToPos, cache, path).None? <==> NoTime(guidToPos, cache, path)
    ensures forall time :: CachedTime(guidToPos, cache, path) == Some(time) <==> FirstTime(guidToPos, cache, path, time)
  {
    if cache != [] {
      var init, last := cache[..|cache| - 1], cache[|cache| - 1];
      CachedTimeIs(guidToPos, init, path);
      assert forall i :: 0 <= i < |init| ==> init[i] == cache[i];
      assert Serves(guidToPos, last, path) <==> ValidEntry(guidToPos, last, path);
      forall time
        ensures CachedTime(guidToPos, cache, path) == Some(time) <==> FirstTime(guidToPos, cache, path, time)
      {
        if FirstTime(guidToPos, init, path, time) {
          var i :| 0 <= i < |init| && ValidEntry(guidToPos, init[i], path) && init[i].details.value.time == time
            && forall k :: 0 <= k < i ==> !ValidEntry(guidToPos, init[k], path);
          assert ValidEntry(guidToPos, cache[i], path);
        }
      }
    }
  }

  /** A set of paths that several holders share and delete from. */
  class PathLookup {
    var paths: set<Path>

    constructor (requested: seq<Path>)
      ensures paths == Elements(requested)
    {
      paths := Elements(requested);
    }
  }

  predicate Moves(p: Path) {
    p.start != p.goal
  }

  /** What one look into the cache finds of the requested paths. */
  ghost predicate Found(guidToPos: map<string, string>, cache: seq<MirPath>, requested: set<Path>,
                        known: map<Path, real>, unknown: set<Path>)
  {
    && (forall p :: p in known <==> p in requested && Moves(p) && CachedTime(guidToPos, cache, p).Some?)
    && (forall p :: p in known ==> Some(known[p]) == CachedTime(guidToPos, cache, p))
    && (forall p :: p in unknown <==> p in requested && Moves(p) && CachedTime(guidToPos, cache, p).None?)
  }

  /** How the attempt to precalculate a path ends; without an entry the time was up before. */
  datatype Attempt = NoGuide | Refused | Busy | Started

  class MirEstimator {
    const ewmPathQueue: PathLookup

    constructor ()
      ensures fresh(ewmPathQueue) && ewmPathQueue.paths == {}
    {
      ewmPathQueue := new PathLookup([]);
    }

    /**
     * Looks for the requested paths in the cache. What is found is deleted from the request, so
     * the request holds the unknown paths afterwards; found paths leave the queue as well.
     */
    method CollectMirPaths(guidToPos: map<string, string>, cache: seq<MirPath>, requested: PathLookup)
      returns (known: map<Path, real>)
      requires requested != ewmPathQueue
      modifies requested, ewmPathQueue
      ensures Found(guidToPos, cache, old(requested.paths), known, requested.paths)
      ensures ewmPathQueue.paths == old(ewmPathQueue.paths) - known.Keys
    {
      known := map[];
      requested.paths := set p | p in requested.paths && Moves(p);
      for i := 0 to |cache|
        invariant Found(guidToPos, cache[..i], old(requested.paths), known, requested.paths)
        invariant ewmPathQueue.paths == old(ewmPathQueue.paths) - known.Keys
      {
        var ewmPath := EwmPath(guidToPos, cache[i]);
        assert cache[..i + 1][..i] == cache[..i];
        if ewmPath in requested.paths && cache[i].details.Some? && cache[i].details.value.valid {
          known := known[ewmPath := cache[i].details.value.time];
          requested.paths := requested.paths - {ewmPath};
          ewmPathQueue.paths := ewmPathQueue.paths - {ewmPath};
        }
      }
      assert cache[..|cache|] == cache;
    }

    /** The known paths in the order of the request. */
    method UpdateCrWithResult(paths: seq<Path>, known: map<Path, real>) returns (runTimes: seq<RunTime>)
      ensures runTimes == RunTimes(paths, known)
    {
      runTimes := [];
      for i := 0 to |paths|
        invariant runTimes == RunTimes(paths[..i], known)
      {
        assert paths[..i + 1][..i] == paths[..i];
        if paths[i] in known {
          runTimes := runTimes + [RunTime(paths[i], known[paths[i]])];
        }
      }
      assert paths[..|paths|] == paths;
    }

    /**
     * Tries to precalculate paths one after the other. A path leaves the queue when its
     * precalculation was started or refused; if another one is running or time is up, it stays.
     */
    method PrecalculatePaths(unknown: set<Path>, attempts: map<Path, Attempt>)
      modifies ewmPathQueue
      ensures ewmPathQueue.paths == old(ewmPathQueue.paths) - Ended(unknown, attempts)
    {
      var left := unknown;
      while left != {}
        invariant left <= unknown
        invariant ewmPathQueue.paths == old(ewmPathQueue.paths) - Ended(unknown - left, attempts)
      {
        var path :| path in left;
        left := left - {path};
        if Moves(path) && path in attempts && attempts[path] in {Started, Refused} {
          ewmPathQueue.paths := ewmPathQueue.paths - {path};
        }
      }
      assert unknown - {} == unknown;
    }

    /**
     * Answers a request: unknown paths are precalculated, which changes the robot's cache, and
     * looked up once more through the same lookup table. When the cache cannot be read, there is
     * no answer; when it cannot be read again, the answer stays preliminary.
     */
    method ProcessCrAdded(guidToPos: map<string, string>, paths: seq<Path>, cache: Option<seq<MirPath>>,
                          attempts: map<Path, Attempt>, later: Option<seq<MirPath>>)
      returns (runTimes: Option<seq<RunTime>>, processed: bool, known: map<Path, real>, unknown: PathLookup)
      modifies ewmPathQueue
      ensures fresh(unknown)
      ensures cache.None? ==> runTimes == None && !processed && ewmPathQueue.paths == old(ewmPathQueue.paths)
      ensures cache.Some? ==>
                Answered(guidToPos, paths, cache.value, if later.Some? then later.value else [], known, unknown.paths)
      ensures cache.Some? ==> runTimes == Some(RunTimes(paths, known))
      ensures cache.Some? ==> (processed <==> later.Some? || Missing(guidToPos, paths, cache.value) == {})
      ensures cache.Some? ==>
                ewmPathQueue.paths ==
                old(ewmPathQueue.paths) - known.Keys - Ended(Missing(guidToPos, paths, cache.value), attempts)
    {
      runTimes, processed, known := None, false, map[];
      unknown := new PathLookup(paths);
      if cache.None? {
        return;
      }
      known := CollectMirPaths(guidToPos, cache.value, unknown);
      assert unknown.paths == Missing(guidToPos, paths, cache.value);
      if unknown.paths != {} {
        var preliminary := UpdateCrWithResult(paths, known);
        runTimes := Some(preliminary);
        PrecalculatePaths(unknown.paths, attempts);
        if later.None? {
          FoundAtOnce(guidToPos, paths, cache.value, known, unknown.paths);
          return;
        }
        ghost var before, missing := known, unknown.paths;
        var more := CollectMirPaths(guidToPos, later.value, unknown);
        FoundLater(guidToPos, paths, cache.value, later.value, before, missing, more, unknown.paths);
        known := known + more;
      } else {
        NothingMissing(guidToPos, paths, cache.value, if later.Some? then later.value else [], known);
      }
      var times := UpdateCrWithResult(paths, known);
      runTimes, processed := Some(times), true;
    }
  }

  function RunTimes(paths: seq<Path>, known: map<Path, real>): seq<RunTime> {
    if paths == [] then [] else
      var last := paths[|paths| - 1];
      RunTimes(paths[..|paths| - 1], known) + if last in known then [RunTime(last, known[last])] else []
  }

  lemma FoundAtOnce(guidToPos: map<string, string>, paths: seq<Path>, cache: seq<MirPath>, known: map<Path, real>,
                    unknown: set<Path>)
    requires Found(guidToPos, cache, Elements(paths), known, unknown)
    ensures Answered(guidToPos, paths, cache, [], known, unknown)
  {
  }

  lemma NothingMissing(guidToPos: map<string, string>, paths: seq<Path>, cache: seq<MirPath>, later: seq<MirPath>,
                       known: map<Path, real>)
    requires Found(guidToPos, cache, Elements(paths), known, {})
    ensures Answered(guidToPos, paths, cache, later, known, {})
  {
    assert forall p :: p in paths && Moves(p) ==> p in known;
  }

  /** What is found after precalculation completes the answer. */
  lemma FoundLater(guidToPos: map<string, string>, paths: seq<Path>, cache: seq<MirPath>, later: seq<MirPath>,
                   known: map<Path, real>, missing: set<Path>, more: map<Path, real>, unknown: set<Path>)
    requires Found(guidToPos, cache, Elements(paths), known, missing) && Found(guidToPos, later, missing, more, unknown)
    ensures Answered(guidToPos, paths, cache, later, known + more, unknown)
  {
  }

  /** The requested paths that the cache does not have. */
  function Missing(guidToPos: map<string, string>, paths: seq<Path>, cache: seq<MirPath>): set<Path> {
    set p | p in paths && Moves(p) && CachedTime(guidToPos, cache, p).None?
  }

  /** The paths whose precalculation was started or refused. */
  function Ended(paths: set<Path>, attempts: map<Path, Attempt>): set<Path> {
    set p | p in paths && Moves(p) && p in attempts && attempts[p] in {Started, Refused}
  }

  /** A path is known when the cache has it, or has it after precalculation; all others stay unknown. */
  ghost predicate Answered(guidToPos: map<string, string>, paths: seq<Path>, cache: seq<MirPath>, later: seq<MirPath>,
                           known: map<Path, real>, unknown: set<Path>)
  {
    && (forall p :: p in known <==>
          p in paths && Moves(p) && (CachedTime(guidToPos, cache, p).Some? || CachedTime(guidToPos, later, p).Some?))
    && (forall p :: p in known ==>
          Some(known[p]) ==
          if CachedTime(guidToPos, cache, p).Some? then CachedTime(guidToPos, cache, p)
          else CachedTime(guidToPos, later, p))
    && (forall p :: p in unknown <==> p in paths && Moves(p) && p !in known)
  }

  lemma {:induction false} RunTimesAre(paths: seq<Path>, known: map<Path, real>, r: RunTime)
    ensures r in RunTimes(paths, known) <==> r.path in paths && r.path in known && known[r.path] == r.time
  {
    if paths != [] {
      var init, last := paths[..|paths| - 1], paths[|paths| - 1];
      assert paths == init + [last];
      RunTimesAre(init, known, r);
    }
  }

  /* ---------- Bids ---------- */

  /** The drive to the first task of an order. */
  function Drive(start: string, w: WarehouseOrder): Path
    requires w.sources != []
  {
    Path(start, w.sources[0])
  }

  /** The paths to request for the orders of an auction, each once. */
  method RequestedPaths(start: string, whos: seq<WarehouseOrder>) returns (paths: seq<Path>)
    ensures NoDuplicates(paths)
    ensures forall p :: p in paths <==> exists w :: w in whos && w.sources != [] && p == Drive(start, w)
  {
    paths := [];
    var existingPaths: set<Path> := {};
    for i := 0 to |whos|
      invariant NoDuplicates(paths) && forall p :: p in paths <==> p in existingPaths
      invariant forall p :: p in existingPaths <==>
                  exists w :: w in whos[..i] && w.sources != [] && p == Drive(start, w)
    {
      assert whos[..i + 1] == whos[..i] + [whos[i]];
      if |whos[i].sources| > 0 {
        var path := Drive(start, whos[i]);
        if path !in existingPaths {
          paths := paths + [path];
          existingPaths := existingPaths + {path};
        }
      }
    }
    assert whos[..|whos|] == whos;
  }

  /** Later run times of the same path replace earlier ones. */
  function Estimations(runTimes: seq<RunTime>): map<Path, real> {
    if runTimes == [] then map[] else
      Estimations(runTimes[..|runTimes| - 1])[runTimes[|runTimes| - 1].path := runTimes[|runTimes| - 1].time]
  }

  method CollectEstimations(runTimes: seq<RunTime>) returns (estimations: map<Path, real>)
    ensures estimations == Estimations(runTimes)
  {
    estimations := map[];
    for i := 0 to |runTimes|
      invariant estimations == Estimations(runTimes[..i])
    {
      assert runTimes[..i + 1][..i] == runTimes[..i];
      estimations := estimations[runTimes[i].path := runTimes[i].time];
    }
    assert runTimes[..|runTimes|] == runTimes;
  }

  /** The bid for an order: the run time of its drive, or one when the robot stands there already. */
  function BidFor(start: string, w: WarehouseOrder, estimations: map<Path, real>): Option<real> {
    if w.sources == [] then None
    else if Drive(start, w) in estimations then Some(estimations[Drive(start, w)])
    else if start == w.sources[0] then Some(1.0) else None
  }

  function Bids(start: string, whos: seq<WarehouseOrder>, estimations: map<Path, real>): seq<Bidding> {
    if whos == [] then [] else
      var last := whos[|whos| - 1];
      Bids(start, whos[..|whos| - 1], estimations)
      + match BidFor(start, last, estimations)
        case Some(value) => [Bidding(last.id, value)]
        case None => []
  }

  method CloseBid(start: string, whos: seq<WarehouseOrder>, estimations: map<Path, real>) returns (bids: seq<Bidding>)
    ensures bids == Bids(start, whos, estimations)
    ensures forall b :: b in bids <==> exists w :: w in whos && Deserves(start, w, estimations, b)
  {
    bids := [];
    for i := 0 to |whos|
      invariant bids == Bids(start, whos[..i], estimations)
    {
      assert whos[..i + 1][..i] == whos[..i];
      var w := whos[i];
      if |w.sources| > 0 {
        var path := Path(start, w.sources[0]);
        if path in estimations {
          bids := bids + [Bidding(w.id, estimations[path])];
        } else if path.start == path.goal {
          bids := bids + [Bidding(w.id, 1.0)];
        }
      }
    }
    assert whos[..|whos|] == whos;
    BidsBelong(start, whos, estimations);
  }

  /** The robot bids this for the order: the run time of the drive to its first task, or one when it stands there. */
  predicate Deserves(start: string, w: WarehouseOrder, estimations: map<Path, real>, b: Bidding) {
    && w.id == b.id && w.sources != []
    && if Path(start, w.sources[0]) in estimations then b.value == estimations[Path(start, w.sources[0])]
       else start == w.sources[0] && b.value == 1.0
  }

  /** Bid j is for the order at position origins[j]. */
  ghost predicate Originate(start: string, whos: seq<WarehouseOrder>, estimations: map<Path, real>, bids: seq<Bidding>,
                            origins: seq<nat>)
  {
    && |origins| == |bids|
    && (forall j :: 0 <= j < |bids| ==>
          origins[j] < |whos| && Deserves(start, whos[origins[j]], estimations, bids[j]))
    && (forall j, k :: 0 <= j < k < |bids| ==> origins[j] < origins[k])
    && (forall i, b | 0 <= i < |whos| && Deserves(start, whos[i], estimations, b) ::
          exists j :: 0 <= j < |bids| && bids[j] == b && origins[j] == i)
  }

  lemma OriginateNext(start: string, whos: seq<WarehouseOrder>, w: WarehouseOrder, estimations: map<Path, real>,
                      bids: seq<Bidding>, origins: seq<nat>, b: Option<Bidding>)
    requires Originate(start, whos, estimations, bids, origins)
    requires forall c :: Deserves(start, w, estimations, c) <==> b == Some(c)
    ensures b.None? ==> Originate(start, whos + [w], estimations, bids, origins)
    ensures b.Some? ==> Originate(start, whos + [w], estimations, bids + [b.value], origins + [|whos|])
  {
    var bids', origins' := if b.Some? then bids + [b.value] else bids, if b.Some? then origins + [|whos|] else origins;
    forall i, c | 0 <= i < |whos + [w]| && Deserves(start, (whos + [w])[i], estimations, c)
      ensures exists j :: 0 <= j < |bids'| && bids'[j] == c && origins'[j] == i
    {
      if i < |whos| {
        assert Deserves(start, whos[i], estimations, c);
        var j :| 0 <= j < |bids| && bids[j] == c && origins[j] == i;
        assert bids'[j] == c;
      } else {
        assert bids'[|bids|] == c;
      }
    }
  }

  /** Bids come in the order of the orders, one for each that deserves it. */
  lemma {:induction false} BidsAre(start: string, whos: seq<WarehouseOrder>, estimations: map<Path, real>)
    returns (origins: seq<nat>)
    ensures Originate(start, whos, estimations, Bids(start, whos, estimations), origins)
  {
    origins := [];
    if whos != [] {
      var init, last := whos[..|whos| - 1], whos[|whos| - 1];
      origins := BidsAre(start, init, estimations);
      var value := BidFor(start, last, estimations);
      var b := if value.Some? then Some(Bidding(last.id, value.value)) else None;
      OriginateNext(start, init, last, estimations, Bids(start, init, estimations), origins, b);
      assert whos == init + [last];
      if b.Some? {
        origins := origins + [|init|];
      }
    }
  }

  lemma BidsBelong(start: string, whos: seq<WarehouseOrder>, estimations: map<Path, real>)
    ensures forall b ::
              b in Bids(start, whos, estimations) <==> exists w :: w in whos && Deserves(start, w, estimations, b)
  {
    var bids := Bids(start, whos, estimations);
    var origins := BidsAre(start, whos, estimations);
    forall b ensures b in bids <==> exists w :: w in whos && Deserves(start, w, estimations, b) {
      if b in bids {
        var j :| 0 <= j < |bids| && bids[j] == b;
        assert Deserves(start, whos[origins[j]], estimations, b);
      }
      if w :| w in whos && Deserves(start, w, estimations, b) {
        var i :| 0 <= i < |whos| && whos[i] == w;
        assert Deserves(start, whos[i], estimations, b);
      }
    }
  }

  lemma {:induction false} EstimationsAre(paths: seq<Path>, known: map<Path, real>)
    ensures var e := Estimations(RunTimes(paths, known));
      forall p :: p in e <==> p in paths && p in known
    ensures var e := Estimations(RunTimes(paths, known));
      forall p :: p in e ==> e[p] == known[p]
  {
    if paths != [] {
      var init, last := paths[..|paths| - 1], paths[|paths| - 1];
      assert paths == init + [last];
      EstimationsAre(init, known);
      var before, after := RunTimes(init, known), RunTimes(paths, known);
      if last in known {
        assert after == before + [RunTime(last, known[last])] && after[..|after| - 1] == before;
      } else {
        assert after == before;
      }
    }
  }

  /** The time of the first valid cache entry, in the first cache or else in the later one. */
  ghost predicate DriveTime(guidToPos: map<string, string>, cache: seq<MirPath>, later: seq<MirPath>, path: Path,
                            time: real)
  {
    || FirstTime(guidToPos, cache, path, time)
    || (NoTime(guidToPos, cache, path) && FirstTime(guidToPos, later, path, time))
  }

  lemma AnsweredTimes(guidToPos: map<string, string>, paths: seq<Path>, cache: seq<MirPath>, later: seq<MirPath>,
                      known: map<Path, real>, unknown: set<Path>, p: Path)
    requires Answered(guidToPos, paths, cache, later, known, unknown) && p in paths
    ensures p in known <==> p.start != p.goal && exists time :: DriveTime(guidToPos, cache, later, p, time)
    ensures forall time ::
              p in known && known[p] == time <==> p.start != p.goal && DriveTime(guidToPos, cache, later, p, time)
    ensures p in unknown <==> p.start != p.goal && NoTime(guidToPos, cache, p) && NoTime(guidToPos, later, p)
  {
    CachedTimeIs(guidToPos, cache, p);
    CachedTimeIs(guidToPos, later, p);
    var first, second := CachedTime(guidToPos, cache, p), CachedTime(guidToPos, later, p);
    if first.Some? {
      assert DriveTime(guidToPos, cache, later, p, first.value);
    } else if second.Some? {
      assert DriveTime(guidToPos, cache, later, p, second.value);
    }
  }

  /**
   * From request to bid: for an order with tasks the robot bids the time of the first valid entry
   * of its path cache for the drive to the first task, read before precalculation or else after
   * it; one when it stands at the source bin already; and nothing otherwise.
   */
  lemma BidsExactlyWhereKnown(guidToPos: map<string, string>, start: string, whos: seq<WarehouseOrder>,
                              paths: seq<Path>, cache: seq<MirPath>, later: seq<MirPath>, known: map<Path, real>,
                              unknown: set<Path>, w: WarehouseOrder, b: Bidding)
    requires forall p :: p in paths <==> exists v :: v in whos && v.sources != [] && p == Path(start, v.sources[0])
    requires Answered(guidToPos, paths, cache, later, known, unknown) && w in whos && b.id == w.id
    ensures Deserves(start, w, Estimations(RunTimes(paths, known)), b) <==>
              && w.sources != []
              && if start == w.sources[0] then b.value == 1.0
                 else DriveTime(guidToPos, cache, later, Path(start, w.sources[0]), b.value)
    ensures w.sources != [] && start != w.sources[0] ==>
              var p := Path(start, w.sources[0]);
              p in unknown <==> NoTime(guidToPos, cache, p) && NoTime(guidToPos, later, p)
  {
    EstimationsAre(paths, known);
    if w.sources != [] {
      var p := Path(start, w.sources[0]);
      assert p in paths;
      AnsweredTimes(guidToPos, paths, cache, later, known, unknown, p);
    }
  }
}
