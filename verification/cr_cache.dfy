/**
 * The cache of custom resources: filled by full lists, kept up to date by watch events. Lists
 * and events overlap in time, so the cache may hold newer resources than the watcher has seen.
 */
module CrCache {
  import opened Common

  datatype Operation = Added | Modified | Deleted

  /** A change on the server; the change at position i of the server's history leads to version i + 1. */
  datatype Event<Object> = Event(operation: Operation, name: string, obj: Object)

  function Apply<Object>(cache: map<string, Object>, e: Event<Object>): map<string, Object> {
    match e.operation
    case Deleted => cache - {e.name}
    case _ => cache[e.name := e.obj]
  }

  function Replay<Object>(cache: map<string, Object>, events: seq<Event<Object>>): map<string, Object> {
    if events == [] then cache else Apply(Replay(cache, events[..|events| - 1]), events[|events| - 1])
  }

  lemma StretchGrows<Object>(history: seq<Event<Object>>, from: nat, count: nat)
    requires from + count < |history|
    ensures history[from..from + count + 1] == history[from..from + count] + [history[from + count]]
  {
  }

  /** The resources on the server at a version. */
  function ServerAt<Object>(history: seq<Event<Object>>, version: nat): map<string, Object>
    requires version <= |history|
  {
    Replay(map[], history[..version])
  }

  /** Both maps agree on the name. */
  predicate SameAt<Object(==)>(a: map<string, Object>, b: map<string, Object>, name: string) {
    (name in a <==> name in b) && (name in a ==> a[name] == b[name])
  }

  /** The change at position j is the latest one of the name in this stretch of the history. */
  predicate LastChange<Object>(history: seq<Event<Object>>, from: nat, until: nat, name: string, j: int) {
    && until <= |history| && from <= j < until && history[j].name == name
    && forall k :: j < k < until ==> history[k].name != name
  }

  /** What the map says of the name is what the change made of it. */
  predicate ShowsChange<Object(==)>(resources: map<string, Object>, name: string, e: Event<Object>) {
    if e.operation == Deleted then name !in resources else name in resources && resources[name] == e.obj
  }

  /** What the map says of the name is what its latest change made of it; without a change it does not have it. */
  ghost predicate Shows<Object(!new)>(resources: map<string, Object>, history: seq<Event<Object>>, version: nat,
                                      name: string) {
    && (forall j :: LastChange(history, 0, version, name, j) ==> ShowsChange(resources, name, history[j]))
    && (name in resources ==> exists j :: LastChange(history, 0, version, name, j))
  }

  /** What the stretch of changes makes of the name: its latest one counts, and without one nothing happens. */
  ghost predicate Follows<Object(!new)>(resources: map<string, Object>, after: map<string, Object>,
                                        history: seq<Event<Object>>, from: nat, until: nat, name: string) {
    && (forall j :: LastChange(history, from, until, name, j) ==> ShowsChange(after, name, history[j]))
    && (SameAt(after, resources, name) || exists j :: LastChange(history, from, until, name, j))
  }

  lemma {:induction false} ReplayIs<Object(!new)>(cache: map<string, Object>, history: seq<Event<Object>>, from: nat,
                                                  until: nat, name: string)
    requires from <= until <= |history|
    ensures Follows(cache, Replay(cache, history[from..until]), history, from, until, name)
    decreases until
  {
    if from < until {
      ReplayIs(cache, history, from, until - 1, name);
      assert history[from..until][..until - from - 1] == history[from..until - 1];
      var before, after := Replay(cache, history[from..until - 1]), Replay(cache, history[from..until]);
      assert after == Apply(before, history[until - 1]);
      if history[until - 1].name == name {
        assert LastChange(history, from, until, name, until - 1);
      } else {
        forall j ensures LastChange(history, from, until, name, j) <==> LastChange(history, from, until - 1, name, j) {
        }
        assert SameAt(after, before, name);
        if !SameAt(before, cache, name) {
          var j :| LastChange(history, from, until - 1, name, j);
          assert LastChange(history, from, until, name, j);
        }
      }
    }
  }

  /** The second map is what the stretch of changes makes of the first one. */
  ghost predicate Watched<Object(!new)>(before: map<string, Object>, after: map<string, Object>,
                                        history: seq<Event<Object>>, from: nat, until: nat) {
    forall name :: Follows(before, after, history, from, until, name)
  }

  lemma ReplayWatches<Object(!new)>(cache: map<string, Object>, history: seq<Event<Object>>, from: nat, until: nat)
    requires from <= until <= |history|
    ensures Watched(cache, Replay(cache, history[from..until]), history, from, until)
  {
    forall name ensures Follows(cache, Replay(cache, history[from..until]), history, from, until, name) {
      ReplayIs(cache, history, from, until, name);
    }
  }

  /** The server has a resource exactly when its latest change is not a deletion, with the object of that change. */
  lemma ServerAtIs<Object(!new)>(history: seq<Event<Object>>, version: nat, name: string)
    requires version <= |history|
    ensures Shows(ServerAt(history, version), history, version, name)
    ensures name in ServerAt(history, version) <==>
            exists j :: LastChange(history, 0, version, name, j) && history[j].operation != Deleted
  {
    ReplayIs(map[], history, 0, version, name);
  }

  /** What agrees with the server on a name shows what the latest change made of it. */
  lemma AgreeingShows<Object(!new)>(cache: map<string, Object>, history: seq<Event<Object>>, version: nat,
                                    name: string)
    requires version <= |history| && SameAt(cache, ServerAt(history, version), name)
    ensures Shows(cache, history, version, name)
  {
    ServerAtIs(history, version, name);
  }

  /** The list holds each resource once. */
  ghost predicate Lists<Object(!new)>(items: seq<(string, Object)>, resources: map<string, Object>) {
    && (forall i :: 0 <= i < |items| ==> items[i].0 in resources && resources[items[i].0] == items[i].1)
    && (forall name :: name in resources ==> exists i :: 0 <= i < |items| && items[i].0 == name)
  }

  class K8sCRHandler<Object(==,!new)> {
    var crCache: map<string, Object>
    /** The version up to which the watcher has seen changes; none before the first list. */
    var resvWatcher: Option<nat>

    constructor ()
      ensures crCache == map[] && resvWatcher == None
    {
      crCache := map[];
      resvWatcher := None;
    }

    method CacheCustomResource(e: Event<Object>)
      modifies this`crCache
      ensures crCache == Apply(old(crCache), e)
      ensures e.operation == Deleted ==> e.name !in crCache
      ensures e.operation in {Added, Modified} ==> e.name in crCache && crCache[e.name] == e.obj
      ensures forall name :: name != e.name ==> SameAt(crCache, old(crCache), name)
    {
      if e.operation == Added || e.operation == Modified {
        crCache := crCache[e.name := e.obj];
      } else {
        crCache := crCache - {e.name};
      }
    }

    method RefreshCustomResourceCache(items: seq<(string, Object)>, ghost resources: map<string, Object>)
      requires Lists(items, resources)
      modifies this`crCache
      ensures crCache == resources
    {
      var cache: map<string, Object> := map[];
      for i := 0 to |items|
        invariant forall name :: name in cache <==> exists k :: 0 <= k < i && items[k].0 == name
        invariant forall name :: name in cache ==> name in resources && cache[name] == resources[name]
      {
        cache := cache[items[i].0 := items[i].1];
      }
      crCache := cache;
      assert crCache.Keys == resources.Keys;
    }

    /**
     * The watcher's stream of changes from its position on, until it breaks off. After an error
     * of the server the watcher starts over from a list.
     */
    method WatchOnCrs(history: seq<Event<Object>>, count: nat, apiError: bool)
      requires resvWatcher.Some? && resvWatcher.value + count <= |history|
      modifies this
      ensures resvWatcher == if apiError then None else Some(old(resvWatcher).value + count)
      ensures crCache == Replay(old(crCache), history[old(resvWatcher).value..old(resvWatcher).value + count])
      ensures Watched(old(crCache), crCache, history, old(resvWatcher).value, old(resvWatcher).value + count)
    {
      ghost var start := resvWatcher.value;
      for i := 0 to count
        invariant resvWatcher == Some(start + i)
        invariant crCache == Replay(old(crCache), history[start..start + i])
      {
        var position := resvWatcher.value;
        StretchGrows(history, start, i);
        resvWatcher := Some(position + 1);
        CacheCustomResource(history[position]);
      }
      if apiError {
        resvWatcher := None;
      }
      ReplayWatches(old(crCache), history, start, start + count);
    }

    /** Starts over from a full list; the watcher continues at its version. */
    method InitWatcher(items: seq<(string, Object)>, version: nat, ghost resources: map<string, Object>)
      requires Lists(items, resources)
      modifies this
      ensures crCache == resources && resvWatcher == Some(version)
    {
      RefreshCustomResourceCache(items, resources);
      resvWatcher := Some(version);
    }
  }

  /* ---------- Runs ---------- */

  /** `synced` is the version of the latest list. */
  datatype State<Object> = State(history: seq<Event<Object>>, cache: map<string, Object>, position: nat, synced: nat)

  datatype Step<Object> =
    | Change(e: Event<Object>)
    | Watch(count: nat)
    | Refresh(version: nat)
    | Restart(version: nat)

  /** A list is never older than what the watcher saw or what was listed before. */
  ghost predicate Next<Object(!new)>(s: State<Object>, t: State<Object>, step: Step<Object>) {
    match step
    case Change(e) => t == s.(history := s.history + [e])
    case Watch(count) =>
      && s.position + count <= |s.history|
      && t == s.(position := s.position + count, cache := Replay(s.cache, s.history[s.position..s.position + count]))
    case Refresh(version) =>
      && s.position <= version && s.synced <= version <= |s.history|
      && t == s.(cache := ServerAt(s.history, version), synced := version)
    case Restart(version) =>
      && s.position <= version && s.synced <= version <= |s.history|
      && t == s.(cache := ServerAt(s.history, version), position := version, synced := version)
  }

  ghost predicate Run<Object(!new)>(states: seq<State<Object>>, steps: seq<Step<Object>>) {
    && |states| == |steps| + 1 && states[0] == State([], map[], 0, 0)
    && forall i :: 0 <= i < |steps| ==> Next(states[i], states[i + 1], steps[i])
  }

  /** Every cached resource is the one the watcher has seen or the one of the latest list. */
  ghost predicate Between<Object(!new)>(s: State<Object>) {
    && s.position <= |s.history| && s.synced <= |s.history|
    && forall name :: SameAt(s.cache, ServerAt(s.history, s.position), name)
                      || (s.position < s.synced && SameAt(s.cache, ServerAt(s.history, s.synced), name))
  }

  lemma ServerNext<Object(!new)>(history: seq<Event<Object>>, version: nat)
    requires version < |history|
    ensures ServerAt(history, version + 1) == Apply(ServerAt(history, version), history[version])
  {
    assert history[..version + 1][..version] == history[..version];
  }

  lemma ServerKept<Object(!new)>(history: seq<Event<Object>>, e: Event<Object>, version: nat)
    requires version <= |history|
    ensures ServerAt(history + [e], version) == ServerAt(history, version)
  {
    assert (history + [e])[..version] == history[..version];
  }

  /** One event brings the changed resource to the watcher's version and leaves the others. */
  lemma EventKeepsBetween<Object(!new)>(s: State<Object>)
    requires Between(s) && s.position < |s.history|
    ensures Between(s.(position := s.position + 1, cache := Apply(s.cache, s.history[s.position])))
  {
    ServerNext(s.history, s.position);
    var e, t := s.history[s.position], s.(position := s.position + 1, cache := Apply(s.cache, s.history[s.position]));
    var before, after := ServerAt(s.history, s.position), ServerAt(s.history, s.position + 1);
    forall name
      ensures SameAt(t.cache, after, name)
              || (t.position < t.synced && SameAt(t.cache, ServerAt(t.history, t.synced), name))
    {
      if name != e.name {
        assert SameAt(s.cache, before, name)
               || (s.position < s.synced && SameAt(s.cache, ServerAt(s.history, s.synced), name));
        assert SameAt(after, before, name) && SameAt(t.cache, s.cache, name);
      } else {
        assert SameAt(t.cache, after, name);
      }
    }
  }

  lemma {:induction false} WatchKeepsBetween<Object(!new)>(s: State<Object>, count: nat)
    requires Between(s) && s.position + count <= |s.history|
    ensures Between(s.(position := s.position + count,
                       cache := Replay(s.cache, s.history[s.position..s.position + count])))
    decreases count
  {
    var stretch := s.history[s.position..s.position + count];
    if count == 0 {
      assert stretch == [];
    } else {
      WatchKeepsBetween(s, count - 1);
      assert stretch[..count - 1] == s.history[s.position..s.position + count - 1];
      EventKeepsBetween(s.(position := s.position + count - 1,
                           cache := Replay(s.cache, s.history[s.position..s.position + count - 1])));
    }
  }

  lemma StepKeepsBetween<Object(!new)>(s: State<Object>, t: State<Object>, step: Step<Object>)
    requires Between(s) && Next(s, t, step)
    ensures Between(t)
  {
    match step
    case Change(e) =>
      ServerKept(s.history, e, s.position);
      ServerKept(s.history, e, s.synced);
    case Watch(count) => WatchKeepsBetween(s, count);
    case Refresh(_) =>
    case Restart(_) =>
  }

  /**
   * However lists and events interleave: what the cache says of a name is what its latest change
   * made of it, as of the watcher's position or of the latest list; and once the watcher has
   * reached the position of the latest list, as of that position, for every name.
   */
  lemma {:induction false} CacheConverges<Object(!new)>(states: seq<State<Object>>, steps: seq<Step<Object>>, i: nat)
    requires Run(states, steps) && i < |states|
    ensures Between(states[i])
    ensures var s := states[i];
      && (forall name :: Shows(s.cache, s.history, s.position, name)
                         || (s.position < s.synced && Shows(s.cache, s.history, s.synced, name)))
      && (s.position >= s.synced ==> s.cache == ServerAt(s.history, s.position))
  {
    if i > 0 {
      CacheConverges(states, steps, i - 1);
      StepKeepsBetween(states[i - 1], states[i], steps[i - 1]);
    }
    var s := states[i];
    if s.position >= s.synced {
      var server := ServerAt(s.history, s.position);
      forall name ensures (name in s.cache <==> name in server) && (name in s.cache ==> s.cache[name] == server[name]) {
        assert SameAt(s.cache, server, name);
      }
      assert s.cache == server;
    }
    forall name
      ensures Shows(s.cache, s.history, s.position, name)
              || (s.position < s.synced && Shows(s.cache, s.history, s.synced, name))
    {
      if SameAt(s.cache, ServerAt(s.history, s.position), name) {
        AgreeingShows(s.cache, s.history, s.position, name);
      } else {
        AgreeingShows(s.cache, s.history, s.synced, name);
      }
    }
  }
}
