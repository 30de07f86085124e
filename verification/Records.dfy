/** The loops of vmmrq-controller.go over quotas and recorded originals, on the objects they
    run on: hard maps are references, and a new record shares the cached quota's map. */
module Records {
  import opened Resources
  import opened Quantities
  import opened Protocol

  // ---------------------------------------------------------------- objects

  /** A quota in the informer's store. The check's view of it is fixed while a reconcile runs. */
  class ResourceQuota {
    const name: Name
    var hard: QuantityMap
    const seen: Seen

    constructor (name: Name, hard: QuantityMap, seen: Seen)
      ensures this.name == name && this.hard == hard && this.seen == seen
    {
      this.name := name;
      this.hard := hard;
      this.seen := seen;
    }
  }

  /** An entry of OriginalBlockingResourceQuotas in memory. */
  datatype NameAndSpec = NameAndSpec(name: Name, hard: QuantityMap)

  ghost predicate UniqueNames(list: seq<NameAndSpec>) {
    forall i, j | 0 <= i < j < |list| :: list[i].name != list[j].name
  }

  /** Every entry has a map of its own. */
  ghost predicate OwnMaps(list: seq<NameAndSpec>) {
    forall i, j | 0 <= i < j < |list| :: list[i].hard != list[j].hard
  }

  ghost function NamesIn(list: seq<NameAndSpec>): set<Name> {
    set o | o in list :: o.name
  }

  /** The maps that a list of originals refers to. */
  ghost function MapsIn(list: seq<NameAndSpec>): set<QuantityMap> {
    set o | o in list :: o.hard
  }

  ghost function Originals(list: seq<NameAndSpec>): map<Name, ResourceList>
    requires UniqueNames(list)
    reads MapsIn(list)`m
  {
    map o | o in list :: o.name := o.hard.m
  }

  /** Cached quotas have their own names and their own maps. */
  ghost predicate StoreOk(store: seq<ResourceQuota>)
    reads store`hard
  {
    forall i, j | 0 <= i < j < |store| :: store[i].name != store[j].name && store[i].hard != store[j].hard
  }

  ghost function MapsOf(store: seq<ResourceQuota>): set<QuantityMap>
    reads store`hard
  {
    set q | q in store :: q.hard
  }

  ghost function CacheOf(store: seq<ResourceQuota>): map<Name, ResourceList>
    requires StoreOk(store)
    reads store`hard, MapsOf(store)`m
  {
    map q | q in store :: q.name := q.hard.m
  }

  /** The maps themselves, by quota name. */
  ghost function Shared(store: seq<ResourceQuota>): map<Name, QuantityMap>
    requires StoreOk(store)
    reads store`hard
  {
    map q | q in store :: q.name := q.hard
  }

  /** What the check sees of each quota beside spec.hard. */
  ghost function SeenOf(store: seq<ResourceQuota>): map<Name, Seen>
    requires forall i, j | 0 <= i < j < |store| :: store[i].name != store[j].name
  {
    map q | q in store :: q.name := q.seen
  }

  ghost function Sets(migrations: map<Name, seq<Name>>): map<Name, set<Name>> {
    map k | k in migrations :: set n | n in migrations[k]
  }

  // ---------------------------------------------------------------- flatStringToStringMapNoDups

  predicate NoDups(names: seq<Name>) {
    forall i, j | 0 <= i < j < |names| :: names[i] != names[j]
  }

  /** No recorded list names a quota twice; the lists that the controller records never do. */
  predicate Tidy(migrations: map<Name, seq<Name>>) {
    forall k | k in migrations :: NoDups(migrations[k])
  }

  method FlatStringToStringMapNoDups(m: map<Name, seq<Name>>) returns (flat: seq<Name>)
    ensures NoDups(flat)
    ensures forall n :: n in flat <==> n in Flat(Sets(m))
  {
    var stringFound: map<Name, bool> := map[];
    var keys := m.Keys;
    while keys != {}
      invariant keys <= m.Keys
      invariant forall n :: n in stringFound <==> exists k | k in m && k !in keys :: n in m[k]
      decreases keys
    {
      var key :| key in keys;
      var s := m[key];
      ghost var before := stringFound;
      for i := 0 to |s|
        invariant forall n :: n in stringFound <==> n in before || n in s[..i]
      {
        stringFound := stringFound[s[i] := true];
      }
      assert s[..|s|] == s;
      keys := keys - {key};
    }
    forall n ensures n in stringFound <==> n in Flat(Sets(m)) {
      if n in stringFound {
        var k :| k in m && n in m[k];
        assert n in Sets(m)[k];
      }
    }
    flat := [];
    var left := stringFound.Keys;
    while left != {}
      invariant left <= stringFound.Keys && NoDups(flat)
      invariant forall n :: n in flat <==> n in stringFound && n !in left
      decreases left
    {
      var rq :| rq in left;
      flat := flat + [rq];
      left := left - {rq};
    }
  }

  // ---------------------------------------------------------------- getRQNameAndSpecIfExist

  datatype Found = Nothing | Copy(original: NameAndSpec)

  /** A deep copy of the recorded original: its map is nobody else's. */
  method GetRQNameAndSpecIfExist(list: seq<NameAndSpec>, name: Name) returns (found: Found)
    requires UniqueNames(list)
    ensures found.Copy? <==> name in NamesIn(list)
    ensures found.Copy? ==> found.original.name == name && fresh(found.original.hard) &&
                            name in Originals(list) && found.original.hard.m == Originals(list)[name]
  {
    for i := 0 to |list|
      invariant forall j | 0 <= j < i :: list[j].name != name
    {
      if list[i].name == name {
        var hard := new QuantityMap(list[i].hard.m);
        return Copy(NameAndSpec(name, hard));
      }
    }
    found := Nothing;
  }

  // ---------------------------------------------------------------- getRQListToRestore

  /** Recorded before and not any more, in order, the very same entries. */
  method GetRQListToRestore(curr: seq<NameAndSpec>, prev: seq<NameAndSpec>) returns (toRestore: seq<NameAndSpec>)
    requires UniqueNames(prev)
    ensures UniqueNames(toRestore)
    ensures forall o :: o in toRestore <==> o in prev && o.name !in NamesIn(curr)
  {
    toRestore := [];
    for i := 0 to |prev|
      invariant UniqueNames(toRestore)
      invariant forall o :: o in toRestore <==> o in prev[..i] && o.name !in NamesIn(curr)
    {
      var found := false;
      for j := 0 to |curr|
        invariant found <==> exists k | 0 <= k < j :: curr[k].name == prev[i].name
      {
        if curr[j].name == prev[i].name { found := true; }
      }
      if !found {
        toRestore := toRestore + [prev[i]];
      }
    }
    assert prev[..|prev|] == prev;
  }

  // ---------------------------------------------------------------- getAllBlockingRQsInNS

  /** The cached quotas of that name: at most one, and its map is not copied. */
  method Snapshots(store: seq<ResourceQuota>, blockingRQ: Name) returns (found: seq<NameAndSpec>)
    requires StoreOk(store)
    ensures |found| <= 1 && (found != [] <==> blockingRQ in CacheOf(store))
    ensures found != [] ==> found[0] == NameAndSpec(blockingRQ, Shared(store)[blockingRQ])
  {
    found := [];
    for j := 0 to |store|
      invariant |found| <= 1
      invariant found == [] ==> forall k | 0 <= k < j :: store[k].name != blockingRQ
      invariant found != [] ==> exists k | 0 <= k < j :: store[k].name == blockingRQ && found == [NameAndSpec(blockingRQ, store[k].hard)]
    {
      if store[j].name == blockingRQ {
        found := found + [NameAndSpec(store[j].name, store[j].hard)];
      }
    }
  }

  /** What the original of quota `n` is going to be, if it has one. */
  ghost predicate GoalAt(goal: map<Name, ResourceList>, originals: seq<NameAndSpec>, store: seq<ResourceQuota>, n: Name)
    requires UniqueNames(originals) && StoreOk(store)
    reads MapsIn(originals)`m, store`hard, MapsOf(store)`m
  {
    if n in Originals(originals) then n in goal && goal[n] == Originals(originals)[n]
    else if n in CacheOf(store) then n in goal && goal[n] == CacheOf(store)[n]
    else n !in goal
  }

  /** An entry of the new list: a recorded one is a copy, a new one shares the cached map. */
  ghost predicate Entry(o: NameAndSpec, recorded: set<Name>, shared: map<Name, QuantityMap>) {
    o.name !in recorded ==> o.name in shared && o.hard == shared[o.name]
  }

  /** A good entry for its name. */
  ghost predicate Good(o: NameAndSpec, goal: map<Name, ResourceList>, recorded: set<Name>, shared: map<Name, QuantityMap>)
    reads o.hard`m
  {
    o.name in goal && o.hard.m == goal[o.name] && Entry(o, recorded, shared)
  }

  method OneOriginal(originals: seq<NameAndSpec>, store: seq<ResourceQuota>, blockingRQ: Name, ghost goal: map<Name, ResourceList>)
      returns (found: seq<NameAndSpec>)
    requires UniqueNames(originals) && StoreOk(store) && GoalAt(goal, originals, store, blockingRQ)
    ensures |found| <= 1 && (found != [] <==> blockingRQ in goal)
    ensures found != [] ==> found[0].name == blockingRQ && Good(found[0], goal, NamesIn(originals), Shared(store))
    ensures found != [] && blockingRQ in NamesIn(originals) ==> fresh(found[0].hard)
  {
    var recorded := GetRQNameAndSpecIfExist(originals, blockingRQ);
    if recorded.Copy? {
      found := [recorded.original];
    } else {
      found := Snapshots(store, blockingRQ);
    }
  }

  method CollectOriginals(names: seq<Name>, originals: seq<NameAndSpec>, store: seq<ResourceQuota>, ghost goal: map<Name, ResourceList>)
      returns (all: seq<NameAndSpec>)
    requires NoDups(names) && UniqueNames(originals) && StoreOk(store)
    requires forall i | 0 <= i < |names| :: GoalAt(goal, originals, store, names[i])
    ensures UniqueNames(all)
    ensures forall j | 0 <= j < |all| :: Good(all[j], goal, NamesIn(originals), Shared(store))
    ensures forall j | 0 <= j < |all| && all[j].name in NamesIn(originals) :: fresh(all[j].hard)
    ensures forall n | n in names && n in goal :: n in NamesIn(all)
  {
    all := [];
    ghost var recorded, shared := NamesIn(originals), Shared(store);
    ghost var made: set<QuantityMap> := {};
    var i := 0;
    while i < |names|
      invariant 0 <= i <= |names|
      invariant fresh(made) && AllGood(all, goal, recorded, shared, made)
      invariant Collected(all, names, i, goal)
    {
      var found := OneOriginal(originals, store, names[i], goal);
      CollectedStep(all, found, names, i, goal);
      ghost var more := if found != [] && names[i] in recorded then {found[0].hard} else {};
      GoodStep(all, found, goal, recorded, shared, made, made + more);
      made := made + more;
      all := all + found;
      i := i + 1;
    }
  }

  ghost predicate AllGood(all: seq<NameAndSpec>, goal: map<Name, ResourceList>, recorded: set<Name>,
                          shared: map<Name, QuantityMap>, made: set<QuantityMap>)
    reads MapsIn(all)`m
  {
    forall j | 0 <= j < |all| :: Good(all[j], goal, recorded, shared) && (all[j].name in recorded ==> all[j].hard in made)
  }

  lemma GoodStep(all: seq<NameAndSpec>, found: seq<NameAndSpec>, goal: map<Name, ResourceList>, recorded: set<Name>,
                 shared: map<Name, QuantityMap>, made: set<QuantityMap>, more: set<QuantityMap>)
    requires AllGood(all, goal, recorded, shared, made) && AllGood(found, goal, recorded, shared, more) && made <= more
    ensures AllGood(all + found, goal, recorded, shared, more)
  {
  }

  /** The entries are those of the first `i` names that have one. */
  ghost predicate Collected(all: seq<NameAndSpec>, names: seq<Name>, i: nat, goal: map<Name, ResourceList>)
    requires i <= |names|
  {
    && UniqueNames(all)
    && (forall j, k | 0 <= j < |all| && i <= k < |names| :: all[j].name != names[k])
    && (forall k | 0 <= k < i && names[k] in goal :: names[k] in NamesIn(all))
  }

  lemma CollectedStep(all: seq<NameAndSpec>, found: seq<NameAndSpec>, names: seq<Name>, i: nat, goal: map<Name, ResourceList>)
    requires NoDups(names) && i < |names| && Collected(all, names, i, goal)
    requires |found| <= 1 && (found != [] <==> names[i] in goal) && (found != [] ==> found[0].name == names[i])
    ensures Collected(all + found, names, i + 1, goal)
  {
    NamesGrow(all, found);
    if found != [] { assert found[0] in found; }
  }

  lemma NamesGrow(list: seq<NameAndSpec>, more: seq<NameAndSpec>)
    ensures NamesIn(list + more) == NamesIn(list) + NamesIn(more)
  {
  }

  lemma GoalsAt(prev: Status, migrations: map<Name, set<Name>>, originals: seq<NameAndSpec>, store: seq<ResourceQuota>, n: Name)
    requires UniqueNames(originals) && StoreOk(store) && prev.originals == Originals(originals) && n in Flat(migrations)
    ensures GoalAt(NextOriginals(prev, migrations, CacheOf(store)), originals, store, n)
  {
  }

  /** The originals of every quota that some recorded migration names: what was recorded stays,
      as a copy; what was not is a snapshot that shares the cached quota's map. */
  method GetAllBlockingRQsInNS(migrations: map<Name, seq<Name>>, originals: seq<NameAndSpec>, store: seq<ResourceQuota>,
                               ghost prev: Status, ghost cache: map<Name, ResourceList>)
      returns (all: seq<NameAndSpec>)
    requires UniqueNames(originals) && StoreOk(store) && prev.originals == Originals(originals) && cache == CacheOf(store)
    ensures UniqueNames(all)
    ensures Originals(all) == NextOriginals(prev, Sets(migrations), cache)
    ensures forall j | 0 <= j < |all| :: Entry(all[j], NamesIn(originals), Shared(store))
    ensures forall j | 0 <= j < |all| && all[j].name in NamesIn(originals) :: fresh(all[j].hard)
  {
    var names := FlatStringToStringMapNoDups(migrations);
    ghost var goal := NextOriginals(prev, Sets(migrations), cache);
    forall i | 0 <= i < |names| ensures GoalAt(goal, originals, store, names[i]) {
      GoalsAt(prev, Sets(migrations), originals, store, names[i]);
    }
    all := CollectOriginals(names, originals, store, goal);
    CollectedAll(all, goal);
  }

  lemma CollectedAll(all: seq<NameAndSpec>, goal: map<Name, ResourceList>)
    requires UniqueNames(all) && goal.Keys <= NamesIn(all)
    requires forall j | 0 <= j < |all| :: all[j].name in goal && all[j].hard.m == goal[all[j].name]
    ensures Originals(all) == goal
  {
    assert Originals(all).Keys == NamesIn(all);
  }

  // ---------------------------------------------------------------- getCurrBlockingRQInNS

  /** The quota as the decision sees it. */
  ghost predicate Viewed(q: ResourceQuota, cache: map<Name, ResourceList>, b: Migration)
    reads q`hard, q.hard`m
  {
    b.Blocked? && q.name in cache && cache[q.name] == q.hard.m && q.name in b.seen && b.seen[q.name] == q.seen
  }

  /** The two checks of one quota, on a deep copy, which the second one raises in place. */
  method CheckTwice(q: ResourceQuota, originals: seq<NameAndSpec>, request: ResourceList, rl: ResourceList,
                    ghost b: Migration, ghost cache: map<Name, ResourceList>, ghost recorded: map<Name, ResourceList>)
      returns (current: Verdict, modified: Verdict)
    requires UniqueNames(originals) && recorded == Originals(originals) && Viewed(q, cache, b) && b.request == request
    ensures current == AtBase(q.name, recorded, b)
    ensures modified == AfterAddition(q.name, cache, recorded, b, rl)
  {
    var specHard := new QuantityMap(q.hard.m);
    var statusHard := q.seen.statusHard;
    var original := GetRQNameAndSpecIfExist(originals, q.name);
    if original.Copy? {
      specHard, statusHard := original.original.hard, original.original.hard.m;
    }
    current := Check(q.seen.scope, statusHard, q.seen.used, request);
    AddResourcesToRQ(specHard, rl);
    modified := Check(q.seen.bare, specHard.m, q.seen.used, request);
  }

  /** The cached quotas' names, in cache order. */
  ghost function Ids(store: seq<ResourceQuota>): (ids: seq<Name>)
    ensures |ids| == |store| && forall i | 0 <= i < |ids| :: ids[i] == store[i].name
  {
    seq(|store|, i requires 0 <= i < |store| => store[i].name)
  }

  predicate Releases(n: Name, cache: map<Name, ResourceList>, recorded: map<Name, ResourceList>, b: Migration, rl: ResourceList)
    requires b.Blocked? && n in b.seen && n in cache
  {
    AtBase(n, recorded, b) == Exceeded && AfterAddition(n, cache, recorded, b, rl) == Admitted
  }

  /** The loop after `i` quotas: none stays exceeded, and `names` are those that are released. */
  ghost predicate Gathered(names: seq<Name>, ids: seq<Name>, i: nat, cache: map<Name, ResourceList>,
                           recorded: map<Name, ResourceList>, b: Migration, rl: ResourceList)
    requires i <= |ids| && b.Blocked? && forall n | n in ids :: n in cache && n in b.seen
  {
    && NoDups(names)
    && (forall j | 0 <= j < i :: AfterAddition(ids[j], cache, recorded, b, rl) != Exceeded)
    && (forall j | 0 <= j < i && Releases(ids[j], cache, recorded, b, rl) :: ids[j] in names)
    && (forall n | n in names :: exists j :: 0 <= j < i && ids[j] == n && Releases(ids[j], cache, recorded, b, rl))
  }

  lemma GatheredStep(names: seq<Name>, ids: seq<Name>, i: nat, cache: map<Name, ResourceList>,
                     recorded: map<Name, ResourceList>, b: Migration, rl: ResourceList)
    requires i < |ids| && NoDups(ids) && b.Blocked? && forall n | n in ids :: n in cache && n in b.seen
    requires Gathered(names, ids, i, cache, recorded, b, rl) && AfterAddition(ids[i], cache, recorded, b, rl) != Exceeded
    ensures Gathered(if Releases(ids[i], cache, recorded, b, rl) then names + [ids[i]] else names, ids, i + 1, cache, recorded, b, rl)
  {
    assert ids[i] !in names;
  }

  lemma GatheredAll(names: seq<Name>, ids: seq<Name>, cache: map<Name, ResourceList>,
                    recorded: map<Name, ResourceList>, b: Migration, rl: ResourceList)
    requires b.Blocked? && cache.Keys <= b.seen.Keys && (forall n :: n in ids <==> n in cache)
    requires Gathered(names, ids, |ids|, cache, recorded, b, rl)
    ensures forall n :: n in names <==> n in BlockingNames(cache, recorded, b, rl)
  {
    forall n | n in cache ensures AfterAddition(n, cache, recorded, b, rl) != Exceeded {
      var j :| 0 <= j < |ids| && ids[j] == n;
    }
    forall n | n in BlockingNames(cache, recorded, b, rl) ensures n in names {
      var j :| 0 <= j < |ids| && ids[j] == n;
      assert Releases(ids[j], cache, recorded, b, rl);
    }
  }

  /** One quota of the loop. */
  method GatherOne(names: seq<Name>, store: seq<ResourceQuota>, i: nat, originals: seq<NameAndSpec>,
                   request: ResourceList, rl: ResourceList,
                   ghost b: Migration, ghost cache: map<Name, ResourceList>, ghost recorded: map<Name, ResourceList>)
      returns (more: seq<Name>, exceeded: bool)
    requires UniqueNames(originals) && recorded == Originals(originals) && NoDups(Ids(store)) && i < |store|
    requires b.Blocked? && b.request == request && Viewed(store[i], cache, b)
    requires forall n | n in Ids(store) :: n in cache && n in b.seen
    requires Gathered(names, Ids(store), i, cache, recorded, b, rl)
    ensures exceeded <==> AfterAddition(Ids(store)[i], cache, recorded, b, rl) == Exceeded
    ensures !exceeded ==> Gathered(more, Ids(store), i + 1, cache, recorded, b, rl)
  {
    more, exceeded := names, false;
    var current, modified := CheckTwice(store[i], originals, request, rl, b, cache, recorded);
    if modified != Exceeded { GatheredStep(names, Ids(store), i, cache, recorded, b, rl); }
    if current == Exceeded && modified == Admitted {
      more := names + [store[i].name];
    } else if modified == Exceeded {
      exceeded := true;
    }
  }

  /** The blocking list, in cache order; as a set it does not depend on that order. */
  method GetCurrBlockingRQInNS(store: seq<ResourceQuota>, originals: seq<NameAndSpec>, request: ResourceList, rl: ResourceList,
                               ghost b: Migration, ghost cache: map<Name, ResourceList>, ghost recorded: map<Name, ResourceList>)
      returns (names: seq<Name>)
    requires UniqueNames(originals) && recorded == Originals(originals) && NoDups(Ids(store))
    requires b.Blocked? && b.request == request && cache.Keys <= b.seen.Keys
    requires forall i | 0 <= i < |store| :: Viewed(store[i], cache, b)
    requires forall n :: n in cache <==> n in Ids(store)
    ensures NoDups(names)
    ensures forall n :: n in names <==> n in BlockingNames(cache, recorded, b, rl)
  {
    names := [];
    for i := 0 to |store|
      invariant Gathered(names, Ids(store), i, cache, recorded, b, rl)
    {
      var exceeded;
      names, exceeded := GatherOne(names, store, i, originals, request, rl, b, cache, recorded);
      if exceeded {
        assert Ids(store)[i] in Ids(store);
        return [];
      }
    }
    GatheredAll(names, Ids(store), cache, recorded, b, rl);
  }
}
