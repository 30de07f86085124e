/** The visits of `restoreOriginalRQs` and `addResourcesToRQs`, one quota after another. */
module Visits {
  import opened Resources
  import opened Protocol
  import opened Passes
  import opened Quantities
  import opened Records

  // ---------------------------------------------------------------- what a pass over a list does

  /** The state that a pass over a list of originals starts in. */
  datatype Pass = Pass(live: Hards, cache: Hards, hards: seq<QuantityMap>, originals: Hards)

  /** The visit of one quota whose recorded original is `hard`; `ok` means its update did not fail. */
  ghost predicate VisitRestores(n: Name, hard: ResourceList, ok: bool, live0: Hards, cache0: Hards, live: Hards, cache: Hards) {
    if n in cache0 && cache0[n] != hard then
      cache == cache0[n := hard] && live == (if ok then live0[n := hard] else live0) && (ok ==> n in live0)
    else
      ok && cache == cache0 && live == live0
  }

  /** The server and the cache after the visits of `done`. */
  ghost predicate RestoredSo(run: Pass, done: set<Name>, live: Hards, cache: Hards) {
    && live == RestoreLive(run.live, run.cache, Visited(run.originals, done))
    && cache == RestoreCache(run.cache, Visited(run.originals, done))
    && forall n | n in done && n in run.originals && n in run.cache && run.cache[n] != run.originals[n] :: n in run.live
  }

  /** One more visit, which may fail. */
  lemma RestoredOneMore(run: Pass, done: set<Name>, live: Hards, cache: Hards, n: Name, ok: bool, live': Hards, cache': Hards)
    requires RestoredSo(run, done, live, cache) && n in run.originals && n !in done && done <= run.originals.Keys
    requires VisitRestores(n, run.originals[n], ok, live, cache, live', cache')
    ensures ok ==> RestoredSo(run, done + {n}, live', cache')
    ensures !ok ==> RestoringEnds(run, false, done, n, live', cache')
  {
    assert n in cache <==> n in run.cache;
    assert n in live <==> n in run.live;
    assert Visited(run.originals, done + {n}) == Visited(run.originals, done)[n := run.originals[n]];
    VisitAppends(run.live, run.cache, Visited(run.originals, done), n, run.originals[n]);
  }

  lemma VisitAppends(live0: Hards, cache0: Hards, part: Hards, n: Name, hard: ResourceList)
    requires n !in part
    ensures var sends := n in cache0 && cache0[n] != hard; var part' := part[n := hard];
      var live, cache := RestoreLive(live0, cache0, part), RestoreCache(cache0, part);
      (sends && n in live0 ==> RestoreLive(live0, cache0, part') == live[n := hard]) &&
      (!sends ==> RestoreLive(live0, cache0, part') == live) &&
      RestoreCache(cache0, part') == (if sends then cache[n := hard] else cache)
  {
  }

  lemma NothingRestored(run: Pass)
    ensures RestoredSo(run, {}, run.live, run.cache)
  {
    assert Visited(run.originals, {}) == map[];
  }

  /** A run over the whole list, or one that stopped at the failed update of `failed`: then the
      cache has the value that the server does not have. */
  ghost predicate RestoringEnds(run: Pass, ok: bool, done: set<Name>, failed: Name, live: Hards, cache: Hards) {
    if ok then
      done == run.originals.Keys && RestoredSo(run, done, live, cache)
    else
      && done <= run.originals.Keys && failed in run.originals.Keys - done
      && exists before :: RestoredSo(run, done, live, before) &&
           failed in before && before[failed] != run.originals[failed] && cache == before[failed := run.originals[failed]]
  }

  /** The visit of one quota by `addResourcesToRQs`. */
  ghost predicate VisitRaises(n: Name, hard: ResourceList, add: ResourceList, ok: bool,
                              live0: Hards, cache0: Hards, live: Hards, cache: Hards) {
    if n in cache0 && cache0[n] == hard then
      var more := Plus(hard, add);
      cache == cache0[n := more] && live == (if ok then live0[n := more] else live0) && (ok ==> n in live0)
    else
      ok && cache == cache0 && live == live0
  }

  ghost predicate RaisedSo(run: Pass, add: ResourceList, done: set<Name>, live: Hards, cache: Hards) {
    && live == BoostLive(run.live, run.cache, Visited(run.originals, done), add)
    && cache == BoostCache(run.cache, Visited(run.originals, done), add)
    && forall n | n in done && n in run.originals && n in run.cache && run.cache[n] == run.originals[n] :: n in run.live
  }

  ghost predicate RaisingEnds(run: Pass, add: ResourceList, ok: bool, done: set<Name>, failed: Name, live: Hards, cache: Hards) {
    if ok then
      done == run.originals.Keys && RaisedSo(run, add, done, live, cache)
    else
      && done <= run.originals.Keys && failed in run.originals.Keys - done
      && exists before :: RaisedSo(run, add, done, live, before) &&
           failed in before && before[failed] == run.originals[failed] && cache == before[failed := Plus(run.originals[failed], add)]
  }

  lemma RaisedOneMore(run: Pass, add: ResourceList, done: set<Name>, live: Hards, cache: Hards,
                      n: Name, ok: bool, live': Hards, cache': Hards)
    requires RaisedSo(run, add, done, live, cache) && n in run.originals && n !in done && done <= run.originals.Keys
    requires VisitRaises(n, run.originals[n], add, ok, live, cache, live', cache')
    ensures ok ==> RaisedSo(run, add, done + {n}, live', cache')
    ensures !ok ==> RaisingEnds(run, add, false, done, n, live', cache')
  {
    assert n in cache <==> n in run.cache;
    assert n in live <==> n in run.live;
    assert Visited(run.originals, done + {n}) == Visited(run.originals, done)[n := run.originals[n]];
    RaiseAppends(run.live, run.cache, Visited(run.originals, done), n, run.originals[n], add);
    RaiseAppendsCached(run.cache, Visited(run.originals, done), n, run.originals[n], add);
  }

  lemma RaiseAppends(live0: Hards, cache0: Hards, part: Hards, n: Name, hard: ResourceList, add: ResourceList)
    requires n !in part
    ensures var sends := n in cache0 && cache0[n] == hard; var live := BoostLive(live0, cache0, part, add);
      (sends && n in live0 ==> BoostLive(live0, cache0, part[n := hard], add) == live[n := Plus(hard, add)]) &&
      (!sends ==> BoostLive(live0, cache0, part[n := hard], add) == live)
  {
  }

  lemma RaiseAppendsCached(cache0: Hards, part: Hards, n: Name, hard: ResourceList, add: ResourceList)
    requires n !in part
    ensures BoostCache(cache0, part[n := hard], add) ==
            (if n in cache0 && cache0[n] == hard then BoostCache(cache0, part, add)[n := Plus(hard, add)] else BoostCache(cache0, part, add))
  {
  }

  lemma NothingRaised(run: Pass, add: ResourceList)
    ensures RaisedSo(run, add, {}, run.live, run.cache)
  {
    assert Visited(run.originals, {}) == map[];
  }

  /** The next entry of a list is a new name. */
  lemma NextName(list: seq<NameAndSpec>, i: nat)
    requires UniqueNames(list) && i < |list|
    ensures NamesIn(list[..i + 1]) == NamesIn(list[..i]) + {list[i].name}
    ensures list[i].name in NamesIn(list) - NamesIn(list[..i]) && NamesIn(list[..i]) <= NamesIn(list)
  {
    assert list[..i + 1] == list[..i] + [list[i]];
    assert list[i] in list;
    forall o | o in list[..i] ensures o in list {}
  }

  lemma EachRecorded(list: seq<NameAndSpec>)
    requires UniqueNames(list)
    ensures Originals(list).Keys == NamesIn(list) && (list != [] <==> Originals(list) != map[])
    ensures forall k | 0 <= k < |list| :: list[k].name in Originals(list) && Originals(list)[list[k].name] == list[k].hard.m
  {
    if list != [] { assert list[0].name in Originals(list); }
    forall k | 0 <= k < |list| ensures list[k].name in Originals(list) && Originals(list)[list[k].name] == list[k].hard.m {
      assert list[k] in list;
    }
  }

  /** The entries of a list that another list has no entry for. */
  lemma SelectedEntries(selected: seq<NameAndSpec>, list: seq<NameAndSpec>, others: set<Name>)
    requires UniqueNames(list) && OwnMaps(list) && UniqueNames(selected)
    requires forall o :: o in selected <==> o in list && o.name !in others
    ensures OwnMaps(selected) && NamesIn(selected) == Visited(Originals(list), NamesIn(list) - others).Keys
    ensures forall k | 0 <= k < |selected| ::
      selected[k].name in Originals(list) && selected[k].hard.m == Originals(list)[selected[k].name]
  {
    EachRecorded(list);
    forall k | 0 <= k < |selected| ensures selected[k] in list { assert selected[k] in selected; }
    forall n | n in Visited(Originals(list), NamesIn(list) - others).Keys ensures n in NamesIn(selected) {
      var k :| 0 <= k < |list| && list[k].name == n;
      assert list[k] in selected;
    }
  }

  lemma SelectedMaps(selected: seq<NameAndSpec>, list: seq<NameAndSpec>)
    requires forall o | o in selected :: o in list
    ensures MapsIn(selected) <= MapsIn(list) && forall k | 0 <= k < |selected| :: selected[k] in list
  {
    forall k | 0 <= k < |selected| ensures selected[k] in list { assert selected[k] in selected; }
  }

  // ---------------------------------------------------------------- the cache, by position

  ghost function Values(store: seq<ResourceQuota>): (values: seq<ResourceList>)
    reads store, MapsOf(store)
    ensures |values| == |store| && forall i | 0 <= i < |store| :: values[i] == store[i].hard.m
  {
    seq(|store|, i requires 0 <= i < |store| reads store, MapsOf(store) => assert store[i] in store; store[i].hard.m)
  }

  ghost function Zipped(ids: seq<Name>, values: seq<ResourceList>): Hards
    requires |ids| == |values| && NoDups(ids)
  {
    map i | 0 <= i < |ids| :: ids[i] := values[i]
  }

  lemma CacheIs(store: seq<ResourceQuota>)
    requires StoreOk(store)
    ensures NoDups(Ids(store)) && CacheOf(store) == Zipped(Ids(store), Values(store))
  {
  }

  lemma OneValue(ids: seq<Name>, values: seq<ResourceList>, i: nat, hard: ResourceList)
    requires i < |ids| == |values| && NoDups(ids)
    ensures Zipped(ids, values[i := hard]) == Zipped(ids, values)[ids[i] := hard]
  {
  }

  /** Assigns the map of one cached quota. */
  method SetHard(store: seq<ResourceQuota>, i: nat, hard: QuantityMap)
    requires StoreOk(store) && i < |store| && forall j | 0 <= j < |store| :: store[j].hard != hard
    modifies {store[i]}`hard
    ensures StoreOk(store) && store[i].hard == hard
    ensures forall j | 0 <= j < |store| && j != i :: store[j].hard == old(store[j].hard)
    ensures CacheOf(store) == old(CacheOf(store))[store[i].name := hard.m]
  {
    CacheIs(store);
    ghost var before := Values(store);
    store[i].hard := hard;
    assert Values(store) == before[i := hard.m];
    CacheIs(store);
    OneValue(Ids(store), before, i, hard.m);
  }

  /** Raises the map of one cached quota in place. */
  method RaiseHard(store: seq<ResourceQuota>, i: nat, add: ResourceList)
    requires StoreOk(store) && i < |store|
    modifies {store[i].hard}`m
    ensures store[i].name in old(CacheOf(store)) && store[i].name in CacheOf(store)
    ensures CacheOf(store) == old(CacheOf(store))[store[i].name := Plus(old(CacheOf(store))[store[i].name], add)]
    ensures CacheOf(store)[store[i].name] == store[i].hard.m
  {
    CacheIs(store);
    ghost var before := Values(store);
    AddResourcesToRQ(store[i].hard, add);
    assert Values(store) == before[i := Plus(before[i], add)];
    CacheIs(store);
    OneValue(Ids(store), before, i, Plus(before[i], add));
  }
}
