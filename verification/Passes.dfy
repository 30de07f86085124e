/** What one run of `restoreOriginalRQs` or `addResourcesToRQs` does to the quotas, and why
    retrying them converges. A run looks at the informer's cache and writes to the server. */
module Passes {
  import opened Resources
  import opened Protocol

  type Hards = map<Name, ResourceList>

  /** The server after a restoring run over `originals`. */
  function RestoreLive(live: Hards, cache: Hards, originals: Hards): Hards {
    map n | n in live :: if n in originals && n in cache && cache[n] != originals[n] then originals[n] else live[n]
  }

  function RestoreCache(cache: Hards, originals: Hards): Hards {
    map n | n in cache :: if n in originals then originals[n] else cache[n]
  }

  /** The server after a raising run over `originals`. */
  function BoostLive(live: Hards, cache: Hards, originals: Hards, add: ResourceList): Hards {
    map n | n in live :: if n in originals && n in cache && cache[n] == originals[n] then Plus(cache[n], add) else live[n]
  }

  function BoostCache(cache: Hards, originals: Hards, add: ResourceList): Hards {
    map n | n in cache :: if n in originals && cache[n] == originals[n] then Plus(cache[n], add) else cache[n]
  }

  /** The part of the list that a run got through before an update failed. */
  function Visited(originals: Hards, names: set<Name>): Hards {
    map n | n in originals && n in names :: originals[n]
  }

  // ---------------------------------------------------------------- retries

  /** The server after partial restoring runs, each over its own part of the list, with the
      cache caught up before each. */
  function RestoreTries(live: Hards, originals: Hards, tries: seq<set<Name>>): Hards {
    if tries == [] then live
    else RestoreTries(RestoreLive(live, live, Visited(originals, tries[0])), originals, tries[1..])
  }

  /** Retry convergence of restoring: any number of failed runs and then a full one do what one
      full run does, and leave nothing for another to do. */
  lemma {:induction false} RestoreConverges(live: Hards, originals: Hards, tries: seq<set<Name>>)
    ensures var tried := RestoreTries(live, originals, tries);
      var full := RestoreLive(live, live, originals);
      RestoreLive(tried, tried, originals) == full && RestoreLive(full, full, originals) == full
  {
    if tries != [] {
      var next := RestoreLive(live, live, Visited(originals, tries[0]));
      RestoreConverges(next, originals, tries[1..]);
      assert RestoreLive(next, next, originals) == RestoreLive(live, live, originals);
    }
  }

  function BoostTries(live: Hards, originals: Hards, add: ResourceList, tries: seq<set<Name>>): Hards {
    if tries == [] then live
    else BoostTries(BoostLive(live, live, Visited(originals, tries[0]), add), originals, add, tries[1..])
  }

  lemma BoostTwice(live: Hards, originals: Hards, names: set<Name>, add: ResourceList)
    ensures var next := BoostLive(live, live, Visited(originals, names), add);
      BoostLive(next, next, originals, add) == BoostLive(live, live, originals, add)
  {
    var next := BoostLive(live, live, Visited(originals, names), add);
    forall n | n in live
      ensures BoostLive(next, next, originals, add)[n] == BoostLive(live, live, originals, add)[n]
    {
      PlusTwice(live[n], add);
    }
  }

  /** Retry convergence of raising: no quota is ever raised twice. */
  lemma {:induction false} BoostConverges(live: Hards, originals: Hards, add: ResourceList, tries: seq<set<Name>>)
    ensures var tried := BoostTries(live, originals, add, tries);
      var full := BoostLive(live, live, originals, add);
      BoostLive(tried, tried, originals, add) == full && BoostLive(full, full, originals, add) == full
  {
    if tries == [] {
      BoostTwice(live, originals, originals.Keys, add);
      assert Visited(originals, originals.Keys) == originals;
    } else {
      var next := BoostLive(live, live, Visited(originals, tries[0]), add);
      BoostConverges(next, originals, add, tries[1..]);
      BoostTwice(live, originals, tries[0], add);
    }
  }

  /** Restoring after raising, even after failed tries of raising, gives the recorded quotas back. */
  lemma {:induction false} RestoreUndoesBoost(live: Hards, originals: Hards, add: ResourceList, tries: seq<set<Name>>)
    requires forall n | n in live && n in originals :: live[n] == originals[n]
    ensures var boosted := BoostTries(live, originals, add, tries);
      RestoreLive(boosted, boosted, originals) == live
  {
    BoostTriesStay(live, originals, add, tries);
  }

  lemma {:induction false} BoostTriesStay(live: Hards, originals: Hards, add: ResourceList, tries: seq<set<Name>>)
    ensures var boosted := BoostTries(live, originals, add, tries);
      boosted.Keys == live.Keys && forall n | n in live && n !in originals :: boosted[n] == live[n]
  {
    if tries != [] {
      BoostTriesStay(BoostLive(live, live, Visited(originals, tries[0]), add), originals, add, tries[1..]);
    }
  }

  // ---------------------------------------------------------------- a cache that lags behind

  /** Every recorded quota that is off its original is in the cache, and is off there too. */
  predicate LoansAreSeen(live: Hards, cache: Hards, originals: Hards) {
    forall n | n in originals && n in live && live[n] != originals[n] :: n in cache && cache[n] != originals[n]
  }

  /** A restoring run over a cache that may lag behind gives every recorded quota back exactly
      when the cache shows every loan: a quota that it does not hold, or that looks restored in
      it, is skipped. */
  lemma RestoreUnderLag(live: Hards, cache: Hards, originals: Hards)
    ensures (forall n | n in originals && n in live :: RestoreLive(live, cache, originals)[n] == originals[n]) <==>
            LoansAreSeen(live, cache, originals)
  {
    forall n | n in originals && n in live
      ensures RestoreLive(live, cache, originals)[n] == originals[n] <==>
              (live[n] != originals[n] ==> n in cache && cache[n] != originals[n])
    {
    }
  }

  /** Every recorded quota that is at its original, and would be changed by the addition, is in the
      cache, and is at its original there too. */
  predicate BasesAreSeen(live: Hards, cache: Hards, originals: Hards, add: ResourceList) {
    forall n | n in originals && n in live && live[n] == originals[n] && Plus(originals[n], add) != originals[n] ::
      n in cache && cache[n] == originals[n]
  }

  /** A raising run over a cache that may lag behind raises every recorded quota that is at its
      original exactly when the cache shows them there: a quota that it does not hold, or that looks
      raised in it, is skipped. */
  lemma RaiseUnderLag(live: Hards, cache: Hards, originals: Hards, add: ResourceList)
    ensures (forall n | n in originals && n in live && live[n] == originals[n] ::
               BoostLive(live, cache, originals, add)[n] == Plus(originals[n], add)) <==>
            BasesAreSeen(live, cache, originals, add)
  {
    forall n | n in originals && n in live && live[n] == originals[n]
      ensures BoostLive(live, cache, originals, add)[n] == Plus(originals[n], add) <==>
              (Plus(originals[n], add) != originals[n] ==> n in cache && cache[n] == originals[n])
    {
    }
  }

  // ---------------------------------------------------------------- one visit of a run

  /** Restoring one quota of the part first, and the rest after it. */
  lemma RestoreMapsOneMore(live: Hards, cache: Hards, originals: Hards, n: Name, names: set<Name>)
    requires n in names && n in originals && (n in cache && cache[n] != originals[n] ==> n in live)
    ensures var sends := n in cache && cache[n] != originals[n];
      var live1 := if sends then live[n := originals[n]] else live;
      var cache1 := if sends then cache[n := originals[n]] else cache;
      var part, rest := Visited(originals, names), Visited(originals, names - {n});
      RestoreLive(live1, cache1, rest) == RestoreLive(live, cache, part) &&
      RestoreCache(cache1, rest) == RestoreCache(cache, part)
  {
  }

  /** Raising one quota of the part first, and the rest after it. */
  lemma BoostMapsOneMore(live: Hards, cache: Hards, originals: Hards, add: ResourceList, n: Name, names: set<Name>)
    requires n in names && n in originals && (n in cache && cache[n] == originals[n] ==> n in live)
    ensures var sends := n in cache && cache[n] == originals[n];
      var live1 := if sends then live[n := Plus(cache[n], add)] else live;
      var cache1 := if sends then cache[n := Plus(cache[n], add)] else cache;
      var part, rest := Visited(originals, names), Visited(originals, names - {n});
      BoostLive(live1, cache1, rest, add) == BoostLive(live, cache, part, add) &&
      BoostCache(cache1, rest, add) == BoostCache(cache, part, add)
  {
  }

  /** A run over nothing changes nothing. */
  lemma NothingVisited(live: Hards, cache: Hards, originals: Hards, add: ResourceList)
    ensures Visited(originals, {}) == map[]
    ensures RestoreLive(live, cache, map[]) == live && RestoreCache(cache, map[]) == cache
    ensures BoostLive(live, cache, map[], add) == live && BoostCache(cache, map[], add) == cache
  {
  }
}
