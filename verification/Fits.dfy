/** The quota check in numbers, up to the last unit. */
module Fits {
  import opened Resources
  import opened Protocol

  /** Resource `r` is asked for, limited, and short by at least one unit. */
  predicate Short(hard: ResourceList, used: ResourceList, request: ResourceList, r: string) {
    r in request && request[r] != 0 && r in hard && Amount(used, r) + request[r] > hard[r]
  }

  /** The whole check: an unreadable quota and a negative request are errors, a quota that does not select
      the pod admits it, and any other refuses it exactly if some resource is short. */
  lemma CheckExactly(scope: Scope, hard: ResourceList, used: ResourceList, request: ResourceList)
    ensures Check(scope, hard, used, request) == OtherError <==>
            scope == Fails || exists r :: r in request && request[r] < 0
    ensures Check(scope, hard, used, request) == Exceeded <==>
            scope == Applies && (forall r :: r in request ==> request[r] >= 0) && exists r :: Short(hard, used, request, r)
    ensures Check(scope, hard, used, request) == Admitted <==>
            scope != Fails && (forall r :: r in request ==> request[r] >= 0) &&
            (scope == DoesNotApply || forall r :: !Short(hard, used, request, r))
  {
    forall r | r in request ensures Overruns(hard, used, request, r) <==> Short(hard, used, request, r) {}
    forall r ensures Short(hard, used, request, r) ==> r in request {}
  }

  /** A pod is admitted exactly if it leaves every resource that it asks for within its limit. */
  lemma AdmittedExactly(hard: ResourceList, used: ResourceList, request: ResourceList)
    requires NonNegative(request)
    ensures Check(Applies, hard, used, request) == Admitted <==>
            forall r | r in request && request[r] != 0 && r in hard :: Amount(AddUsage(used, hard, request), r) <= hard[r]
  {
    CheckExactly(Applies, hard, used, request);
    forall r | r in request && request[r] != 0 && r in hard
      ensures Amount(AddUsage(used, hard, request), r) <= hard[r] <==> !Short(hard, used, request, r)
    {
      assert r in AddUsage(used, hard, request);
    }
  }

  /** What a pod adds to the usage of a quota: what it asks for of what the quota limits. */
  lemma UsageExactly(used: ResourceList, hard: ResourceList, request: ResourceList, r: string)
    ensures Amount(AddUsage(used, hard, request), r) ==
            Amount(used, r) + (if r in hard && r in request then request[r] else 0)
  {
  }

  /** The boundary: exactly what is left is admitted, and one unit more is exceeded. */
  lemma ExactFit(hard: ResourceList, used: ResourceList, r: string)
    requires r in hard && Amount(used, r) <= hard[r]
    ensures Check(Applies, hard, used, map[r := hard[r] - Amount(used, r)]) == Admitted
    ensures Check(Applies, hard, used, map[r := hard[r] - Amount(used, r) + 1]) == Exceeded
  {
    var fits, over := map[r := hard[r] - Amount(used, r)], map[r := hard[r] - Amount(used, r) + 1];
    CheckExactly(Applies, hard, used, fits);
    CheckExactly(Applies, hard, used, over);
    assert Short(hard, used, over, r);
  }

  // ---------------------------------------------------------------- the addition

  /** What resource `r` is short of at `hard`. */
  function Missing(hard: ResourceList, used: ResourceList, request: ResourceList, r: string): int
    requires r in hard && r in request
  {
    Amount(used, r) + request[r] - hard[r]
  }

  lemma PlusExactly(hard: ResourceList, add: ResourceList)
    ensures Plus(hard, add).Keys == hard.Keys
    ensures forall r | r in hard :: Plus(hard, add)[r] == hard[r] + (if r in add then add[r] else 0)
  {
  }

  /** An addition makes room exactly if it covers what is missing of every resource. */
  lemma RoomExactly(hard: ResourceList, add: ResourceList, used: ResourceList, request: ResourceList)
    requires NonNegative(request)
    ensures Check(Applies, Plus(hard, add), used, request) == Admitted <==>
            forall r | r in request && request[r] != 0 && r in hard :: Missing(hard, used, request, r) <= Amount(add, r)
  {
    PlusExactly(hard, add);
    CheckExactly(Applies, Plus(hard, add), used, request);
    forall r | r in request && request[r] != 0 && r in hard
      ensures Missing(hard, used, request, r) <= Amount(add, r) <==> !Short(Plus(hard, add), used, request, r)
    {
    }
  }

  /** A quota that is short, and made room in by the addition, is the whole blocking list of a namespace
      with no other; with one unit less of what is missing, nothing is. */
  lemma LastUnit(n: Name, hard: ResourceList, used: ResourceList, request: ResourceList, r: string)
    requires NonNegative(request) && r in request && r in hard && Missing(hard, used, request, r) > 0
    requires forall k | k in request && k in hard && k != r :: Missing(hard, used, request, k) <= 0
    requires request[r] != 0
    ensures var b := Blocked(request, map[n := Seen(hard, used, Applies, Applies)]);
      var missing := Missing(hard, used, request, r);
      && BlockingNames(map[n := hard], map[], b, map[r := missing]) == {n}
      && BlockingNames(map[n := hard], map[], b, map[r := missing - 1]) == {}
  {
    var cache := map[n := hard];
    var b := Blocked(request, map[n := Seen(hard, used, Applies, Applies)]);
    var missing := Missing(hard, used, request, r);
    CheckExactly(Applies, hard, used, request);
    assert Short(hard, used, request, r);
    assert AtBase(n, map[], b) == Exceeded;
    RoomExactly(hard, map[r := missing], used, request);
    assert AfterAddition(n, cache, map[], b, map[r := missing]) == Admitted;
    RoomExactly(hard, map[r := missing - 1], used, request);
    CheckExactly(Applies, Plus(hard, map[r := missing - 1]), used, request);
    assert n in cache && AfterAddition(n, cache, map[], b, map[r := missing - 1]) == Exceeded;
  }

  /** What the loop of `getCurrBlockingRQInNS` compares a quota's usage with: the recorded original if there
      is one; otherwise its status at first, and its spec for the addition. */
  function BaseOf(n: Name, originals: map<Name, ResourceList>, otherwise: ResourceList): ResourceList {
    if n in originals then originals[n] else otherwise
  }

  /** The addition covers what is missing of every resource. */
  predicate Covers(hard: ResourceList, add: ResourceList, used: ResourceList, request: ResourceList) {
    forall r | r in request && request[r] != 0 && r in hard :: Missing(hard, used, request, r) <= Amount(add, r)
  }

  ghost predicate SomeShort(hard: ResourceList, used: ResourceList, request: ResourceList) {
    exists r :: Short(hard, used, request, r)
  }

  /** The two verdicts in numbers. */
  lemma VerdictsExactly(n: Name, cache: map<Name, ResourceList>, originals: map<Name, ResourceList>, b: Migration, add: ResourceList)
    requires b.Blocked? && n in cache && n in b.seen && NonNegative(b.request)
    ensures AtBase(n, originals, b) == Exceeded <==>
      b.seen[n].scope == Applies && SomeShort(BaseOf(n, originals, b.seen[n].statusHard), b.seen[n].used, b.request)
    ensures AfterAddition(n, cache, originals, b, add) == Exceeded <==>
      b.seen[n].bare == Applies && !Covers(BaseOf(n, originals, cache[n]), add, b.seen[n].used, b.request)
    ensures AfterAddition(n, cache, originals, b, add) == Admitted <==>
      b.seen[n].bare == DoesNotApply ||
      (b.seen[n].bare == Applies && Covers(BaseOf(n, originals, cache[n]), add, b.seen[n].used, b.request))
  {
    var s := b.seen[n];
    RoomExactly(BaseOf(n, originals, cache[n]), add, s.used, b.request);
    CheckExactly(s.bare, Plus(BaseOf(n, originals, cache[n]), add), s.used, b.request);
    CheckExactly(Applies, Plus(BaseOf(n, originals, cache[n]), add), s.used, b.request);
    CheckExactly(s.scope, BaseOf(n, originals, s.statusHard), s.used, b.request);
  }

  /** The blocking list in numbers: nothing if the addition leaves a quota that selects the pod short, else
      the quotas that select the pod, are short, and are not short any more as the second check sees them. */
  lemma BlockingExactly(cache: map<Name, ResourceList>, originals: map<Name, ResourceList>, b: Migration, add: ResourceList)
    requires b.Blocked? && cache.Keys <= b.seen.Keys && NonNegative(b.request)
    ensures BlockingNames(cache, originals, b, add) ==
      if exists n | n in cache :: b.seen[n].bare == Applies && !Covers(BaseOf(n, originals, cache[n]), add, b.seen[n].used, b.request)
      then {}
      else set n | n in cache && b.seen[n].scope == Applies && b.seen[n].bare != Fails &&
                   SomeShort(BaseOf(n, originals, b.seen[n].statusHard), b.seen[n].used, b.request)
  {
    forall n | n in cache
      ensures AtBase(n, originals, b) == Exceeded <==>
        b.seen[n].scope == Applies && SomeShort(BaseOf(n, originals, b.seen[n].statusHard), b.seen[n].used, b.request)
      ensures AfterAddition(n, cache, originals, b, add) == Exceeded <==>
        b.seen[n].bare == Applies && !Covers(BaseOf(n, originals, cache[n]), add, b.seen[n].used, b.request)
      ensures AfterAddition(n, cache, originals, b, add) == OtherError ==> b.seen[n].bare == Fails
      ensures AfterAddition(n, cache, originals, b, add) == Admitted ==> b.seen[n].bare != Fails
    {
      VerdictsExactly(n, cache, originals, b, add);
    }
  }

  /** A request that cannot be checked blocks nothing. */
  lemma NegativeBlocksNothing(cache: map<Name, ResourceList>, originals: map<Name, ResourceList>, b: Migration, add: ResourceList)
    requires b.Blocked? && cache.Keys <= b.seen.Keys && exists r :: r in b.request && b.request[r] < 0
    ensures BlockingNames(cache, originals, b, add) == {}
  {
    assert !NonNegative(b.request);
  }
}
