/** The loops over resource maps in vmmrq-controller.go. */
module Quantities {
  import opened Resources

  /** A Go map of quantities: a reference, so two quotas can share one. */
  class QuantityMap {
    var m: ResourceList

    constructor (m: ResourceList)
      ensures this.m == m
    {
      this.m := m;
    }
  }

  method AreResourceMapsEqual(map1: ResourceList, map2: ResourceList) returns (equal: bool)
    ensures equal <==> map1 == map2
  {
    if |map1| != |map2| { return false; }
    var keys := map1.Keys;
    while keys != {}
      invariant keys <= map1.Keys
      invariant forall r | r in map1 && r !in keys :: r in map2 && map2[r] == map1[r]
      decreases keys
    {
      var key :| key in keys;
      if key !in map2 || map1[key] != map2[key] { return false; }
      keys := keys - {key};
    }
    SameSizeSubset(map1.Keys, map2.Keys);
    return true;
  }

  lemma SameSizeSubset(a: set<string>, b: set<string>)
    requires a <= b && |a| == |b|
    ensures a == b
  {
    assert |b - a| == |b| - |a|;
  }

  /** Raises a hard map in place: the map is ranged over while its entries are assigned, and
      spec and status of the result share it. */
  method AddResourcesToRQ(hard: QuantityMap, rl: ResourceList)
    modifies hard`m
    ensures hard.m == Plus(old(hard.m), rl)
  {
    var names := hard.m.Keys;
    while names != {}
      invariant names <= hard.m.Keys == old(hard.m.Keys)
      invariant forall r | r in hard.m :: hard.m[r] == if r in names then old(hard.m)[r] else Plus(old(hard.m), rl)[r]
      decreases names
    {
      var rqResourceName :| rqResourceName in names;
      var currQuantity := hard.m[rqResourceName];
      var others := rl.Keys;
      while others != {}
        invariant others <= rl.Keys && hard.m.Keys == old(hard.m.Keys)
        invariant currQuantity == old(hard.m)[rqResourceName] +
                                  (if rqResourceName in rl && rqResourceName !in others then rl[rqResourceName] else 0)
        invariant hard.m[rqResourceName] == currQuantity
        invariant forall r | r in hard.m && r != rqResourceName ::
                    hard.m[r] == if r in names then old(hard.m)[r] else Plus(old(hard.m), rl)[r]
        decreases others
      {
        var vmmrqResourceName :| vmmrqResourceName in others;
        if rqResourceName == vmmrqResourceName {
          currQuantity := currQuantity + rl[vmmrqResourceName];
          hard.m := hard.m[rqResourceName := currQuantity];
        }
        others := others - {vmmrqResourceName};
      }
      names := names - {rqResourceName};
    }
  }

  // ---------------------------------------------------------------- limit ranges

  datatype LimitRangeItem = LimitRangeItem(limitType: string, default: ResourceList, defaultRequest: ResourceList)

  const CONTAINER := "Container"

  /** The defaults, or the default requests, of the container items of one limit range. */
  function OfItems(items: seq<LimitRangeItem>, requests: bool): set<ResourceList> {
    set item | item in items && item.limitType == CONTAINER :: if requests then item.defaultRequest else item.default
  }

  /** Those of all limit ranges. */
  function Contributions(ranges: seq<seq<LimitRangeItem>>, requests: bool): set<ResourceList> {
    set items, list | items in ranges && list in OfItems(items, requests) :: list
  }

  /** Exactly the defaults, or the default requests, of the items of type Container. */
  lemma ContributionsExactly(ranges: seq<seq<LimitRangeItem>>, requests: bool, list: ResourceList)
    ensures list in Contributions(ranges, requests) <==>
      exists i, j :: 0 <= i < |ranges| && 0 <= j < |ranges[i]| && ranges[i][j].limitType == "Container" &&
        list == if requests then ranges[i][j].defaultRequest else ranges[i][j].default
  {
    if list in Contributions(ranges, requests) {
      var items :| items in ranges && list in OfItems(items, requests);
      var i :| 0 <= i < |ranges| && ranges[i] == items;
      var item :| item in items && item.limitType == CONTAINER && list == if requests then item.defaultRequest else item.default;
      var j :| 0 <= j < |items| && items[j] == item;
    }
    if i, j :| 0 <= i < |ranges| && 0 <= j < |ranges[i]| && ranges[i][j].limitType == "Container" &&
               list == if requests then ranges[i][j].defaultRequest else ranges[i][j].default {
      assert ranges[i] in ranges && ranges[i][j] in ranges[i];
      assert list in OfItems(ranges[i], requests);
    }
  }

  /** The pointwise maximum of a set of lists, with exactly the keys that occur in them. */
  ghost predicate IsMaximum(result: ResourceList, lists: set<ResourceList>) {
    (forall list | list in lists :: Below(list, result)) && (forall r | r in result :: Attained(r, result[r], lists))
  }

  predicate Below(list: ResourceList, result: ResourceList) {
    forall r | r in list :: r in result && list[r] <= result[r]
  }

  ghost predicate Attained(r: string, quantity: int, lists: set<ResourceList>) {
    exists list | list in lists :: r in list && list[r] == quantity
  }

  /** There is only one: the fold does not depend on the order of limit ranges or items. */
  lemma MaximumIsUnique(a: ResourceList, b: ResourceList, lists: set<ResourceList>)
    requires IsMaximum(a, lists) && IsMaximum(b, lists)
    ensures a == b
  {
    hide IsMaximum;
    forall r ensures r in a ==> r in b && a[r] <= b[r] { if r in a { OneBelowOther(a, b, lists, r); } }
    forall r ensures r in b ==> r in a && b[r] <= a[r] { if r in b { OneBelowOther(b, a, lists, r); } }
  }

  lemma OneBelowOther(a: ResourceList, b: ResourceList, lists: set<ResourceList>, r: string)
    requires IsMaximum(a, lists) && IsMaximum(b, lists) && r in a
    ensures r in b && a[r] <= b[r]
  {
    assert Attained(r, a[r], lists);
    var list :| list in lists && r in list && list[r] == a[r];
    assert Below(list, b);
  }

  function Raise(soFar: ResourceList, r: string, quantity: int): ResourceList {
    if r !in soFar || quantity > soFar[r] then soFar[r := quantity] else soFar
  }

  /** One more entry of one list. */
  lemma MaximumStep(soFar: ResourceList, lists: set<ResourceList>, part: ResourceList, r: string, quantity: int)
    requires IsMaximum(soFar, lists + {part}) && r !in part
    ensures IsMaximum(Raise(soFar, r, quantity), lists + {part[r := quantity]})
  {
    var result, part' := Raise(soFar, r, quantity), part[r := quantity];
    forall list | list in lists + {part'} ensures Below(list, result) {
      RaisedBelow(soFar, lists, part, r, quantity, list);
    }
    forall k | k in result ensures Attained(k, result[k], lists + {part'}) {
      RaisedAttained(soFar, lists, part, r, quantity, k);
    }
  }

  lemma RaisedBelow(soFar: ResourceList, lists: set<ResourceList>, part: ResourceList, r: string, quantity: int, list: ResourceList)
    requires forall l | l in lists + {part} :: Below(l, soFar)
    requires list in lists + {part[r := quantity]}
    ensures Below(list, Raise(soFar, r, quantity))
  {
    assert part in lists + {part} && Below(part, soFar);
    if list in lists { assert list in lists + {part} && Below(list, soFar); }
  }

  lemma RaisedAttained(soFar: ResourceList, lists: set<ResourceList>, part: ResourceList, r: string, quantity: int, k: string)
    requires forall r | r in soFar :: Attained(r, soFar[r], lists + {part})
    requires r !in part && k in Raise(soFar, r, quantity)
    ensures Attained(k, Raise(soFar, r, quantity)[k], lists + {part[r := quantity]})
  {
    if k in soFar && Raise(soFar, r, quantity)[k] == soFar[k] {
      assert Attained(k, soFar[k], lists + {part});
      var list :| list in lists + {part} && k in list && list[k] == soFar[k];
      StillAttained(k, list, lists, part, r, quantity);
    } else {
      assert part[r := quantity] in lists + {part[r := quantity]};
    }
  }

  lemma StillAttained(k: string, list: ResourceList, lists: set<ResourceList>, part: ResourceList, r: string, quantity: int)
    requires list in lists + {part} && k in list && r !in part
    ensures Attained(k, list[k], lists + {part[r := quantity]})
  {
    var part' := part[r := quantity];
    if list == part {
      assert part' in lists + {part'} && part'[k] == list[k];
    } else {
      assert list in lists + {part'};
    }
  }

  lemma NothingMore(soFar: ResourceList, lists: set<ResourceList>)
    requires IsMaximum(soFar, lists)
    ensures IsMaximum(soFar, lists + {map[]})
  {
    forall list | list in lists + {map[]} ensures Below(list, soFar) {}
    forall r | r in soFar ensures Attained(r, soFar[r], lists + {map[]}) {
      assert Attained(r, soFar[r], lists);
      var list :| list in lists && r in list && list[r] == soFar[r];
      assert list in lists + {map[]};
    }
  }

  method FoldEntry(soFar: ResourceList, resourceName: string, quantity: int, ghost lists: set<ResourceList>, ghost part: ResourceList)
      returns (result: ResourceList)
    requires IsMaximum(soFar, lists + {part}) && resourceName !in part
    ensures IsMaximum(result, lists + {part[resourceName := quantity]})
  {
    hide IsMaximum;
    MaximumStep(soFar, lists, part, resourceName, quantity);
    result := soFar;
    if resourceName !in soFar || quantity > soFar[resourceName] {
      result := soFar[resourceName := quantity];
    }
    assert result == Raise(soFar, resourceName, quantity);
  }

  /** The inner loop over one list. */
  method FoldMaximum(soFar: ResourceList, list: ResourceList, ghost lists: set<ResourceList>) returns (result: ResourceList)
    requires IsMaximum(soFar, lists)
    ensures IsMaximum(result, lists + {list})
  {
    hide IsMaximum;
    result := soFar;
    var names := list.Keys;
    ghost var part: ResourceList := map[];
    NothingMore(soFar, lists);
    while names != {}
      invariant names <= list.Keys && part.Keys == list.Keys - names
      invariant forall r | r in part :: part[r] == list[r]
      invariant IsMaximum(result, lists + {part})
      decreases names
    {
      var resourceName :| resourceName in names;
      var quantity := list[resourceName];
      result := FoldEntry(result, resourceName, quantity, lists, part);
      names := names - {resourceName};
      part := part[resourceName := quantity];
    }
    assert part == list;
  }

  method FoldItems(soFarDefaults: ResourceList, soFarRequests: ResourceList, items: seq<LimitRangeItem>,
                   ghost defaults: set<ResourceList>, ghost requests: set<ResourceList>)
      returns (maxDefaults: ResourceList, maxRequests: ResourceList)
    requires IsMaximum(soFarDefaults, defaults) && IsMaximum(soFarRequests, requests)
    ensures IsMaximum(maxDefaults, defaults + OfItems(items, false))
    ensures IsMaximum(maxRequests, requests + OfItems(items, true))
  {
    hide IsMaximum;
    maxDefaults, maxRequests := soFarDefaults, soFarRequests;
    assert defaults + OfItems(items[..0], false) == defaults && requests + OfItems(items[..0], true) == requests;
    for j := 0 to |items|
      invariant IsMaximum(maxDefaults, defaults + OfItems(items[..j], false))
      invariant IsMaximum(maxRequests, requests + OfItems(items[..j], true))
    {
      var item := items[j];
      OneMoreItem(items, j, false);
      OneMoreItem(items, j, true);
      if item.limitType != CONTAINER {
        assert defaults + OfItems(items[..j + 1], false) == defaults + OfItems(items[..j], false);
        assert requests + OfItems(items[..j + 1], true) == requests + OfItems(items[..j], true);
        continue;
      }
      maxDefaults := FoldMaximum(maxDefaults, item.default, defaults + OfItems(items[..j], false));
      maxRequests := FoldMaximum(maxRequests, item.defaultRequest, requests + OfItems(items[..j], true));
      assert defaults + OfItems(items[..j], false) + {item.default} == defaults + OfItems(items[..j + 1], false);
      assert requests + OfItems(items[..j], true) + {item.defaultRequest} == requests + OfItems(items[..j + 1], true);
    }
    assert items[..|items|] == items;
  }

  lemma OneMoreItem(items: seq<LimitRangeItem>, j: nat, requests: bool)
    requires j < |items|
    ensures OfItems(items[..j + 1], requests) == OfItems(items[..j], requests) +
      (if items[j].limitType == CONTAINER then {if requests then items[j].defaultRequest else items[j].default} else {})
  {
    assert items[..j + 1] == items[..j] + [items[j]];
  }

  /** The result is the pointwise maximum over all container items, in whatever order they come. */
  method GetLimitRangeWithMaxDefaults(ranges: seq<seq<LimitRangeItem>>) returns (maxDefaults: ResourceList, maxRequests: ResourceList)
    ensures IsMaximum(maxDefaults, Contributions(ranges, false))
    ensures IsMaximum(maxRequests, Contributions(ranges, true))
  {
    maxDefaults, maxRequests := map[], map[];
    for i := 0 to |ranges|
      invariant IsMaximum(maxDefaults, Contributions(ranges[..i], false))
      invariant IsMaximum(maxRequests, Contributions(ranges[..i], true))
    {
      maxDefaults, maxRequests := FoldItems(maxDefaults, maxRequests, ranges[i],
                                            Contributions(ranges[..i], false), Contributions(ranges[..i], true));
      OneMoreRange(ranges, i, false);
      OneMoreRange(ranges, i, true);
    }
    assert ranges[..|ranges|] == ranges;
  }

  lemma OneMoreRange(ranges: seq<seq<LimitRangeItem>>, i: nat, requests: bool)
    requires i < |ranges|
    ensures Contributions(ranges[..i + 1], requests) == Contributions(ranges[..i], requests) + OfItems(ranges[i], requests)
  {
    assert ranges[..i + 1] == ranges[..i] + [ranges[i]];
  }
}
