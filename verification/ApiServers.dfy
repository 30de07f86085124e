/** The API server as the controller calls it. What it stores are values: nothing that the
    controller changes in memory changes them. */
module ApiServers {
  import opened Resources
  import opened Quantities
  import opened Protocol
  import opened Records

  datatype RawOriginal = RawOriginal(name: Name, hard: ResourceList)
  datatype RawStatus = RawStatus(additional: ResourceList, migrations: map<Name, seq<Name>>, originals: seq<RawOriginal>)
  datatype RawVmmrq = RawVmmrq(spec: ResourceList, status: RawStatus)

  ghost predicate Unique(originals: seq<RawOriginal>) {
    forall i, j | 0 <= i < j < |originals| :: originals[i].name != originals[j].name
  }

  ghost function OriginalsOf(originals: seq<RawOriginal>): map<Name, ResourceList>
    requires Unique(originals)
  {
    map o | o in originals :: o.name := o.hard
  }

  ghost function StatusOf(raw: RawStatus): Status
    requires Unique(raw.originals)
  {
    Status(raw.additional, Sets(raw.migrations), OriginalsOf(raw.originals))
  }

  ghost predicate AllUnique(raws: seq<RawVmmrq>) {
    forall i | 0 <= i < |raws| :: Unique(raws[i].status.originals)
  }

  ghost function VmmrqsOf(raws: seq<RawVmmrq>): (vmmrqs: seq<Vmmrq>)
    requires AllUnique(raws)
    ensures |vmmrqs| == |raws|
  {
    seq(|raws|, i requires 0 <= i < |raws| => Vmmrq(raws[i].spec, StatusOf(raws[i].status)))
  }

  /** A call of the controller, with what it sends. */
  datatype Call =
    | ListCall
    | StatusCall(status: RawStatus)
    | QuotaCall(name: Name, hard: ResourceList)
    | LookCall
    | LockCall
    | UnlockCall

  /** The server may refuse a call; it then changes nothing, and the refusal is remembered. */
  class ApiServer {
    var live: map<Name, ResourceList>
    var vmmrqs: seq<RawVmmrq>
    var webhook: bool
    ghost var refused: seq<Call>

    constructor (live: map<Name, ResourceList>, vmmrqs: seq<RawVmmrq>, webhook: bool)
      ensures this.live == live && this.vmmrqs == vmmrqs && this.webhook == webhook && refused == []
    {
      this.live, this.vmmrqs, this.webhook, this.refused := live, vmmrqs, webhook, [];
    }

    /** Refuses to update a quota that does not exist. */
    method UpdateQuota(name: Name, hard: ResourceList) returns (ok: bool)
      modifies this`live, this`refused
      ensures ok ==> name in old(live) && live == old(live)[name := hard]
      ensures !ok ==> live == old(live)
      ensures refused == old(refused) + if ok then [] else [QuotaCall(name, hard)]
    {
      ok := *;
      ok := ok && name in live;
      if ok { live := live[name := hard]; } else { refused := refused + [QuotaCall(name, hard)]; }
    }

    method ListVmmrqs() returns (ok: bool, list: seq<RawVmmrq>)
      modifies this`refused
      ensures list == vmmrqs
      ensures refused == old(refused) + if ok then [] else [ListCall]
    {
      ok := *;
      list := vmmrqs;
      if !ok { refused := refused + [ListCall]; }
    }

    method UpdateStatus(status: RawStatus) returns (ok: bool)
      modifies this`vmmrqs, this`refused
      ensures ok ==> |old(vmmrqs)| == 1 && vmmrqs == [RawVmmrq(old(vmmrqs)[0].spec, status)]
      ensures !ok ==> vmmrqs == old(vmmrqs)
      ensures refused == old(refused) + if ok then [] else [StatusCall(status)]
    {
      ok := *;
      ok := ok && |vmmrqs| == 1;
      if ok { vmmrqs := [RawVmmrq(vmmrqs[0].spec, status)]; } else { refused := refused + [StatusCall(status)]; }
    }

    /** LockNamespace: creating a webhook that exists is refused. */
    method CreateWebhook() returns (ok: bool)
      modifies this`webhook, this`refused
      ensures ok ==> !old(webhook) && webhook
      ensures !ok ==> webhook == old(webhook)
      ensures refused == old(refused) + if ok then [] else [LockCall]
    {
      ok := *;
      ok := ok && !webhook;
      if ok { webhook := true; } else { refused := refused + [LockCall]; }
    }

    /** UnlockNamespace: deleting a webhook that does not exist is refused. */
    method DeleteWebhook() returns (ok: bool)
      modifies this`webhook, this`refused
      ensures ok ==> old(webhook) && !webhook
      ensures !ok ==> webhook == old(webhook)
      ensures refused == old(refused) + if ok then [] else [UnlockCall]
    {
      ok := *;
      ok := ok && webhook;
      if ok { webhook := false; } else { refused := refused + [UnlockCall]; }
    }

    /** NamespaceLocked, as an existence check. */
    method GetWebhook() returns (ok: bool, exists_: bool)
      modifies this`refused
      ensures ok ==> exists_ == webhook
      ensures refused == old(refused) + if ok then [] else [LookCall]
    {
      ok := *;
      exists_ := webhook;
      if !ok { refused := refused + [LookCall]; }
    }
  }

  /** At most one more call was refused, and not the list. */
  ghost predicate Refuses(before: seq<Call>, after: seq<Call>, refuses: bool) {
    if refuses then exists call :: after == before + [call] && !call.ListCall? else after == before
  }

  lemma RefusesOther(before: seq<Call>, after: seq<Call>)
    requires Refuses(before, after, true)
    ensures after != before && after != before + [ListCall]
  {
    assert after[|before|] != ListCall;
    assert (before + [ListCall])[|before|] == ListCall;
  }

  // ---------------------------------------------------------------- in and out of memory

  /** Reading a list of originals makes maps of its own, as DeepCopy does. */
  method Load(raw: seq<RawOriginal>) returns (list: seq<NameAndSpec>)
    requires Unique(raw)
    ensures UniqueNames(list) && Originals(list) == OriginalsOf(raw)
    ensures OwnMaps(list) && fresh(MapsIn(list)) && forall j | 0 <= j < |list| :: fresh(list[j].hard)
  {
    list := [];
    for i := 0 to |raw|
      invariant |list| == i && OwnMaps(list) && forall j | 0 <= j < i :: fresh(list[j].hard)
      invariant forall j | 0 <= j < i :: list[j].name == raw[j].name && list[j].hard.m == raw[j].hard
    {
      var hard := new QuantityMap(raw[i].hard);
      list := list + [NameAndSpec(raw[i].name, hard)];
    }
    SameOriginals(list, raw);
  }

  /** What is sent to the server is what the maps hold at the time of the call. */
  method Dump(list: seq<NameAndSpec>) returns (raw: seq<RawOriginal>)
    requires UniqueNames(list)
    ensures Unique(raw) && OriginalsOf(raw) == Originals(list)
  {
    raw := [];
    for i := 0 to |list|
      invariant |raw| == i
      invariant forall j | 0 <= j < i :: list[j].name == raw[j].name && list[j].hard.m == raw[j].hard
    {
      raw := raw + [RawOriginal(list[i].name, list[i].hard.m)];
    }
    SameOriginals(list, raw);
  }

  lemma SameOriginals(list: seq<NameAndSpec>, raw: seq<RawOriginal>)
    requires |list| == |raw| && (UniqueNames(list) || Unique(raw))
    requires forall j | 0 <= j < |raw| :: list[j].name == raw[j].name && list[j].hard.m == raw[j].hard
    ensures UniqueNames(list) && Unique(raw) && Originals(list) == OriginalsOf(raw)
  {
    assert UniqueNames(list) && Unique(raw);
    forall n ensures n in Originals(list) <==> n in OriginalsOf(raw) {
      if n in Originals(list) { var j :| 0 <= j < |list| && list[j].name == n; assert raw[j] in raw; }
      if n in OriginalsOf(raw) { var j :| 0 <= j < |raw| && raw[j].name == n; assert list[j] in list; }
    }
    forall n | n in Originals(list) ensures Originals(list)[n] == OriginalsOf(raw)[n] {
      var j :| 0 <= j < |list| && list[j].name == n;
      assert raw[j] in raw && list[j] in list;
    }
  }
}
