/** `enqueueAll`: the keys that a start, and every thirty seconds after it, put into the work queue. */
module Enqueueing {
  import opened Protocol
  import opened Records
  import opened ApiServers

  /** A migration in the informer, as far as enqueueAll looks at it. */
  datatype Listed = Listed(name: Name, conditions: seq<bool>)   // is the condition RejectedByResourceQuota?

  function Rejected(migrations: seq<Listed>): set<Name> {
    set m | m in migrations && true in m.conditions :: m.name
  }

  /** The keys of one VMMRQ: those of its recorded migrations, a stand-in if it has originals only. */
  function KeysOf(status: Status): set<Name> {
    if status.originals == map[] then {} else if status.migrations == map[] then {"fake"} else status.migrations.Keys
  }

  lemma AllKeysGrow(vmmrqs: seq<Vmmrq>, i: nat)
    requires i < |vmmrqs|
    ensures AllKeys(vmmrqs[..i + 1], {}) == AllKeys(vmmrqs[..i], {}) + KeysOf(vmmrqs[i].status)
  {
    assert vmmrqs[..i + 1] == vmmrqs[..i] + [vmmrqs[i]];
  }

  /** A migration is rejected if any of its conditions says so. */
  lemma RejectedExactly(migrations: seq<Listed>, n: Name)
    ensures n in Rejected(migrations) <==>
      exists i, j :: 0 <= i < |migrations| && migrations[i].name == n && 0 <= j < |migrations[i].conditions| && migrations[i].conditions[j]
  {
    if n in Rejected(migrations) {
      var m :| m in migrations && true in m.conditions && m.name == n;
      var i :| 0 <= i < |migrations| && migrations[i] == m;
      var j :| 0 <= j < |m.conditions| && m.conditions[j] == true;
    }
    if i, j :| 0 <= i < |migrations| && migrations[i].name == n && 0 <= j < |migrations[i].conditions| && migrations[i].conditions[j] {
      assert migrations[i] in migrations && true in migrations[i].conditions;
    }
  }

  /** Which keys are queued: those of the rejected migrations, those of the recorded ones of a VMMRQ with
      originals, and the stand-in for a VMMRQ that has nothing but originals. */
  lemma AllKeysExactly(vmmrqs: seq<Vmmrq>, rejected: set<Name>, key: Name)
    ensures key in AllKeys(vmmrqs, rejected) <==>
      || key in rejected
      || exists i :: 0 <= i < |vmmrqs| && vmmrqs[i].status.originals != map[] &&
           if vmmrqs[i].status.migrations == map[] then key == "fake" else key in vmmrqs[i].status.migrations
  {
    if key in AllKeys(vmmrqs, rejected) && key !in rejected {
      if v :| v in vmmrqs && v.status.originals != map[] && key in v.status.migrations {
        var i :| 0 <= i < |vmmrqs| && vmmrqs[i] == v;
      } else {
        var v :| v in vmmrqs && v.status.originals != map[] && v.status.migrations == map[];
        var i :| 0 <= i < |vmmrqs| && vmmrqs[i] == v;
      }
    }
    if i :| 0 <= i < |vmmrqs| && vmmrqs[i].status.originals != map[] &&
            if vmmrqs[i].status.migrations == map[] then key == "fake" else key in vmmrqs[i].status.migrations {
      assert vmmrqs[i] in vmmrqs;
    }
  }

  /** For one namespace's VMMRQs and migrations: exactly the keys of the protocol's step. */
  method EnqueueAll(vmmrqs: seq<RawVmmrq>, migrations: seq<Listed>) returns (keys: set<Name>)
    requires AllUnique(vmmrqs)
    ensures keys == AllKeys(VmmrqsOf(vmmrqs), Rejected(migrations))
  {
    keys := {};
    ghost var all := VmmrqsOf(vmmrqs);
    for i := 0 to |vmmrqs|
      invariant keys == AllKeys(all[..i], {})
    {
      AllKeysGrow(all, i);
      var more := EnqueueOne(vmmrqs[i].status);
      keys := keys + more;
    }
    assert all[..|vmmrqs|] == all;
    var rejected := EnqueueRejected(migrations);
    keys := keys + rejected;
  }

  method EnqueueRejected(migrations: seq<Listed>) returns (keys: set<Name>)
    ensures keys == Rejected(migrations)
  {
    keys := {};
    for i := 0 to |migrations|
      invariant keys == Rejected(migrations[..i])
    {
      assert migrations[..i + 1] == migrations[..i] + [migrations[i]];
      for j := 0 to |migrations[i].conditions|
        invariant keys == Rejected(migrations[..i]) + (if true in migrations[i].conditions[..j] then {migrations[i].name} else {})
      {
        if migrations[i].conditions[j] { keys := keys + {migrations[i].name}; }
      }
      assert migrations[i].conditions[..|migrations[i].conditions|] == migrations[i].conditions;
    }
    assert migrations[..|migrations|] == migrations;
  }

  method EnqueueOne(status: RawStatus) returns (keys: set<Name>)
    requires Unique(status.originals)
    ensures keys == KeysOf(StatusOf(status))
  {
    keys := {};
    if |status.originals| == 0 {
      return;
    }
    assert status.originals[0] in status.originals && status.originals[0].name in OriginalsOf(status.originals);
    if |status.migrations| != 0 {
      var names := status.migrations.Keys;
      while names != {}
        invariant names <= status.migrations.Keys && keys == status.migrations.Keys - names
        decreases names
      {
        var blockedMigrationName :| blockedMigrationName in names;
        keys := keys + {blockedMigrationName};
        names := names - {blockedMigrationName};
      }
      assert Sets(status.migrations).Keys == status.migrations.Keys;
    } else {
      keys := {"fake"};
    }
  }
}
