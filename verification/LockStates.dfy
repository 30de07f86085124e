/** The controller's three-valued memory of the namespace locks
    (pkg/mtq-controller/namespace-lock-utils/namespace-cache.go). */
module LockStates {

  datatype LockState = Unknown | Locked | Unlocked {
    /** A remembered state never contradicts the webhook's existence. */
    predicate Agrees(webhook: bool) {
      (Locked? ==> webhook) && (Unlocked? ==> !webhook)
    }
  }

  class NamespaceCache {
    var cache: map<string, LockState>

    ghost predicate Valid() reads this`cache {
      forall ns :: ns in cache ==> cache[ns] != Unknown
    }

    /** What `GetLockState` answers, as a function of the namespace. */
    ghost function State(ns: string): LockState reads this`cache {
      if ns in cache then cache[ns] else Unknown
    }

    constructor ()
      ensures Valid()
      ensures forall ns :: State(ns) == Unknown
    {
      cache := map[];
    }

    method MarkLockStateUnlocked(namespace: string)
      requires Valid()
      modifies this`cache
      ensures Valid()
      ensures State(namespace) == Unlocked
      ensures forall ns :: ns != namespace ==> State(ns) == old(State(ns))
    {
      cache := cache[namespace := Unlocked];
    }

    method MarkLockStateLocked(namespace: string)
      requires Valid()
      modifies this`cache
      ensures Valid()
      ensures State(namespace) == Locked
      ensures forall ns :: ns != namespace ==> State(ns) == old(State(ns))
    {
      cache := cache[namespace := Locked];
    }

    method GetLockState(namespace: string) returns (state: LockState)
      requires Valid()
      ensures state == State(namespace)
    {
      if namespace in cache {
        state := cache[namespace];
      } else {
        state := Unknown;
      }
    }
  }
}
