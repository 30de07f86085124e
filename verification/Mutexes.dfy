/** One mutex per namespace, made on first use
    (pkg/mtq-controller/namespace-lock-utils/namespace-lock-map.go). */
module Mutexes {

  class Mutex {
    var locked: bool

    constructor ()
      ensures !locked
    {
      locked := false;
    }
  }

  class NamespaceLockMap {
    var M: map<string, Mutex>

    /** Different namespaces never share a mutex. */
    ghost predicate Valid() reads this`M {
      forall k, l :: k in M && l in M && k != l ==> M[k] != M[l]
    }

    /** The namespaces somebody is inside of. */
    ghost function Held(): set<string> reads this`M, M.Values`locked {
      set k | k in M && M[k].locked
    }

    constructor ()
      ensures Valid() && Held() == {} && M == map[]
    {
      M := map[];
    }

    /** The same mutex for every call with the same key; a new one is unlocked. */
    method GetLock(key: string) returns (mutex: Mutex)
      requires Valid()
      modifies this`M
      ensures Valid()
      ensures key in M && mutex == M[key]
      ensures forall k :: k in old(M) ==> k in M && M[k] == old(M[k])
      ensures M.Keys == old(M.Keys) + {key}
      ensures key !in old(M) ==> fresh(mutex) && !mutex.locked
      ensures Held() == old(Held())
    {
      if key !in M {
        var made := new Mutex();
        M := M[key := made];
      }
      mutex := M[key];
    }

    /** A call that returns found the mutex free: two workers are never inside one namespace. */
    method Lock(key: string)
      requires Valid() && key !in Held()
      modifies this`M, M.Values`locked
      ensures Valid()
      ensures Held() == old(Held()) + {key}
      ensures M.Keys == old(M.Keys) + {key} && (key !in old(M) ==> fresh(M[key]))
      ensures forall k :: k in old(M) ==> k in M && M[k] == old(M[k])
    {
      var mutex := GetLock(key);
      mutex.locked := true;
    }

    method Unlock(key: string)
      requires Valid() && key in Held()
      modifies this`M, M.Values`locked
      ensures Valid()
      ensures Held() == old(Held()) - {key}
      ensures forall k :: k in old(M) ==> k in M && M[k] == old(M[k])
    {
      var mutex := GetLock(key);
      mutex.locked := false;
    }
  }
}
