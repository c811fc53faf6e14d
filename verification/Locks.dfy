/** The registry of mutation locks: one lock object per key for the life of the process, one holder per lock. */
module Locks {
  import opened Options

  class Lock {
    var holder: Option<nat>

    constructor ()
      ensures holder == None
    {
      holder := None;
    }
  }

  class CaseMutationCoordinator {
    var locks: map<string, Lock>

    /** Different keys never share a lock. */
    ghost predicate Valid()
      reads this
    {
      forall a, b :: a in locks && b in locks && locks[a] == locks[b] ==> a == b
    }

    /** Who holds what, for every key; a key never asked for is free. */
    ghost function HolderOf(key: string): Option<nat>
      reads this, locks.Values
    {
      if key in locks then locks[key].holder else None
    }

    constructor ()
      ensures Valid() && locks == map[]
    {
      locks := map[];
    }

    /** The key's lock: made on first use, the same object ever after. */
    method GetLock(key: string) returns (lock: Lock)
      requires Valid()
      modifies this
      ensures Valid() && key in locks && locks[key] == lock
      ensures forall k :: k in old(locks) ==> k in locks && locks[k] == old(locks[k])
      ensures key in old(locks) ==> locks == old(locks)
      ensures key !in old(locks) ==> fresh(lock) && lock.holder == None && locks == old(locks)[key := lock]
    {
      if key !in locks {
        var created := new Lock();
        locks := locks[key := created];
      }
      lock := locks[key];
    }

    /** Enters the serialized section of a key, or waits: an empty key is refused, a held lock is not taken. */
    method Enter(key: string, request: nat) returns (entered: bool)
      requires Valid()
      modifies this, locks.Values
      ensures Valid()
      ensures entered <==> key != "" && old(HolderOf(key)) == None
      ensures forall k :: HolderOf(k) == if k == key && entered then Some(request) else old(HolderOf(k))
      ensures forall k :: k in old(locks) ==> k in locks && locks[k] == old(locks[k])
    {
      if key == "" {
        return false;
      }
      var lock := GetLock(key);
      if lock.holder != None {
        return false;
      }
      lock.holder := Some(request);
      return true;
    }

    /** Leaves the section, whether the request returned or raised. */
    method Leave(key: string)
      requires Valid() && key in locks
      modifies locks.Values
      ensures Valid() && locks == old(locks)
      ensures forall k :: HolderOf(k) == if k == key then None else old(HolderOf(k))
    {
      locks[key].holder := None;
    }
  }
}
