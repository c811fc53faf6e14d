/** The lock of one conversation's write protocol is its entry in the process-wide lock registry. */
module ConversationLock {
  import opened Options
  import opened CaseFactLedger
  import opened CaseProtocol
  import opened Locks

  /** A waiting request tries its conversation's lock: the registry decides as the protocol's event does. */
  method Acquire(locks: CaseMutationCoordinator, key: string, id: RequestId, ghost s: State, ghost reader: Reader)
    returns (entered: bool)
    requires locks.Valid() && key != "" && locks.HolderOf(key) == s.lock
    requires id in s.requests && s.requests[id].Waiting?
    modifies locks, locks.locks.Values
    ensures locks.Valid()
    ensures locks.HolderOf(key) == Next(s, Acquires(id), reader).lock
    ensures entered <==> Next(s, Acquires(id), reader).requests[id].Entered?
    ensures forall k :: k != key ==> locks.HolderOf(k) == old(locks.HolderOf(k))
  {
    entered := locks.Enter(key, id);
  }

  /** A request leaves, whether it returned or raised: the registry frees the lock the protocol frees. */
  method Leave(locks: CaseMutationCoordinator, key: string, id: RequestId, ghost s: State, ghost reader: Reader)
    requires locks.Valid() && key in locks.locks && locks.HolderOf(key) == s.lock == Some(id)
    requires id in s.requests && HoldsLock(s.requests[id])
    modifies locks.locks.Values
    ensures locks.Valid()
    ensures locks.HolderOf(key) == Next(s, Aborts(id), reader).lock == Finish(s, id).lock
    ensures forall k :: k != key ==> locks.HolderOf(k) == old(locks.HolderOf(k))
  {
    locks.Leave(key);
  }
}
