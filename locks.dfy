/**
 * `java.util.concurrent.locks.ReentrantLock` as used by the account store: an owner
 * and a hold count. Threads are replaced by an explicit caller identity.
 */
module Locks {
  import opened Wrappers

  /** The identity of the thread that calls into the ledger. */
  type Caller = nat

  type Positive = n: nat | n >= 1 witness 1

  /** A lock is free, or held by one owner a positive number of times. */
  datatype LockState = Free | Held(owner: Caller, holds: Positive)

  function HoldCount(s: LockState): nat
  {
    if s.Free? then 0 else s.holds
  }

  /** `caller` can take the lock without waiting: it is free or already the caller's. */
  predicate Available(s: LockState, caller: Caller)
  {
    s.Free? || s.owner == caller
  }

  /** The state after `caller` takes an available lock once more. */
  function Acquired(s: LockState, caller: Caller): (r: LockState)
    requires Available(s, caller)
    ensures r.Held? && r.owner == caller
    ensures HoldCount(r) == HoldCount(s) + 1
    ensures Released(r, caller) == Some(s)
  {
    Held(caller, HoldCount(s) + 1)
  }

  /** The state after `caller` releases the lock once; `None` when the caller does not hold it. */
  function Released(s: LockState, caller: Caller): (r: Option<LockState>)
    ensures r.Some? <==> s.Held? && s.owner == caller
    ensures r.Some? ==> HoldCount(r.value) + 1 == HoldCount(s)
    ensures r.Some? && r.value.Held? ==> r.value.owner == caller
  {
    if s.Free? || s.owner != caller then None
    else if s.holds == 1 then Some(Free)
    else Some(Held(caller, s.holds - 1))
  }

  class ReentrantLock {
    var state: LockState

    constructor ()
      ensures state == Free
    {
      state := Free;
    }

    /** `tryLock()`: never waits; succeeds iff the lock is free or already held by the caller. */
    method TryLock(caller: Caller) returns (acquired: bool)
      modifies this
      ensures acquired == Available(old(state), caller)
      ensures state == if acquired then Acquired(old(state), caller) else old(state)
    {
      acquired := Available(state, caller);
      if acquired {
        state := Acquired(state, caller);
      }
    }

    /** `lock()`: only the calls that do not have to wait are modelled. */
    method Lock(caller: Caller)
      requires Available(state, caller)
      modifies this
      ensures state == Acquired(old(state), caller)
    {
      state := Acquired(state, caller);
    }

    /** `unlock()`: `released` is false where Java throws `IllegalMonitorStateException`. */
    method Unlock(caller: Caller) returns (released: bool)
      modifies this
      ensures released == (old(state).Held? && old(state).owner == caller)
      ensures released ==> Some(state) == Released(old(state), caller)
      ensures !released ==> state == old(state)
    {
      var next := Released(state, caller);
      released := next.Some?;
      if released {
        state := next.value;
      }
    }
  }
}
