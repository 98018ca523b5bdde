/** The per-account lock (src/utils/lock). A ticket names the closure that one `acquire`
    call registers; `pending` counts the `setImmediate` callbacks that will emit 'release'. */
module Locking {
  import opened Basics

  datatype LockState = LockState(isLocked: bool, waiters: seq<nat>, pending: nat)

  const UNLOCKED := LockState(false, [], 0)

  ghost predicate Distinct(s: seq<nat>) {
    forall i, j :: 0 <= i < j < |s| ==> s[i] != s[j]
  }

  function Acquired(s: LockState, ticket: nat): LockState {
    if s.isLocked then s.(waiters := s.waiters + [ticket]) else s.(isLocked := true)
  }

  function Released(s: LockState): LockState {
    s.(isLocked := false, pending := s.pending + 1)
  }

  function ReleasedTimes(s: LockState, n: nat): (r: LockState)
    ensures r == if n == 0 then s else LockState(false, s.waiters, s.pending + n)
  {
    if n == 0 then s else Released(ReleasedTimes(s, n - 1))
  }

  /** Whom one emitted 'release' wakes: the first waiter, if the lock is free. */
  function Woken(s: LockState): Option<nat> {
    if !s.isLocked && s.waiters != [] then Some(s.waiters[0]) else None
  }

  function Emitted(s: LockState): LockState
    requires s.pending > 0
  {
    if Woken(s).Some? then LockState(true, s.waiters[1..], s.pending - 1)
    else s.(pending := s.pending - 1)
  }

  /** `removeListener`: drops the most recently added occurrence. */
  function RemoveListener(s: seq<nat>, ticket: nat): seq<nat> {
    if s == [] then []
    else if s[|s| - 1] == ticket then s[..|s| - 1]
    else RemoveListener(s[..|s| - 1], ticket) + [s[|s| - 1]]
  }

  lemma {:induction false} RemoveFirstListener(s: seq<nat>)
    requires s != [] && Distinct(s)
    ensures RemoveListener(s, s[0]) == s[1..]
  {
    if |s| == 1 {
    } else {
      RemoveFirstListener(s[..|s| - 1]);
      assert s[1..] == s[..|s| - 1][1..] + [s[|s| - 1]];
    }
  }

  class Lock {
    var isLocked: bool
    var waiters: seq<nat>
    var pending: nat

    ghost function State(): LockState
      reads this
    {
      LockState(isLocked, waiters, pending)
    }

    constructor ()
      ensures State() == UNLOCKED
    {
      isLocked, waiters, pending := false, [], 0;
    }

    /** Resolves at once on a free lock, otherwise registers a listener. */
    method Acquire(ticket: nat) returns (resolved: bool)
      requires Distinct(waiters) && ticket !in waiters
      modifies this
      ensures State() == Acquired(old(State()), ticket)
      ensures resolved <==> !old(isLocked)
      ensures Distinct(waiters)
    {
      if !isLocked {
        isLocked := true;
        return true;
      }
      waiters := waiters + [ticket];
      return false;
    }

    method Release()
      modifies this
      ensures State() == Released(old(State()))
    {
      isLocked := false;
      pending := pending + 1;
    }

    /** The body of one registered listener. */
    method TryAcquire(ticket: nat) returns (resolved: bool)
      modifies this
      ensures resolved <==> !old(isLocked)
      ensures isLocked && pending == old(pending)
      ensures waiters == if resolved then RemoveListener(old(waiters), ticket) else old(waiters)
    {
      if !isLocked {
        isLocked := true;
        waiters := RemoveListener(waiters, ticket);
        return true;
      }
      return false;
    }

    /** One `setImmediate` callback: every listener registered at that moment is called,
        and exactly the one that `Woken` names resolves. */
    method EmitRelease() returns (woken: Option<nat>)
      requires pending > 0 && Distinct(waiters)
      modifies this
      ensures State() == Emitted(old(State()))
      ensures woken == Woken(old(State()))
      ensures Distinct(waiters)
    {
      pending := pending - 1;
      woken := None;
      var listeners := waiters;
      for i := 0 to |listeners|
        invariant pending == old(pending) - 1
        invariant i == 0 || old(isLocked) ==> waiters == listeners && isLocked == old(isLocked) && woken == None
        invariant i > 0 && !old(isLocked) ==> waiters == listeners[1..] && isLocked && woken == Some(listeners[0])
      {
        var resolved := TryAcquire(listeners[i]);
        if resolved {
          woken := Some(listeners[i]);
          RemoveFirstListener(listeners);
        }
      }
    }
  }

  /** The module-level `locksMap`. */
  class LockRegistry {
    var locks: map<string, Lock>

    ghost predicate OneKeyPerLock()
      reads this
    {
      forall k1, k2 :: k1 in locks && k2 in locks && locks[k1] == locks[k2] ==> k1 == k2
    }

    constructor ()
      ensures locks == map[] && OneKeyPerLock()
    {
      locks := map[];
    }

    /** Both http clients of one account get the same lock; two accounts never share one. */
    method CreateLock(key: string) returns (lock: Lock)
      requires OneKeyPerLock()
      modifies this
      ensures OneKeyPerLock()
      ensures key in locks && locks[key] == lock
      ensures key in old(locks) ==> locks == old(locks)
      ensures key !in old(locks) ==> locks == old(locks)[key := lock] && fresh(lock) && lock.State() == UNLOCKED
    {
      if key in locks {
        return locks[key];
      }
      lock := new Lock();
      locks := locks[key := lock];
    }
  }
}
