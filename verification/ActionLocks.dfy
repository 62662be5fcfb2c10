/**
 The lock table as the program has it: a map of reference-counted semaphores updated in place.
 Each method is one atomic section of the program and is proved to be the `LockTable` step of
 that name; ghost fields record the lock objects made and where each thread is.
 */
module ActionLocks {
  import opened LockTable

  class DomainActionLock {
    /** Tokens in the semaphore, a channel of capacity 1. */
    var tokens: nat
    var users: int
    ghost const key: string

    constructor (ghost key: string)
      ensures this.key == key && tokens == 1 && users == 0
    {
      this.key := key;
      tokens, users := 1, 0;
    }

    ghost function State(): Lock
      reads this
    {
      Lock(key, tokens, users)
    }
  }

  class ActionLocks {
    var actionLocks: map<string, DomainActionLock>
    ghost var locks: set<DomainActionLock>
    ghost var threads: map<nat, Phase<DomainActionLock>>

    ghost function View(): Table<DomainActionLock>
      reads this, locks
    {
      Table(actionLocks, map l | l in locks :: l.State(), threads)
    }

    ghost predicate Valid()
      reads this, locks
    {
      Inv(View())
    }

    constructor ()
      ensures Valid() && View() == Empty()
    {
      actionLocks := map[];
      locks, threads := {}, map[];
      new;
      assert Inv(Empty<DomainActionLock>());
    }

    method Retain(ghost t: nat, name: string, ghost cancellable: bool) returns (lock: DomainActionLock)
      requires Valid() && t !in threads
      modifies this, locks
      ensures Valid()
      ensures View() == Apply(old(View()), Step.Retain(t, name, cancellable, lock))
    {
      ghost var before := View();
      if name in actionLocks {
        lock := actionLocks[name];
      } else {
        lock := new DomainActionLock(name);
        locks := locks + {lock};
        actionLocks := actionLocks[name := lock];
      }
      Refer(t, name, cancellable, lock, before);
      StepKeeps(before, Step.Retain(t, name, cancellable, lock));
    }

    /** The rest of `Retain`: one more user. */
    method Refer(ghost t: nat, name: string, ghost cancellable: bool, lock: DomainActionLock,
                 ghost before: Table<DomainActionLock>)
      requires t !in before.threads && threads == before.threads
      requires lock in locks && locks == before.locks.Keys + {lock}
      requires if name in before.entries then before.entries[name] == lock && lock in before.locks
               else lock !in before.locks && lock.State() == Lock(name, 1, 0)
      requires actionLocks == before.entries[name := lock]
      requires forall l | l in before.locks :: l.State() == before.locks[l]
      modifies this`threads, lock
      ensures View() == Apply(before, Step.Retain(t, name, cancellable, lock))
    {
      lock.users := lock.users + 1;
      threads := threads[t := Waiting(name, lock, cancellable)];
      assert View().locks == Apply(before, Step.Retain(t, name, cancellable, lock)).locks;
      assert View() == Apply(before, Step.Retain(t, name, cancellable, lock));
    }

    /** The receive that ends the wait; it can happen once a token is there. */
    method Take(ghost t: nat, lock: DomainActionLock)
      requires Valid() && t in threads && threads[t].Waiting? && threads[t].lock == lock
      requires lock.tokens > 0
      modifies this, locks
      ensures Valid() && View() == Apply(old(View()), Step.Take(t))
    {
      ghost var before := View();
      lock.tokens := lock.tokens - 1;
      threads := threads[t := Holding(threads[t].key, lock)];
      assert View().locks == Apply(before, Step.Take(t)).locks;
      StepKeeps(before, Step.Take(t));
    }

    /** The wait ended by its context. */
    ghost method GiveUp(t: nat)
      requires Valid() && t in threads && threads[t].Waiting? && threads[t].cancellable
      modifies this`threads
      ensures Valid() && View() == Apply(old(View()), Step.GiveUp(t))
    {
      ghost var before := View();
      StepKeeps(before, Step.GiveUp(t));
      threads := threads[t := Leaving(threads[t].key, threads[t].lock)];
      assert View().locks == before.locks;
      assert View() == Apply(before, Step.GiveUp(t));
    }

    /** The send that puts the token back; the semaphore always has room for it. */
    method Return(ghost t: nat, lock: DomainActionLock)
      requires Valid() && t in threads && threads[t].Holding? && threads[t].lock == lock
      modifies this, locks
      ensures Valid() && View() == Apply(old(View()), Step.Return(t))
    {
      ghost var before := View();
      UserCounts(before, t);
      assert lock.tokens < 1;
      lock.tokens := lock.tokens + 1;
      threads := threads[t := Leaving(threads[t].key, lock)];
      assert View().locks == Apply(before, Step.Return(t)).locks;
      StepKeeps(before, Step.Return(t));
    }

    /** Drop a reference; the last one deletes the entry, by name. */
    method Release(ghost t: nat, name: string, lock: DomainActionLock)
      requires Valid() && t in threads && threads[t] == Leaving(name, lock)
      modifies this, locks
      ensures Valid() && View() == Apply(old(View()), Step.Release(t))
    {
      ghost var before := View();
      UserCounts(before, t);
      Drop(t, name, lock);
      StepKeeps(before, Step.Release(t));
    }

    /** The body of `Release`, whatever else is in the table. */
    method Drop(ghost t: nat, name: string, lock: DomainActionLock)
      requires t in threads && threads[t] == Leaving(name, lock) && lock in locks
      modifies this`actionLocks, this`threads, lock
      ensures View() == Apply(old(View()), Step.Release(t))
    {
      ghost var before := View();
      lock.users := lock.users - 1;
      if lock.users == 0 {
        actionLocks := actionLocks - {name};
      }
      threads := threads - {t};
      assert View().locks == Apply(before, Step.Release(t)).locks;
    }
  }
}
