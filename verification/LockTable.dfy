/**
 The per-domain action locks as a state machine: unboundedly many threads, each between
 asking for a lock and dropping its last reference to it, interleaved one atomic step at a time.
 `L` names lock objects: deleting an entry and asking again makes a new one.
 */
module LockTable {

  /** A lock object: its one-slot semaphore and its reference count. */
  datatype Lock = Lock(key: string, tokens: nat, users: int)

  /**
   Where a thread is: waiting for the token, holding it, or done with it (token returned, or
   wait given up) but still referring to the lock. `cancellable` is whether the wait also
   watches a context.
   */
  datatype Phase<L(==)> =
    | Waiting(key: string, lock: L, cancellable: bool)
    | Holding(key: string, lock: L)
    | Leaving(key: string, lock: L)

  datatype Table<L(==)> = Table(entries: map<string, L>, locks: map<L, Lock>, threads: map<nat, Phase<L>>)

  /** `spare` is the object allocated if the key has no entry. */
  datatype Step<L(==)> =
    | Retain(t: nat, key: string, cancellable: bool, spare: L)
    | Take(t: nat)
    | GiveUp(t: nat)
    | Return(t: nat)
    | Release(t: nat)

  ghost function Empty<L>(): Table<L> {
    Table(map[], map[], map[])
  }

  ghost predicate Enabled<L>(s: Table<L>, a: Step<L>) {
    match a
    case Retain(t, key, _, spare) =>
      t !in s.threads && ((key in s.entries && s.entries[key] in s.locks) || spare !in s.locks)
    case Take(t) =>
      t in s.threads && s.threads[t].Waiting? && s.threads[t].lock in s.locks && s.locks[s.threads[t].lock].tokens > 0
    case GiveUp(t) => t in s.threads && s.threads[t].Waiting? && s.threads[t].cancellable
    case Return(t) =>
      t in s.threads && s.threads[t].Holding? && s.threads[t].lock in s.locks && s.locks[s.threads[t].lock].tokens < 1
    case Release(t) => t in s.threads && s.threads[t].Leaving? && s.threads[t].lock in s.locks
  }

  /** The lock that `Retain` refers to: the entry under the key, or a new object with a free token. */
  ghost function Retained<L>(s: Table<L>, key: string, spare: L): (L, Lock) {
    if key in s.entries && s.entries[key] in s.locks then (s.entries[key], s.locks[s.entries[key]])
    else (spare, Lock(key, 1, 0))
  }

  ghost function Apply<L>(s: Table<L>, a: Step<L>): Table<L> {
    if !Enabled(s, a) then s
    else
      match a
      case Retain(t, key, cancellable, spare) =>
        var (l, lock) := Retained(s, key, spare);
        Table(s.entries[key := l],
              s.locks[l := lock.(users := lock.users + 1)],
              s.threads[t := Waiting(key, l, cancellable)])
      case Take(t) =>
        var p := s.threads[t];
        s.(locks := s.locks[p.lock := s.locks[p.lock].(tokens := s.locks[p.lock].tokens - 1)],
           threads := s.threads[t := Holding(p.key, p.lock)])
      case GiveUp(t) =>
        s.(threads := s.threads[t := Leaving(s.threads[t].key, s.threads[t].lock)])
      case Return(t) =>
        var p := s.threads[t];
        s.(locks := s.locks[p.lock := s.locks[p.lock].(tokens := s.locks[p.lock].tokens + 1)],
           threads := s.threads[t := Leaving(p.key, p.lock)])
      case Release(t) =>
        var p := s.threads[t];
        var lock := s.locks[p.lock].(users := s.locks[p.lock].users - 1);
        // Deletion is by key, whatever lock the entry holds.
        s.(entries := if lock.users == 0 then s.entries - {p.key} else s.entries,
           locks := s.locks[p.lock := lock],
           threads := s.threads - {t})
  }

  ghost function Exec<L>(s: Table<L>, steps: seq<Step<L>>): Table<L>
    decreases |steps|
  {
    if steps == [] then s else Exec(Apply(s, steps[0]), steps[1..])
  }

  // ----- Accounting

  ghost function Users<L>(s: Table<L>, l: L): set<nat> {
    set t | t in s.threads && s.threads[t].lock == l
  }

  ghost function Holders<L>(s: Table<L>, l: L): set<nat> {
    set t | t in s.threads && s.threads[t].lock == l && s.threads[t].Holding?
  }

  ghost predicate LockInv<L>(s: Table<L>, l: L)
    requires l in s.locks
  {
    && s.locks[l].users == |Users(s, l)|
    && s.locks[l].tokens + |Holders(s, l)| == 1
    && (s.locks[l].users > 0 <==> s.locks[l].key in s.entries && s.entries[s.locks[l].key] == l)
  }

  ghost predicate Inv<L>(s: Table<L>) {
    && (forall k | k in s.entries :: s.entries[k] in s.locks && s.locks[s.entries[k]].key == k)
    && (forall t | t in s.threads ::
          s.threads[t].lock in s.locks && s.locks[s.threads[t].lock].key == s.threads[t].key)
    && (forall l | l in s.locks :: LockInv(s, l))
  }

  lemma UserCounts<L>(s: Table<L>, t: nat)
    requires Inv(s) && t in s.threads
    ensures var p := s.threads[t];
            && LockInv(s, p.lock)
            && s.locks[p.lock].users > 0
            && p.key in s.entries && s.entries[p.key] == p.lock
            && (p.Holding? ==> s.locks[p.lock].tokens == 0)
  {
    var l := s.threads[t].lock;
    assert LockInv(s, l);
    assert t in Users(s, l);
    if s.threads[t].Holding? {
      assert t in Holders(s, l);
    }
  }

  /** All threads but `t` are as they were. */
  ghost predicate OnlyMoves<L>(s: Table<L>, s': Table<L>, t: nat) {
    forall u | u != t :: if u in s.threads then u in s'.threads && s'.threads[u] == s.threads[u] else u !in s'.threads
  }

  ghost function Uses<L>(s: Table<L>, t: nat, l: L): int {
    if t in s.threads && s.threads[t].lock == l then 1 else 0
  }

  ghost function Holds<L>(s: Table<L>, t: nat, l: L): int {
    if t in s.threads && s.threads[t].lock == l && s.threads[t].Holding? then 1 else 0
  }

  lemma CountWithout(a: set<nat>, t: nat)
    ensures |a - {t}| == |a| - if t in a then 1 else 0
  {
  }

  lemma UsersMove<L>(s: Table<L>, s': Table<L>, t: nat, l: L)
    requires OnlyMoves(s, s', t)
    ensures |Users(s', l)| - Uses(s', t, l) == |Users(s, l)| - Uses(s, t, l)
  {
    CountWithout(Users(s, l), t);
    CountWithout(Users(s', l), t);
    forall u | u != t
      ensures u in Users(s', l) <==> u in Users(s, l)
    {
    }
    assert Users(s', l) - {t} == Users(s, l) - {t};
  }

  lemma HoldersMove<L>(s: Table<L>, s': Table<L>, t: nat, l: L)
    requires OnlyMoves(s, s', t)
    ensures |Holders(s', l)| - Holds(s', t, l) == |Holders(s, l)| - Holds(s, t, l)
  {
    CountWithout(Holders(s, l), t);
    CountWithout(Holders(s', l), t);
    forall u | u != t
      ensures u in Holders(s', l) <==> u in Holders(s, l)
    {
    }
    assert Holders(s', l) - {t} == Holders(s, l) - {t};
  }

  lemma CountsMove<L>(s: Table<L>, s': Table<L>, t: nat, l: L)
    requires OnlyMoves(s, s', t)
    ensures |Users(s', l)| - Uses(s', t, l) == |Users(s, l)| - Uses(s, t, l)
    ensures |Holders(s', l)| - Holds(s', t, l) == |Holders(s, l)| - Holds(s, t, l)
  {
    UsersMove(s, s', t, l);
    HoldersMove(s, s', t, l);
  }

  lemma RetainKeepsLock<L>(s: Table<L>, a: Step<L>, l: L)
    requires Inv(s) && Enabled(s, a) && a.Retain? && l in s.locks
    ensures l in Apply(s, a).locks && LockInv(Apply(s, a), l)
  {
    assert OnlyMoves(s, Apply(s, a), a.t);
    CountsMove(s, Apply(s, a), a.t, l);
    assert LockInv(s, l);
  }

  /** The spare object has become a lock with one user and a free token. */
  lemma RetainMakesLock<L>(s: Table<L>, a: Step<L>)
    requires Inv(s) && Enabled(s, a) && a.Retain? && a.key !in s.entries
    ensures a.spare in Apply(s, a).locks && LockInv(Apply(s, a), a.spare)
  {
    assert OnlyMoves(s, Apply(s, a), a.t);
    CountsMove(s, Apply(s, a), a.t, a.spare);
    assert Users(s, a.spare) == {} && Holders(s, a.spare) == {};
  }

  lemma RetainKeeps<L>(s: Table<L>, a: Step<L>)
    requires Inv(s) && Enabled(s, a) && a.Retain?
    ensures Inv(Apply(s, a))
  {
    var s' := Apply(s, a);
    assert s'.locks.Keys == s.locks.Keys + {Retained(s, a.key, a.spare).0};
    forall l | l in s'.locks
      ensures LockInv(s', l) && (l in s.locks ==> s'.locks[l].key == s.locks[l].key)
    {
      if l in s.locks {
        RetainKeepsLock(s, a, l);
      } else {
        RetainMakesLock(s, a);
      }
    }
  }

  /** Taking, returning or giving up: the thread goes on referring to its lock. */
  ghost predicate IsToken<L>(a: Step<L>) {
    a.Take? || a.GiveUp? || a.Return?
  }

  lemma TokenKeepsLock<L>(s: Table<L>, a: Step<L>, l: L)
    requires Inv(s) && Enabled(s, a) && IsToken(a) && l in s.locks
    ensures l in Apply(s, a).locks && LockInv(Apply(s, a), l)
  {
    assert OnlyMoves(s, Apply(s, a), a.t);
    CountsMove(s, Apply(s, a), a.t, l);
    assert LockInv(s, l);
  }

  lemma TokenKeeps<L>(s: Table<L>, a: Step<L>)
    requires Inv(s) && Enabled(s, a) && IsToken(a)
    ensures Inv(Apply(s, a))
  {
    var s' := Apply(s, a);
    assert s'.locks.Keys == s.locks.Keys;
    forall l | l in s'.locks
      ensures LockInv(s', l) && s'.locks[l].key == s.locks[l].key
    {
      TokenKeepsLock(s, a, l);
    }
  }

  lemma ReleaseKeepsLock<L>(s: Table<L>, t: nat, l: L)
    requires Inv(s) && Enabled(s, Release(t)) && l in s.locks
    ensures l in Apply(s, Release(t)).locks && LockInv(Apply(s, Release(t)), l)
  {
    UserCounts(s, t);
    assert OnlyMoves(s, Apply(s, Release(t)), t);
    CountsMove(s, Apply(s, Release(t)), t, l);
    assert LockInv(s, l);
  }

  lemma ReleaseKeeps<L>(s: Table<L>, t: nat)
    requires Inv(s) && Enabled(s, Release(t))
    ensures Inv(Apply(s, Release(t)))
  {
    var s' := Apply(s, Release(t));
    assert s'.locks.Keys == s.locks.Keys;
    forall l | l in s'.locks
      ensures LockInv(s', l) && s'.locks[l].key == s.locks[l].key
    {
      ReleaseKeepsLock(s, t, l);
    }
  }

  lemma StepKeeps<L>(s: Table<L>, a: Step<L>)
    requires Inv(s)
    ensures Inv(Apply(s, a))
  {
    if Enabled(s, a) {
      match a
      case Retain(_, _, _, _) => RetainKeeps(s, a);
      case Take(_) | GiveUp(_) | Return(_) => TokenKeeps(s, a);
      case Release(t) => ReleaseKeeps(s, t);
    }
  }

  lemma {:induction false} ExecKeeps<L>(s: Table<L>, steps: seq<Step<L>>)
    requires Inv(s)
    ensures Inv(Exec(s, steps))
    decreases |steps|
  {
    if steps != [] {
      StepKeeps(s, steps[0]);
      ExecKeeps(Apply(s, steps[0]), steps[1..]);
    }
  }

  // ----- What every interleaving guarantees

  lemma SetOfOne(x: nat, y: nat, s: set<nat>)
    requires x in s && y in s && |s| <= 1
    ensures x == y
  {
    assert x in s - {y} || x == y;
    assert |s - {y}| == |s| - 1;
  }

  /** However often entries are deleted and made anew, a key has one lock in use and one thread at most inside. */
  lemma MutualExclusion<L>(steps: seq<Step<L>>, t: nat, u: nat)
    ensures var s := Exec(Empty(), steps);
            t in s.threads && u in s.threads && s.threads[t].key == s.threads[u].key ==>
              && s.threads[t].lock == s.threads[u].lock
              && (s.threads[t].Holding? && s.threads[u].Holding? ==> t == u)
  {
    var s := Exec(Empty<L>(), steps);
    ExecKeeps(Empty<L>(), steps);
    if t in s.threads && u in s.threads && s.threads[t].key == s.threads[u].key {
      UserCounts(s, t);
      UserCounts(s, u);
      if s.threads[t].Holding? && s.threads[u].Holding? {
        SetOfOne(t, u, Holders(s, s.threads[t].lock));
      }
    }
  }

  /** An entry exists exactly while some thread refers to its lock. */
  lemma EntryIffUsed<L>(s: Table<L>, key: string)
    requires Inv(s)
    ensures key in s.entries <==> exists u :: u in s.threads && s.threads[u].key == key
  {
    if key in s.entries {
      assert LockInv(s, s.entries[key]);
      var u :| u in Users(s, s.entries[key]);
      assert s.threads[u].key == key;
    }
    forall u | u in s.threads && s.threads[u].key == key
      ensures key in s.entries
    {
      UserCounts(s, u);
    }
  }

  lemma KeysInFlight<L>(s: Table<L>)
    requires Inv(s)
    ensures s.entries.Keys == (set t | t in s.threads :: s.threads[t].key)
  {
    var keys := set t | t in s.threads :: s.threads[t].key;
    forall k
      ensures k in s.entries <==> k in keys
    {
      EntryIffUsed(s, k);
    }
  }

  /**
   The books always balance: each lock counts the threads referring to it, its token is either
   free or with one holder, the entries are exactly the keys with threads in flight, and a
   holder can always put the token back.
   */
  lemma Accounting<L>(steps: seq<Step<L>>)
    ensures var s := Exec(Empty(), steps);
            && (forall l | l in s.locks ::
                  s.locks[l].users == |Users(s, l)| && s.locks[l].tokens + |Holders(s, l)| == 1)
            && s.entries.Keys == (set t | t in s.threads :: s.threads[t].key)
            && (forall t | t in s.threads ::
                  && s.threads[t].key in s.entries && s.entries[s.threads[t].key] == s.threads[t].lock
                  && (s.threads[t].Holding? ==> Enabled(s, Return(t))))
  {
    var s := Exec(Empty<L>(), steps);
    ExecKeeps(Empty<L>(), steps);
    forall l | l in s.locks
      ensures s.locks[l].users == |Users(s, l)| && s.locks[l].tokens + |Holders(s, l)| == 1
    {
      assert LockInv(s, l);
    }
    forall t | t in s.threads
      ensures s.threads[t].key in s.entries && s.entries[s.threads[t].key] == s.threads[t].lock
      ensures s.threads[t].Holding? ==> Enabled(s, Return(t))
    {
      UserCounts(s, t);
    }
    KeysInFlight(s);
  }

  // ----- Progress

  /** The next step of some thread that needs nobody's help: not a new request, not a context ending. */
  ghost function Helper<L>(s: Table<L>, t: nat): Step<L>
    requires t in s.threads
  {
    match s.threads[t]
    case Waiting(_, _, _) => Take(t)
    case Holding(_, _) => Return(t)
    case Leaving(_, _) => Release(t)
  }

  /** While any thread is in flight, one of the threads on its key can step without a cancellation. */
  lemma NoDeadlock<L>(s: Table<L>, t: nat)
    requires Inv(s) && t in s.threads
    ensures exists u :: u in s.threads && s.threads[u].key == s.threads[t].key && Enabled(s, Helper(s, u))
  {
    UserCounts(s, t);
    var l := s.threads[t].lock;
    if s.threads[t].Waiting? && s.locks[l].tokens == 0 {
      var u :| u in Holders(s, l);
      assert Enabled(s, Helper(s, u));
    } else {
      assert Enabled(s, Helper(s, t));
    }
  }

  ghost function StepsLeft<L>(p: Phase<L>): nat {
    match p
    case Waiting(_, _, _) => 3
    case Holding(_, _) => 2
    case Leaving(_, _) => 1
  }

  ghost function AtLeast<L>(s: Table<L>, n: nat): set<nat> {
    set t | t in s.threads && StepsLeft(s.threads[t]) >= n
  }

  /** Steps left before the table is empty, if nobody asks again: each thread counts once per step it has left. */
  ghost function Work<L>(s: Table<L>): nat {
    |AtLeast(s, 3)| + |AtLeast(s, 2)| + |AtLeast(s, 1)|
  }

  ghost function Counted<L>(s: Table<L>, t: nat, n: nat): int {
    if t in s.threads && StepsLeft(s.threads[t]) >= n then 1 else 0
  }

  lemma WorkMoves<L>(s: Table<L>, s': Table<L>, t: nat, n: nat)
    requires OnlyMoves(s, s', t)
    ensures |AtLeast(s', n)| - Counted(s', t, n) == |AtLeast(s, n)| - Counted(s, t, n)
  {
    CountWithout(AtLeast(s, n), t);
    CountWithout(AtLeast(s', n), t);
    forall u | u != t
      ensures u in AtLeast(s', n) <==> u in AtLeast(s, n)
    {
    }
    assert AtLeast(s', n) - {t} == AtLeast(s, n) - {t};
  }

  lemma WorkShrinks<L>(s: Table<L>, a: Step<L>)
    requires Enabled(s, a) && !a.Retain?
    ensures Work(Apply(s, a)) < Work(s)
  {
    var s' := Apply(s, a);
    assert OnlyMoves(s, s', a.t);
    WorkMoves(s, s', a.t, 1);
    WorkMoves(s, s', a.t, 2);
    WorkMoves(s, s', a.t, 3);
  }

  lemma NothingLeft<L>(s: Table<L>)
    requires Inv(s) && s.threads == map[]
    ensures s.entries == map[]
  {
    if s.entries != map[] {
      var k :| k in s.entries;
      EntryIffUsed(s, k);
      assert false;
    }
  }

  /** Each step is possible when its turn comes, and none is a new request. */
  ghost predicate AllPossible<L>(s: Table<L>, steps: seq<Step<L>>)
    decreases |steps|
  {
    steps == [] || (!steps[0].Retain? && Enabled(s, steps[0]) && AllPossible(Apply(s, steps[0]), steps[1..]))
  }

  /**
   Without new requests, every run of possible steps is no longer than the work left, and one
   that cannot go on has emptied the table: no entry is leaked.
   */
  lemma {:induction false} Drains<L(!new)>(s: Table<L>, steps: seq<Step<L>>)
    requires Inv(s)
    requires AllPossible(s, steps)
    ensures |steps| <= Work(s)
    ensures var s' := Exec(s, steps);
            (forall a: Step<L> :: !a.Retain? ==> !Enabled(s', a)) ==> s'.threads == map[] && s'.entries == map[]
    decreases |steps|
  {
    if steps == [] {
      if s.threads != map[] {
        var t :| t in s.threads;
        NoDeadlock(s, t);
        var u :| u in s.threads && Enabled(s, Helper(s, u));
        assert !Helper(s, u).Retain?;
      } else {
        NothingLeft(s);
      }
    } else {
      WorkShrinks(s, steps[0]);
      StepKeeps(s, steps[0]);
      Drains(Apply(s, steps[0]), steps[1..]);
    }
  }

  /** Dropping a reference moves no token, and removes an entry only when nobody else refers to its lock. */
  ghost predicate Harmless<L>(s: Table<L>, s': Table<L>, key: string) {
    && s'.locks.Keys == s.locks.Keys
    && (forall l | l in s.locks :: s'.locks[l].tokens == s.locks[l].tokens)
    && (forall k | k in s'.entries :: k in s.entries && s'.entries[k] == s.entries[k])
    && (forall k | k in s.entries && k != key :: k in s'.entries)
    && (forall u | u in s'.threads :: s'.threads[u].key in s'.entries)
  }

  lemma ReleaseIsHarmless<L>(s: Table<L>, t: nat)
    requires Inv(s) && Enabled(s, Release(t))
    ensures Harmless(s, Apply(s, Release(t)), s.threads[t].key)
    ensures Apply(s, Release(t)).threads == s.threads - {t}
  {
    var s' := Apply(s, Release(t));
    StepKeeps(s, Release(t));
    forall u | u in s'.threads
      ensures s'.threads[u].key in s'.entries
    {
      UserCounts(s', u);
    }
  }

  /** A waiter that gives up takes no token, and takes no lock away from anyone who still uses it. */
  lemma GivingUpIsHarmless<L>(s: Table<L>, t: nat)
    requires Inv(s) && Enabled(s, GiveUp(t))
    ensures var s' := Apply(Apply(s, GiveUp(t)), Release(t));
            Harmless(s, s', s.threads[t].key) && s'.threads == s.threads - {t}
  {
    var s1 := Apply(s, GiveUp(t));
    StepKeeps(s, GiveUp(t));
    assert s1.locks == s.locks && s1.entries == s.entries;
    assert s1.threads - {t} == s.threads - {t};
    UserCounts(s1, t);
    ReleaseIsHarmless(s1, t);
  }
}
