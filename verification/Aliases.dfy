/**
 Requests as callers make them: each names its VM by any identifier, looks it up on a host whose
 domains come, go and change names, and then works under the lock of the UUID it found.
 */
module Aliases {
  import opened Wrappers
  import opened Errors
  import opened Actions
  import opened ActionRuns
  import opened ActionProgress
  import opened Identity
  import L = LockTable

  /** How the calls that find a domain and ask it for its UUID fail of themselves. */
  datatype Lookups = Lookups(byName: Option<Code>, byUUID: Option<Code>, identity: Option<Code>)

  /** What a request asked for, and when: an index into the host's past. */
  datatype Target = Target(identifier: seq<byte>, at: nat, answer: Lookup<nat>)

  datatype Site = Site(world: World, hosts: seq<Host>, targets: map<nat, Target>)

  /** `Enter` is a request that has found its domain asking for the lock; `Onward` any other move. */
  datatype Step =
    | Find(t: nat, identifier: seq<byte>, lookups: Lookups)
    | Enter(t: nat, kind: Kind, faults: Faults, spare: nat)
    | Onward(move: Move)
    | Redefine(host: Host)

  ghost function Open(vms: map<string, Vm>, host: Host): Site {
    Site(Begin(vms), [host], map[])
  }

  ghost function Today(s: Site): Host
    requires s.hosts != []
  {
    s.hosts[|s.hosts| - 1]
  }

  ghost function FindDomain(h: Host, uuids: Registry, a: seq<byte>, lookups: Lookups): Lookup<nat>
    requires Consistent(h, uuids)
  {
    var x := LookupDomain(a, NameAnswer(h, lookups.byName, a), UuidAnswer(h, uuids, lookups.byUUID, a));
    if x.Resolved? && lookups.identity.Some? then Unresolved(Wrapped(Identifying, Libvirt(lookups.identity.value)))
    else x
  }

  ghost predicate Located(s: Site, t: nat) {
    t in s.targets && s.targets[t].answer.Resolved?
  }

  /** The request under the UUID of the domain that was found. */
  ghost function Asked(s: Site, uuids: Registry, e: Step): Move
    requires e.Enter? && Located(s, e.t) && s.targets[e.t].answer.domain in uuids
  {
    Ask(e.t, Request(uuids[s.targets[e.t].answer.domain], e.kind, e.faults), e.spare)
  }

  ghost predicate Admits(s: Site, uuids: Registry, e: Step) {
    match e
    case Find(t, _, lookups) =>
      && t !in s.targets && t !in s.world.jobs && s.hosts != [] && Consistent(Today(s), uuids)
      && Honest(lookups.byName) && Honest(lookups.byUUID)
    case Enter(t, _, _, _) => Located(s, t) && s.targets[t].answer.domain in uuids
    case Onward(m) => !m.Ask?
    case Redefine(h) => Consistent(h, uuids)
  }

  ghost function Next(s: Site, uuids: Registry, e: Step): Site {
    if !Admits(s, uuids, e) then s
    else
      match e
      case Find(t, a, lookups) =>
        s.(targets := s.targets[t := Target(a, |s.hosts| - 1, FindDomain(Today(s), uuids, a, lookups))])
      case Enter(_, _, _, _) => s.(world := ActionRuns.Next(s.world, Asked(s, uuids, e)))
      case Onward(m) => s.(world := ActionRuns.Next(s.world, m))
      case Redefine(h) => s.(hosts := s.hosts + [h])
  }

  ghost function Exec(s: Site, uuids: Registry, steps: seq<Step>): Site
    decreases |steps|
  {
    if steps == [] then s else Exec(Next(s, uuids, steps[0]), uuids, steps[1..])
  }

  // ----- Behind the lookups, runs of requests

  ghost function MoveOf(s: Site, uuids: Registry, e: Step): seq<Move> {
    if !Admits(s, uuids, e) then []
    else if e.Enter? then [Asked(s, uuids, e)]
    else if e.Onward? then [e.move]
    else []
  }

  ghost function Moves(s: Site, uuids: Registry, steps: seq<Step>): seq<Move>
    decreases |steps|
  {
    if steps == [] then []
    else MoveOf(s, uuids, steps[0]) + Moves(Next(s, uuids, steps[0]), uuids, steps[1..])
  }

  /** Whatever holds of all runs of requests holds here: lookups only choose the keys. */
  lemma {:induction false} RunsOfRequests(s: Site, uuids: Registry, steps: seq<Step>)
    ensures Exec(s, uuids, steps).world == Travel(s.world, Moves(s, uuids, steps))
    decreases |steps|
  {
    if steps != [] {
      var s' := Next(s, uuids, steps[0]);
      var rest := Moves(s', uuids, steps[1..]);
      RunsOfRequests(s', uuids, steps[1..]);
      if MoveOf(s, uuids, steps[0]) == [] {
        assert [] + rest == rest;
      } else {
        TravelOn(s.world, MoveOf(s, uuids, steps[0])[0], rest);
      }
    }
  }

  // ----- What the lookups leave behind

  /** The answer was right when it was given. */
  ghost predicate WasRight(target: Target, hosts: seq<Host>, uuids: Registry) {
    && target.at < |hosts|
    && match target.answer
       case Resolved(domain) =>
         && domain in uuids
         && forall d :: Denotes(hosts[target.at], uuids, target.identifier, d) <==> d == domain
       case Unresolved(e) =>
         && Status(e) in {404, 503}
         && (Status(e) == 404 ==> forall d :: !Denotes(hosts[target.at], uuids, target.identifier, d))
  }

  /** Each request works under the UUID of the domain it found. */
  ghost predicate Keyed(s: Site, uuids: Registry) {
    forall t | t in s.world.jobs ::
      && Located(s, t) && s.targets[t].answer.domain in uuids
      && s.world.jobs[t].request.key == uuids[s.targets[t].answer.domain]
  }

  ghost predicate SiteInv(s: Site, uuids: Registry) {
    && s.hosts != []
    && (forall i | 0 <= i < |s.hosts| :: Consistent(s.hosts[i], uuids))
    && (forall t | t in s.targets :: WasRight(s.targets[t], s.hosts, uuids))
    && Keyed(s, uuids)
  }

  lemma FindsRight(hosts: seq<Host>, uuids: Registry, a: seq<byte>, lookups: Lookups)
    requires hosts != [] && Unique(uuids) && Consistent(hosts[|hosts| - 1], uuids)
    requires Honest(lookups.byName) && Honest(lookups.byUUID)
    ensures var last := |hosts| - 1;
            WasRight(Target(a, last, FindDomain(hosts[last], uuids, a, lookups)), hosts, uuids)
  {
    var h := hosts[|hosts| - 1];
    ResolvesExactly(h, uuids, a, lookups.byName, lookups.byUUID);
    var x := FindDomain(h, uuids, a, lookups);
    if x.Unresolved? {
      StatusIsOfRoot(x.error);
      assert x.error.Wrapped? ==> Root(x.error) == Root(x.error.cause);
    } else {
      assert Denotes(h, uuids, a, x.domain);
    }
  }

  /** A domain whose UUID cannot be read is not found either, and that is a 503. */
  lemma FindsExactly(h: Host, uuids: Registry, a: seq<byte>, lookups: Lookups)
    requires Consistent(h, uuids)
    ensures var byName, byUUID := NameAnswer(h, lookups.byName, a), UuidAnswer(h, uuids, lookups.byUUID, a);
            var x, found := FindDomain(h, uuids, a, lookups), LookupDomain(a, byName, byUUID);
            && (x.Resolved? <==> found.Resolved? && lookups.identity.None?)
            && (x.Resolved? || found.Unresolved? ==> x == found)
            && (x.Unresolved? && found.Resolved? ==> Status(x.error) == 503)
  {
    var x := FindDomain(h, uuids, a, lookups);
    if x.Unresolved? {
      StatusIsOfRoot(x.error);
      assert x.error.Wrapped? ==> Root(x.error) == Root(x.error.cause);
    }
  }

  lemma SameRequests(w: World, m: Move)
    requires !m.Ask?
    ensures ActionRuns.Next(w, m).jobs.Keys == w.jobs.Keys
    ensures forall t | t in w.jobs :: ActionRuns.Next(w, m).jobs[t].request == w.jobs[t].request
  {
  }

  lemma FindKeeps(s: Site, uuids: Registry, e: Step)
    requires Unique(uuids) && SiteInv(s, uuids) && Admits(s, uuids, e) && e.Find?
    ensures SiteInv(Next(s, uuids, e), uuids)
  {
    FindsRight(s.hosts, uuids, e.identifier, e.lookups);
  }

  lemma RedefineKeeps(s: Site, uuids: Registry, e: Step)
    requires SiteInv(s, uuids) && Admits(s, uuids, e) && e.Redefine?
    ensures SiteInv(Next(s, uuids, e), uuids)
  {
    var hosts := s.hosts + [e.host];
    assert forall i | 0 <= i < |s.hosts| :: hosts[i] == s.hosts[i];
    forall t | t in s.targets
      ensures WasRight(s.targets[t], hosts, uuids)
    {
      assert WasRight(s.targets[t], s.hosts, uuids);
    }
  }

  lemma WorkKeepsKeys(s: Site, uuids: Registry, e: Step)
    requires Keyed(s, uuids) && (e.Enter? || e.Onward?)
    ensures Keyed(Next(s, uuids, e), uuids)
  {
    if e.Onward? && Admits(s, uuids, e) {
      SameRequests(s.world, e.move);
    }
  }

  lemma SiteKeeps(s: Site, uuids: Registry, e: Step)
    requires Unique(uuids) && SiteInv(s, uuids)
    ensures SiteInv(Next(s, uuids, e), uuids)
  {
    if Admits(s, uuids, e) {
      match e
      case Find(_, _, _) => FindKeeps(s, uuids, e);
      case Enter(_, _, _, _) | Onward(_) => WorkKeepsKeys(s, uuids, e);
      case Redefine(_) => RedefineKeeps(s, uuids, e);
    }
  }

  lemma {:induction false} RunKeepsSite(s: Site, uuids: Registry, steps: seq<Step>)
    requires Unique(uuids) && SiteInv(s, uuids)
    ensures SiteInv(Exec(s, uuids, steps), uuids)
    decreases |steps|
  {
    if steps != [] {
      SiteKeeps(s, uuids, steps[0]);
      RunKeepsSite(Next(s, uuids, steps[0]), uuids, steps[1..]);
    }
  }

  lemma EverySite(vms: map<string, Vm>, host: Host, uuids: Registry, steps: seq<Step>)
    requires Unique(uuids) && Consistent(host, uuids)
    ensures var s := Exec(Open(vms, host), uuids, steps);
            SiteInv(s, uuids) && L.Inv(s.world.table) && JobsInv(s.world)
  {
    RunKeepsSite(Open(vms, host), uuids, steps);
    RunsOfRequests(Open(vms, host), uuids, steps);
    RunsAreSound(vms, Moves(Open(vms, host), uuids, steps));
  }

  // ----- Aliases share a lock, strangers do not

  ghost predicate InFlight(s: Site, t: nat) {
    t in s.world.table.threads
  }

  /** What a request in flight refers to: the lock of its domain's UUID. */
  lemma LockOfDomain(s: Site, uuids: Registry, t: nat)
    requires SiteInv(s, uuids) && L.Inv(s.world.table) && JobsInv(s.world) && InFlight(s, t)
    ensures Located(s, t) && s.targets[t].answer.domain in uuids
    ensures var p, key := s.world.table.threads[t], uuids[s.targets[t].answer.domain];
            && p.key == key && s.world.jobs[t].request.key == key
            && key in s.world.table.entries && s.world.table.entries[key] == p.lock
            && p.lock in s.world.table.locks && s.world.table.locks[p.lock].key == key
  {
    assert InStep(s.world.jobs[t], PhaseOf(s.world, t));
    L.UserCounts(s.world.table, t);
  }

  /**
   On every run, for any two requests in flight, under whatever identifiers and whenever they were
   looked up: they refer to one lock object exactly when they found the same domain, and then not
   both are between taking and returning the token.
   */
  lemma AliasesShareALock(vms: map<string, Vm>, host: Host, uuids: Registry, steps: seq<Step>, t: nat, u: nat)
    requires Unique(uuids) && Consistent(host, uuids)
    ensures var s := Exec(Open(vms, host), uuids, steps);
            InFlight(s, t) && InFlight(s, u) ==>
              && Located(s, t) && Located(s, u)
              && var p, q := s.world.table.threads[t], s.world.table.threads[u];
              && (p.lock == q.lock <==> s.targets[t].answer.domain == s.targets[u].answer.domain)
              && (s.targets[t].answer.domain == s.targets[u].answer.domain && p.Holding? && q.Holding? ==> t == u)
  {
    var s := Exec(Open(vms, host), uuids, steps);
    EverySite(vms, host, uuids, steps);
    if InFlight(s, t) && InFlight(s, u) {
      LockOfDomain(s, uuids, t);
      LockOfDomain(s, uuids, u);
      if s.world.table.threads[t].Holding? && s.world.table.threads[u].Holding?
         && s.world.table.threads[t].key == s.world.table.threads[u].key {
        OneHolder(s.world, t, u);
      }
    }
  }

  /** No two requests work on one domain at a time, by whatever names they know it. */
  lemma AliasesTakeTurns(vms: map<string, Vm>, host: Host, uuids: Registry, steps: seq<Step>, t: nat, u: nat)
    requires Unique(uuids) && Consistent(host, uuids)
    ensures var s := Exec(Open(vms, host), uuids, steps);
            AtWork(s.world, t) && AtWork(s.world, u) ==>
              && Located(s, t) && Located(s, u)
              && (s.targets[t].answer.domain == s.targets[u].answer.domain ==> t == u)
  {
    EverySite(vms, host, uuids, steps);
    RunsOfRequests(Open(vms, host), uuids, steps);
    OneAtWork(vms, Moves(Open(vms, host), uuids, steps), t, u);
  }

  /**
   A request works on the domain that its identifier stood for when it was looked up, and on no
   other; one that found nothing never touches any VM, and fails with 404 only if nothing was there.
   */
  lemma WorksOnWhatItNamed(vms: map<string, Vm>, host: Host, uuids: Registry, steps: seq<Step>, t: nat)
    requires Unique(uuids) && Consistent(host, uuids)
    ensures var s := Exec(Open(vms, host), uuids, steps);
            && (t in s.world.jobs ==>
                  && Located(s, t) && s.targets[t].at < |s.hosts| && s.targets[t].answer.domain in uuids
                  && Denotes(s.hosts[s.targets[t].at], uuids, s.targets[t].identifier, s.targets[t].answer.domain)
                  && s.world.jobs[t].request.key == uuids[s.targets[t].answer.domain])
            && (t in s.targets && s.targets[t].answer.Unresolved? ==>
                  && t !in s.world.jobs && s.targets[t].at < |s.hosts|
                  && var status := Status(s.targets[t].answer.error);
                     && status in {404, 503}
                     && (status == 404 ==>
                           forall d :: !Denotes(s.hosts[s.targets[t].at], uuids, s.targets[t].identifier, d)))
  {
    EverySite(vms, host, uuids, steps);
    var s := Exec(Open(vms, host), uuids, steps);
    if t in s.world.jobs {
      assert WasRight(s.targets[t], s.hosts, uuids);
    }
  }
}
