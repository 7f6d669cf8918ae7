/** The background passes over a sandbox host: eviction, idle sweep, health check, restart and reset. */
module HealthMonitorModule {
  import opened Prelude
  import opened BudgetSpec
  import opened BudgetModule
  import opened BudgetSafety
  import opened Pool
  import opened PoolInvariant

  const BOOT_GRACE: int := 180

  datatype Settings = Settings(idleThreshold: int, assignedTtl: int, failThreshold: int, hasVm: bool)

  /** How a restart or reset of the backend ended. */
  datatype Outcome = Raised | Ready | NotReady

  /** What the environment answers when one unit is examined. */
  datatype Checkup = Checkup(now: int, pingOk: bool, restart: Outcome)

  function CommandIdle(u: Unit, now: int): int {
    now - if u.lastCommand.Some? then u.lastCommand.value else u.lastUsed
  }

  predicate OverIdle(s: Settings, u: Unit, now: int) {
    !u.persistent && (u.status.Idle? || u.status.Assigned?) && CommandIdle(u, now) > s.idleThreshold
  }

  /** r is what a sweep leaves of u: only a temporary unit out of conversion goes, when nothing used it for too long. */
  ghost predicate Swept(s: Settings, u: Unit, now: int, r: Option<Unit>) {
    var since := match u.lastCommand case Some(t) => t case None => u.lastUsed;
    (u.persistent || (u.status != Idle && u.status != Assigned) || now - since <= s.idleThreshold ==> r == Some(u))
    && (!u.persistent && (u.status == Idle || u.status == Assigned) && now - since > s.idleThreshold ==> r == None)
  }

  lemma SweepSays(s: Settings, u: Unit, now: int)
    ensures Swept(s, u, now, if OverIdle(s, u, now) then None else Some(u))
  {
  }

  predicate Zombie(s: Settings, u: Unit, e: Checkup) {
    u.status.Assigned? && !(u.kind.Desktop? && e.now - u.createdAt < BOOT_GRACE)
    && !u.persistent && e.now - u.lastUsed > s.assignedTtl
  }

  /** What a restart makes of a unit, or none if it is evicted. */
  function Restarted(s: Settings, u: Unit, outcome: Outcome): Option<Unit> {
    if outcome.Raised? || (u.kind.Desktop? && !s.hasVm) then None
    else Some(u.(failures := 0,
                 status := if outcome.NotReady? then Unhealthy else if Truthy(u.agent) then Assigned else Idle))
  }

  /** What a health pass makes of a unit, or none if it is evicted. */
  function HealthFate(s: Settings, u: Unit, e: Checkup): Option<Unit> {
    if u.status.Resetting? || u.status.Promoting? || u.status.Demoting? then Some(u)
    else if u.kind.Desktop? && e.now - u.createdAt < BOOT_GRACE then Some(u)
    else if u.status.Unhealthy? then None
    else if Zombie(s, u, e) then Some(Detached(u, Resetting, e.now))
    else if e.pingOk then Some(u.(failures := 0))
    else if u.failures + 1 < s.failThreshold then Some(u.(failures := u.failures + 1))
    else Restarted(s, u, e.restart)
  }

  function ResetFate(u: Unit, e: Checkup): Option<Unit> {
    if u.kind.Headless? && !e.restart.Ready? then None else Some(Detached(u, Idle, e.now))
  }

  // ----- What a health pass does, field by field -----

  /** A pass does not look at a unit that is being reset or converted, or at a desktop that is still booting. */
  predicate LeftAlone(u: Unit, e: Checkup) {
    u.status == Resetting || u.status == Promoting || u.status == Demoting || (u.kind == Desktop && e.now - u.createdAt < 180)
  }

  /** A temporary unit that an agent has not used for too long. */
  predicate Abandoned(s: Settings, u: Unit, e: Checkup) {
    u.status == Assigned && !u.persistent && e.now - u.lastUsed > s.assignedTtl
  }

  /** The unit is asked whether it is well. */
  predicate Pinged(s: Settings, u: Unit, e: Checkup) {
    !LeftAlone(u, e) && u.status != Unhealthy && !Abandoned(s, u, e)
  }

  predicate EvictedByRestart(s: Settings, u: Unit, e: Checkup) {
    e.restart == Raised || (u.kind == Desktop && !s.hasVm)
  }

  /** r is what a restart at the failure threshold leaves of u. */
  ghost predicate RestartSays(s: Settings, u: Unit, e: Checkup, r: Option<Unit>) {
    (EvictedByRestart(s, u, e) ==> r == None)
    && (!EvictedByRestart(s, u, e) && e.restart == NotReady ==> r == Some(u.(failures := 0, status := Unhealthy)))
    && (!EvictedByRestart(s, u, e) && e.restart == Ready && (u.agent == None || u.agent == Some("")) ==> r == Some(u.(failures := 0, status := Idle)))
    && (!EvictedByRestart(s, u, e) && e.restart == Ready && u.agent != None && u.agent != Some("") ==> r == Some(u.(failures := 0, status := Assigned)))
  }

  /** r is what a health pass leaves of u, or none when it is evicted. */
  ghost predicate PassSays(s: Settings, u: Unit, e: Checkup, r: Option<Unit>) {
    (LeftAlone(u, e) ==> r == Some(u))
    && (!LeftAlone(u, e) && u.status == Unhealthy ==> r == None)
    && (!LeftAlone(u, e) && Abandoned(s, u, e) ==> r == Some(u.(status := Resetting, agent := None, failures := 0, lastUsed := e.now)))
    && (Pinged(s, u, e) && e.pingOk ==> r == Some(u.(failures := 0)))
    && (Pinged(s, u, e) && !e.pingOk && u.failures + 1 < s.failThreshold ==> r == Some(u.(failures := u.failures + 1)))
    && (Pinged(s, u, e) && !e.pingOk && u.failures + 1 >= s.failThreshold ==> RestartSays(s, u, e, r))
  }

  lemma FateSays(s: Settings, u: Unit, e: Checkup)
    ensures PassSays(s, u, e, HealthFate(s, u, e))
    ensures RestartSays(s, u, e, Restarted(s, u, e.restart))
    ensures Zombie(s, u, e) <==> !LeftAlone(u, e) && Abandoned(s, u, e)
  {
  }

  // ----- Many passes -----

  /** The unanswered pings at the end of a run of checkups. */
  ghost function Silence(es: seq<Checkup>): nat {
    if es == [] || es[|es| - 1].pingOk then 0 else Silence(es[..|es| - 1]) + 1
  }

  /** At no moment of the run have as many pings in a row gone unanswered as the threshold says. */
  ghost predicate Tolerated(s: Settings, es: seq<Checkup>) {
    es == [] || (Tolerated(s, es[..|es| - 1]) && (Silence(es) == 0 || Silence(es) < s.failThreshold))
  }

  /** What is left of a unit after several passes, if they find it as the first one leaves it. */
  ghost function AfterPasses(s: Settings, u: Unit, es: seq<Checkup>): Option<Unit> {
    if es == [] then Some(u) else
      match AfterPasses(s, u, es[..|es| - 1])
      case None => None
      case Some(v) => HealthFate(s, v, es[|es| - 1])
  }

  /**
   * A unit that every pass pings is unchanged, apart from its count of the pings that went unanswered since the last
   * answer, as long as these never reach the threshold.
   */
  lemma {:induction false} FailuresCounted(s: Settings, u: Unit, es: seq<Checkup>)
    requires u.failures == 0 && (forall e :: e in es ==> Pinged(s, u, e)) && Tolerated(s, es)
    ensures AfterPasses(s, u, es) == Some(u.(failures := Silence(es)))
  {
    if es != [] {
      var n := |es| - 1;
      FailuresCounted(s, u, es[..n]);
      assert Pinged(s, u, es[n]);
      FateSays(s, u.(failures := Silence(es[..n])), es[n]);
    } else {
      assert u.(failures := 0) == u;
    }
  }

  /** It is restarted by the pass that makes the unanswered pings in a row as many as the threshold, and by no earlier one. */
  lemma RestartedAtThreshold(s: Settings, u: Unit, es: seq<Checkup>, e: Checkup)
    requires u.failures == 0 && (forall x :: x in es ==> Pinged(s, u, x)) && Pinged(s, u, e) && Tolerated(s, es)
    ensures e.pingOk ==> AfterPasses(s, u, es + [e]) == Some(u)
    ensures !e.pingOk && Silence(es) + 1 < s.failThreshold ==> AfterPasses(s, u, es + [e]) == Some(u.(failures := Silence(es) + 1))
    ensures !e.pingOk && Silence(es) + 1 >= s.failThreshold ==> RestartSays(s, u, e, AfterPasses(s, u, es + [e]))
  {
    FailuresCounted(s, u, es);
    assert (es + [e])[..|es|] == es;
    FateSays(s, u.(failures := Silence(es)), e);
  }

  /** A health pass that still has todo to examine has given every other unit its fate. */
  ghost predicate Examined(s: Settings, before: map<string, Unit>, checkups: map<string, Checkup>, todo: set<string>,
                           units: map<string, Unit>)
    requires before.Keys <= checkups.Keys
  {
    (forall id :: id in units <==> id in before && (id in todo || HealthFate(s, before[id], checkups[id]).Some?))
    && forall id :: id in units ==> units[id] == if id in todo then before[id] else HealthFate(s, before[id], checkups[id]).value
  }

  lemma ExaminedNext(s: Settings, before: map<string, Unit>, checkups: map<string, Checkup>, todo: set<string>, id: string,
                     units: map<string, Unit>)
    requires before.Keys <= checkups.Keys && todo <= before.Keys && id in todo && Examined(s, before, checkups, todo, units)
    ensures id in units && units[id] == before[id]
    ensures Examined(s, before, checkups, todo - {id}, match HealthFate(s, before[id], checkups[id])
                                                       case None => units - {id}
                                                       case Some(v) => units[id := v])
  {
    hide HealthFate;
  }

  lemma ExaminedNone(s: Settings, before: map<string, Unit>, checkups: map<string, Checkup>)
    requires before.Keys <= checkups.Keys
    ensures Examined(s, before, checkups, before.Keys, before)
  {
    hide HealthFate;
  }

  lemma ExaminedAll(s: Settings, before: map<string, Unit>, checkups: map<string, Checkup>, units: map<string, Unit>)
    requires before.Keys <= checkups.Keys && Examined(s, before, checkups, {}, units)
    ensures forall id :: id in units <==> id in before && HealthFate(s, before[id], checkups[id]).Some?
    ensures forall id :: id in units ==> units[id] == HealthFate(s, before[id], checkups[id]).value
  {
    hide HealthFate;
  }

  class HealthMonitor {
    const settings: Settings
    const pool: PoolState
    const ports: PortAllocator
    const budget: CapacityBudget

    constructor (settings: Settings, pool: PoolState, ports: PortAllocator, budget: CapacityBudget)
      ensures this.settings == settings && this.pool == pool && this.ports == ports && this.budget == budget
    {
      this.settings, this.pool, this.ports, this.budget := settings, pool, ports, budget;
    }

    function State(): Host
      reads pool, ports, budget
    {
      Host(pool.units, pool.agents, ports.used, budget.State())
    }

    ghost predicate Valid()
      reads pool, ports, budget
      ensures Valid() ==> forall id :: id in pool.units ==>
        var u := pool.units[id]; u.id == id && u.agent != Some("") && (u.status.Idle? ==> u.agent.None?)
    {
      SaneCosts(budget.config) && InStep(budget.config, State())
    }

    /** Whether destroying the container or the machine raised makes no difference: the records are always cleared. */
    method Evict(u: Unit, backend: Outcome)
      requires Valid() && u.id in pool.units && pool.units[u.id] == u
      modifies pool, ports, budget
      ensures Valid() && State() == Evicted(budget.config, old(State()), u)
      ensures pool.units == old(pool.units) - {u.id} && ports.used == old(ports.used) - {u.port}
      ensures pool.agents == (if u.agent == None || u.agent == Some("") then old(pool.agents) else old(pool.agents) - {u.agent.value})
      ensures budget.State() == Released(budget.config, old(budget.State()), u.kind)
    {
      EvictedInStep(budget.config, State(), u);
      ports.Release(u.port);
      pool.Remove(u.id);
      budget.Release(u.kind);
    }

    method Store(u: Unit)
      requires Valid() && u.id in pool.units
      requires u.kind == pool.units[u.id].kind && u.port == pool.units[u.id].port && u.agent == pool.units[u.id].agent
      requires u.status.Idle? ==> u.agent.None?
      modifies pool
      ensures Valid() && pool.units == old(pool.units)[u.id := u]
    {
      UpdatedInStep(budget.config, State(), u);
      pool.Update(u);
    }

    method Detach(id: string, status: Status, now: int)
      requires Valid() && id in pool.units
      modifies pool
      ensures Valid() && pool.units == old(pool.units)[id := Detached(old(pool.units)[id], status, now)]
      ensures pool.agents == Unindexed(old(pool.agents), old(pool.units)[id])
    {
      DetachedInStep(budget.config, State(), id, status, now);
      pool.Detach(id, status, now);
    }

    /**
     * A sweep removes exactly the temporary units idle beyond the threshold, in whatever order it meets them.
     * checkups holds what the environment answers when each unit is looked at.
     */
    method SweepIdle(checkups: map<string, Checkup>)
      requires Valid() && pool.units.Keys <= checkups.Keys
      modifies pool, ports, budget
      ensures Valid()
      ensures pool.units == map id | id in old(pool.units) && !OverIdle(settings, old(pool.units)[id], checkups[id].now) :: old(pool.units)[id]
      ensures forall id :: id in old(pool.units) ==>
                Swept(settings, old(pool.units)[id], checkups[id].now, if id in pool.units then Some(pool.units[id]) else None)
    {
      hide *;
      var todo := pool.units.Keys;
      ghost var before := pool.units;
      while todo != {}
        invariant Valid() && todo <= before.Keys
        invariant pool.units == map id | id in before && (id in todo || !OverIdle(settings, before[id], checkups[id].now)) :: before[id]
      {
        var id :| id in todo;
        todo := todo - {id};
        var u := pool.units[id];
        var idle := OverIdle(settings, u, checkups[id].now);
        if idle { Evict(u, checkups[id].restart); }
      }
      forall id | id in before
        ensures Swept(settings, before[id], checkups[id].now, if id in pool.units then Some(pool.units[id]) else None)
      {
        SweepSays(settings, before[id], checkups[id].now);
      }
    }

    method Restart(u: Unit, e: Checkup)
      requires Valid() && u.id in pool.units && pool.units[u.id] == u
      modifies pool, ports, budget
      ensures Valid()
      ensures pool.units == match Restarted(settings, u, e.restart)
                            case None => old(pool.units) - {u.id}
                            case Some(v) => old(pool.units)[u.id := v]
      ensures RestartSays(settings, u, e, if u.id in pool.units then Some(pool.units[u.id]) else None)
      ensures pool.units - {u.id} == old(pool.units) - {u.id}
    {
      hide Valid, State, Evicted;
      FateSays(settings, u, e);
      if u.kind.Desktop? && !settings.hasVm {
        Evict(u, e.restart);
        return;
      }
      if e.restart.Raised? {
        Evict(u, e.restart);
        return;
      }
      var v := u.(failures := 0);
      Store(v);
      if e.restart.Ready? {
        v := v.(status := if Truthy(v.agent) then Assigned else Idle);
        Store(v);
      } else {
        v := v.(status := Unhealthy);
        Store(v);
      }
    }

    /** A health pass gives every unit its fate, and nothing falls out of step; resets are left to be run later. */
    method CheckAllHealth(checkups: map<string, Checkup>) returns (resets: set<string>)
      requires Valid() && pool.units.Keys <= checkups.Keys
      modifies pool, ports, budget
      ensures Valid()
      ensures forall id :: id in pool.units <==> id in old(pool.units) && HealthFate(settings, old(pool.units)[id], checkups[id]).Some?
      ensures forall id :: id in pool.units ==> pool.units[id] == HealthFate(settings, old(pool.units)[id], checkups[id]).value
      ensures resets == set id | id in old(pool.units) && Zombie(settings, old(pool.units)[id], checkups[id])
      ensures pool.units.Keys <= old(pool.units.Keys)
      ensures forall id :: id in old(pool.units) ==>
                PassSays(settings, old(pool.units)[id], checkups[id], if id in pool.units then Some(pool.units[id]) else None)
                && (id in resets <==> !LeftAlone(old(pool.units)[id], checkups[id]) && Abandoned(settings, old(pool.units)[id], checkups[id]))
    {
      hide *;
      resets := {};
      var todo := pool.units.Keys;
      ghost var before := pool.units;
      ExaminedNone(settings, before, checkups);
      while todo != {}
        invariant Valid() && todo <= before.Keys
        invariant Examined(settings, before, checkups, todo, pool.units)
        invariant resets == set id | id in before - todo && Zombie(settings, before[id], checkups[id])
      {
        var id :| id in todo;
        ExaminedNext(settings, before, checkups, todo, id, pool.units);
        var zombie := Examine(id, checkups[id]);
        todo := todo - {id};
        if zombie { resets := resets + {id}; }
      }
      ExaminedAll(settings, before, checkups, pool.units);
      forall id | id in before
        ensures PassSays(settings, before[id], checkups[id], if id in pool.units then Some(pool.units[id]) else None)
        ensures Zombie(settings, before[id], checkups[id])
           <==> !LeftAlone(before[id], checkups[id]) && Abandoned(settings, before[id], checkups[id])
      {
        FateSays(settings, before[id], checkups[id]);
      }
    }

    method Examine(id: string, e: Checkup) returns (zombie: bool)
      requires Valid() && id in pool.units && pool.units[id].id == id
      modifies pool, ports, budget
      ensures Valid() && zombie == Zombie(settings, old(pool.units)[id], e)
      ensures pool.units == match HealthFate(settings, old(pool.units)[id], e)
                            case None => old(pool.units) - {id}
                            case Some(v) => old(pool.units)[id := v]
    {
      hide Valid, State, Evicted;
      var u := pool.units[id];
      zombie := false;
      if u.status.Resetting? || u.status.Promoting? || u.status.Demoting? { return; }
      if u.kind.Desktop? && e.now - u.createdAt < BOOT_GRACE { return; }
      if u.status.Unhealthy? {
        Evict(u, e.restart);
        return;
      }
      if u.status.Assigned? && !u.persistent && e.now - u.lastUsed > settings.assignedTtl {
        Detach(id, Resetting, e.now);
        return true;
      }
      if e.pingOk {
        if u.failures > 0 { Store(u.(failures := 0)); }
        return;
      }
      u := u.(failures := u.failures + 1);
      Store(u);
      if u.failures >= settings.failThreshold {
        u := u.(status := Unhealthy);
        Store(u);
        Restart(u, e);
      }
    }

    /** The reset a health pass scheduled, run while its unit is still there. */
    method ResetUnit(id: string, e: Checkup)
      requires Valid() && id in pool.units
      modifies pool, ports, budget
      ensures Valid()
      ensures pool.units == match ResetFate(old(pool.units)[id], e)
                            case None => old(pool.units) - {id}
                            case Some(v) => old(pool.units)[id := v]
      ensures var u := old(pool.units)[id];
              if u.kind == Desktop || e.restart == Ready
              then pool.units == old(pool.units)[id := u.(status := Idle, agent := None, failures := 0, lastUsed := e.now)]
              else pool.units == old(pool.units) - {id}
    {
      var u := pool.units[id];
      if u.kind.Headless? {
        if e.restart.Raised? {
          Evict(u, e.restart);
        } else if e.restart.Ready? {
          Detach(id, Idle, e.now);
        } else {
          Evict(u, e.restart);
        }
      } else {
        Detach(id, Idle, e.now);
      }
    }
  }
}
