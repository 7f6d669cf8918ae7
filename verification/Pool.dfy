/** The units of a sandbox host: their records, the agent index and the port ranges. */
module Pool {
  import opened Prelude
  import opened BudgetSpec

  datatype Status = Idle | Assigned | Resetting | Unhealthy | Promoting | Demoting

  datatype Unit = Unit(id: string, kind: Kind, port: int, status: Status, persistent: bool, agent: Option<string>,
                       createdAt: int, lastUsed: int, lastCommand: Option<int>, failures: nat)

  /** Everything that has to stay in step: unit records, agent index, used ports, budget. */
  datatype Host = Host(units: map<string, Unit>, agents: map<string, string>, used: set<int>, budget: Budget)

  function Count(units: map<string, Unit>, k: Kind): nat {
    |set id | id in units && units[id].kind == k|
  }

  /** Units that active_count counts: those not marked unhealthy. */
  function ActiveCount(units: map<string, Unit>, k: Kind): nat {
    |set id | id in units && units[id].kind == k && !units[id].status.Unhealthy?|
  }

  ghost predicate Named(units: map<string, Unit>) {
    forall id :: id in units ==> units[id].id == id
  }

  /** The used ports are exactly the units' ports, and no two units share one. */
  ghost predicate PortsInStep(units: map<string, Unit>, used: set<int>) {
    (forall p :: p in used <==> exists id :: id in units && units[id].port == p)
    && forall a, b :: a in units && b in units && units[a].port == units[b].port ==> a == b
  }

  /** The index maps an agent to a unit exactly when that unit records the agent. */
  ghost predicate AgentsInStep(units: map<string, Unit>, agents: map<string, string>) {
    (forall id :: id in units && units[id].agent.Some? ==> units[id].agent.value != "")
    && forall a, id :: (a in agents && agents[a] == id) <==> (id in units && units[id].agent == Some(a))
  }

  predicate BudgetInStep(c: Config, units: map<string, Unit>, b: Budget) {
    b == Rebuilt(c, Count(units, Headless), Count(units, Desktop))
  }

  ghost predicate IdleFree(units: map<string, Unit>) {
    forall id :: id in units && units[id].status.Idle? ==> units[id].agent.None?
  }

  ghost predicate InStep(c: Config, h: Host) {
    Named(h.units) && IdleFree(h.units) && PortsInStep(h.units, h.used) && AgentsInStep(h.units, h.agents) && BudgetInStep(c, h.units, h.budget)
  }

  /** The agent has a name, the unit is free or already its own, and the agent has no other unit. */
  predicate MayAssign(units: map<string, Unit>, agents: map<string, string>, id: string, agent: string)
    requires id in units
  {
    agent != "" && (units[id].agent.None? || units[id].agent == Some(agent)) && (agent in agents ==> agents[agent] == id)
  }

  /** Recording an agent in unit and index keeps the index in step exactly when it may be assigned. */
  lemma AssignIndex(before: map<string, Unit>, index: map<string, string>, id: string, agent: string, v: Unit)
    requires AgentsInStep(before, index) && id in before && v.agent == Some(agent)
    ensures AgentsInStep(before[id := v], index[agent := id])
      <==> MayAssign(before, index, id, agent)
  {
    var u, units, agents := before[id], before[id := v], index[agent := id];
    if MayAssign(before, index, id, agent) {
      forall a, x ensures (a in agents && agents[a] == x) <==> (x in units && units[x].agent == Some(a)) {
        assert (a in index && index[a] == x) <==> (x in before && before[x].agent == Some(a));
      }
    } else if agent == "" {
      assert units[id].agent == Some("");
    } else if u.agent.Some? && u.agent != Some(agent) {
      var other := u.agent.value;
      assert other in index && index[other] == id;
      assert other in agents && agents[other] == id && units[id].agent != Some(other);
    } else {
      var x := index[agent];
      assert x in before && before[x].agent == Some(agent);
      assert units[x].agent == Some(agent) && agents[agent] != x;
    }
  }

  /** Two ranges of ports, one per kind of unit. */
  datatype Ranges = Ranges(headlessStart: int, headlessEnd: int, desktopStart: int, desktopEnd: int)

  class PortAllocator {
    const ranges: Ranges
    var used: set<int>

    constructor (ranges: Ranges)
      ensures this.ranges == ranges && used == {}
    {
      this.ranges, used := ranges, {};
    }

    /** The lowest free port of the range, or none when the range is full. */
    method Allocate(k: Kind) returns (port: Option<int>)
      modifies this
      ensures var start := if k.Desktop? then ranges.desktopStart else ranges.headlessStart;
        var end := if k.Desktop? then ranges.desktopEnd else ranges.headlessEnd;
        match port
        case Some(p) => start <= p <= end && p !in old(used) && used == old(used) + {p}
                        && forall q :: start <= q < p ==> q in old(used)
        case None => used == old(used) && forall q :: start <= q <= end ==> q in used
    {
      var start, end := ranges.headlessStart, ranges.headlessEnd;
      if k.Desktop? { start, end := ranges.desktopStart, ranges.desktopEnd; }
      var p := start;
      while p < end + 1
        invariant start <= p
        invariant used == old(used) && forall q :: start <= q < p ==> q in used
      {
        if p !in used {
          used := used + {p};
          return Some(p);
        }
        p := p + 1;
      }
      return None;
    }

    method Release(port: int)
      modifies this
      ensures used == old(used) - {port}
    {
      used := used - {port};
    }

    method ReclaimFromPool(ports: set<int>)
      modifies this
      ensures used == ports
    {
      used := ports;
    }
  }

  class PoolState {
    var units: map<string, Unit>
    var agents: map<string, string>

    constructor (units: map<string, Unit>, agents: map<string, string>)
      ensures this.units == units && this.agents == agents
    {
      this.units, this.agents := units, agents;
    }

    method Update(u: Unit)
      modifies this
      ensures units == old(units)[u.id := u] && agents == old(agents)
    {
      units := units[u.id := u];
    }

    method Remove(id: string)
      modifies this
      ensures units == old(units) - {id}
      ensures agents == if id in old(units) && Truthy(old(units)[id].agent) then old(agents) - {old(units)[id].agent.value} else old(agents)
    {
      if id in units {
        var u := units[id];
        units := units - {id};
        if Truthy(u.agent) { agents := agents - {u.agent.value}; }
      }
    }

    /** In step, the index answers exactly with the unit that records the agent. */
    method GetByAgent(agent: string) returns (u: Option<Unit>)
      ensures u == if agent in agents && agents[agent] != "" && agents[agent] in units then Some(units[agents[agent]]) else None
      ensures Named(units) && AgentsInStep(units, agents) && "" !in units ==>
        forall id :: id in units ==> (u == Some(units[id]) <==> units[id].agent == Some(agent))
    {
      u := None;
      if agent in agents {
        var id := agents[agent];
        if id != "" && id in units { u := Some(units[id]); }
      }
    }

    method Assign(id: string, agent: string, now: int)
      requires id in units
      modifies this
      ensures units == old(units)[id := old(units)[id].(agent := Some(agent), status := Assigned, lastUsed := now)]
      ensures agents == old(agents)[agent := id]
      ensures AgentsInStep(old(units), old(agents)) ==>
        (AgentsInStep(units, agents) <==> MayAssign(old(units), old(agents), id, agent))
    {
      ghost var v := units[id].(agent := Some(agent), status := Assigned, lastUsed := now);
      if AgentsInStep(units, agents) { AssignIndex(units, agents, id, agent, v); }
      units := units[id := units[id].(agent := Some(agent), status := Assigned, lastUsed := now)];
      agents := agents[agent := id];
    }

    /** release and mark_resetting differ only in the status they leave. */
    method Detach(id: string, status: Status, now: int)
      modifies this
      ensures id !in old(units) ==> units == old(units) && agents == old(agents)
      ensures id in old(units) ==>
        units == old(units)[id := Detached(old(units)[id], status, now)]
        && agents == if Truthy(old(units)[id].agent) then old(agents) - {old(units)[id].agent.value} else old(agents)
    {
      if id in units {
        var u := units[id];
        if Truthy(u.agent) { agents := agents - {u.agent.value}; }
        units := units[id := Detached(u, status, now)];
      }
    }

    method ActiveUnits(k: Kind) returns (n: nat)
      ensures n == ActiveCount(units, k)
    {
      n := 0;
      var todo := units.Keys;
      while todo != {}
        invariant todo <= units.Keys
        invariant n == |ActiveIds(units, units.Keys - todo, k)|
      {
        var id :| id in todo;
        NextActive(units, units.Keys - todo, id, k);
        assert units.Keys - (todo - {id}) == (units.Keys - todo) + {id};
        todo := todo - {id};
        if units[id].kind == k && !units[id].status.Unhealthy? { n := n + 1; }
      }
      assert units.Keys - {} == units.Keys;
      assert ActiveIds(units, units.Keys, k) == set id | id in units && units[id].kind == k && !units[id].status.Unhealthy?;
    }
  }

  function ActiveIds(units: map<string, Unit>, ids: set<string>, k: Kind): set<string> {
    set id | id in ids && id in units && units[id].kind == k && !units[id].status.Unhealthy?
  }

  lemma NextActive(units: map<string, Unit>, ids: set<string>, id: string, k: Kind)
    requires id in units && id !in ids
    ensures |ActiveIds(units, ids + {id}, k)|
         == |ActiveIds(units, ids, k)| + if units[id].kind == k && !units[id].status.Unhealthy? then 1 else 0
  {
    if units[id].kind == k && !units[id].status.Unhealthy? {
      assert ActiveIds(units, ids + {id}, k) == ActiveIds(units, ids, k) + {id};
      assert id !in ActiveIds(units, ids, k);
    } else {
      assert ActiveIds(units, ids + {id}, k) == ActiveIds(units, ids, k);
    }
  }

  function Detached(u: Unit, status: Status, now: int): Unit {
    u.(agent := None, status := status, failures := 0, lastUsed := now)
  }
}
