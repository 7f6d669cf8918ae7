/** How single changes to a sandbox host keep its records in step. */
module PoolInvariant {
  import opened Prelude
  import opened BudgetSpec
  import opened BudgetSafety
  import opened Pool

  function Unindexed(agents: map<string, string>, u: Unit): map<string, string> {
    if Truthy(u.agent) then agents - {u.agent.value} else agents
  }

  /** Removing a unit, without touching the budget. */
  function Dropped(h: Host, u: Unit): Host {
    Host(h.units - {u.id}, Unindexed(h.agents, u), h.used - {u.port}, h.budget)
  }

  /** What an eviction leaves: no unit, no index entry, no port, and its cost released. */
  function Evicted(c: Config, h: Host, u: Unit): Host {
    Dropped(h, u).(budget := Released(c, h.budget, u.kind))
  }

  lemma CountRemoved(units: map<string, Unit>, id: string, k: Kind)
    requires id in units
    ensures Count(units - {id}, k) == Count(units, k) - if units[id].kind == k then 1 else 0
  {
    var rest := units - {id};
    var all := set x | x in units && units[x].kind == k;
    assert (set x | x in rest && rest[x].kind == k) == all - {id};
    if units[id].kind == k { assert id in all; } else { assert all - {id} == all; }
  }

  lemma CountAdded(units: map<string, Unit>, u: Unit, k: Kind)
    requires u.id !in units
    ensures Count(units[u.id := u], k) == Count(units, k) + if u.kind == k then 1 else 0
  {
    var more := units[u.id := u];
    CountRemoved(more, u.id, k);
    assert more - {u.id} == units;
  }

  lemma CountUpdated(units: map<string, Unit>, u: Unit, k: Kind)
    requires u.id in units && units[u.id].kind == u.kind
    ensures Count(units[u.id := u], k) == Count(units, k)
  {
    CountRemoved(units, u.id, k);
    CountRemoved(units[u.id := u], u.id, k);
    assert units[u.id := u] - {u.id} == units - {u.id};
  }

  lemma DroppedPorts(units: map<string, Unit>, used: set<int>, id: string)
    requires PortsInStep(units, used) && id in units
    ensures PortsInStep(units - {id}, used - {units[id].port})
  {
    var rest := units - {id};
    forall p ensures p in used - {units[id].port} <==> exists x :: x in rest && rest[x].port == p {
      if p in used - {units[id].port} {
        var x :| x in units && units[x].port == p;
        assert x in rest;
      }
      if x :| x in rest && rest[x].port == p {
        assert units[x].port == p;
      }
    }
  }

  lemma DroppedAgents(units: map<string, Unit>, agents: map<string, string>, u: string)
    requires AgentsInStep(units, agents) && u in units
    ensures AgentsInStep(units - {u}, Unindexed(agents, units[u]))
  {
    var rest, left := units - {u}, Unindexed(agents, units[u]);
    forall a, id ensures (a in left && left[a] == id) <==> (id in rest && rest[id].agent == Some(a)) {
      assert (a in agents && agents[a] == id) <==> (id in units && units[id].agent == Some(a));
      assert (a in agents && agents[a] == u) <==> (u in units && units[u].agent == Some(a));
    }
  }

  lemma PortsAdded(all: map<string, Unit>, used: set<int>, id: string, u: Unit)
    requires PortsInStep(all, used) && id !in all && u.port !in used
    ensures PortsInStep(all[id := u], used + {u.port})
  {
    var more := all[id := u];
    assert forall x :: x in all ==> all[x].port in used;
    forall p ensures p in used + {u.port} <==> exists x :: x in more && more[x].port == p {
      if p in used {
        var x :| x in all && all[x].port == p;
        assert x in more && more[x].port == p;
      }
      assert more[id].port == u.port;
    }
  }

  lemma PortsUpdated(all: map<string, Unit>, used: set<int>, id: string, u: Unit)
    requires PortsInStep(all, used) && id in all && u.port == all[id].port
    ensures PortsInStep(all[id := u], used)
  {
    var more := all[id := u];
    forall p ensures p in used <==> exists x :: x in more && more[x].port == p {
      if p in used {
        var x :| x in all && all[x].port == p;
        assert x in more && more[x].port == p;
      }
      if x :| x in more && more[x].port == p { assert x in all && all[x].port == p; }
    }
  }

  lemma AgentsAdded(units: map<string, Unit>, agents: map<string, string>, id: string, v: Unit)
    requires AgentsInStep(units, agents) && id !in units && v.agent.None?
    ensures AgentsInStep(units[id := v], agents)
  {
    var more := units[id := v];
    forall a, x ensures (a in agents && agents[a] == x) <==> (x in more && more[x].agent == Some(a)) {
      assert (a in agents && agents[a] == x) <==> (x in units && units[x].agent == Some(a));
    }
  }

  lemma AgentsDetached(units: map<string, Unit>, agents: map<string, string>, id: string, v: Unit)
    requires AgentsInStep(units, agents) && id in units && v.agent.None?
    ensures AgentsInStep(units[id := v], Unindexed(agents, units[id]))
  {
    DroppedAgents(units, agents, id);
    AgentsAdded(units - {id}, Unindexed(agents, units[id]), id, v);
    assert (units - {id})[id := v] == units[id := v];
  }

  lemma AgentsUpdated(units: map<string, Unit>, agents: map<string, string>, id: string, v: Unit)
    requires AgentsInStep(units, agents) && id in units && v.agent == units[id].agent
    ensures AgentsInStep(units[id := v], agents)
  {
    var more := units[id := v];
    forall a, x ensures (a in agents && agents[a] == x) <==> (x in more && more[x].agent == Some(a)) {
      assert (a in agents && agents[a] == x) <==> (x in units && units[x].agent == Some(a));
    }
  }

  lemma DroppedIndexes(h: Host, u: Unit)
    requires Named(h.units) && PortsInStep(h.units, h.used) && AgentsInStep(h.units, h.agents)
    requires u.id in h.units && h.units[u.id] == u
    ensures var d := Dropped(h, u); Named(d.units) && PortsInStep(d.units, d.used) && AgentsInStep(d.units, d.agents)
  {
    DroppedPorts(h.units, h.used, u.id);
    DroppedAgents(h.units, h.agents, u.id);
  }

  /** Evicting a unit of the host keeps everything in step, whatever the backend did. */
  lemma EvictedInStep(c: Config, h: Host, u: Unit)
    requires SaneCosts(c) && InStep(c, h) && u.id in h.units && h.units[u.id] == u
    ensures InStep(c, Evicted(c, h, u))
  {
    hide Rebuilt, Count, PortsInStep, AgentsInStep;
    DroppedIndexes(h, u);
    CountRemoved(h.units, u.id, Headless);
    CountRemoved(h.units, u.id, Desktop);
    StepAccurate(c, h.budget, BudgetSafety.Release(u.kind));
  }

  /** Changing fields that nothing else mirrors. */
  lemma UpdatedInStep(c: Config, h: Host, u: Unit)
    requires InStep(c, h) && u.id in h.units
    requires u.kind == h.units[u.id].kind && u.port == h.units[u.id].port && u.agent == h.units[u.id].agent
    requires u.status.Idle? ==> u.agent.None?
    ensures InStep(c, h.(units := h.units[u.id := u]))
  {
    hide Rebuilt, Count, PortsInStep, AgentsInStep;
    CountUpdated(h.units, u, Headless);
    CountUpdated(h.units, u, Desktop);
    PortsUpdated(h.units, h.used, u.id, u);
    AgentsUpdated(h.units, h.agents, u.id, u);
  }

  /** Releasing a unit's agent, or marking the unit for a reset. */
  lemma DetachedInStep(c: Config, h: Host, id: string, status: Status, now: int)
    requires InStep(c, h) && id in h.units
    ensures InStep(c, h.(units := h.units[id := Detached(h.units[id], status, now)], agents := Unindexed(h.agents, h.units[id])))
  {
    hide Rebuilt, Count, PortsInStep, AgentsInStep;
    var v := Detached(h.units[id], status, now);
    AgentsDetached(h.units, h.agents, id, v);
    PortsUpdated(h.units, h.used, id, v);
    CountUpdated(h.units, v, Headless);
    CountUpdated(h.units, v, Desktop);
  }

  /**
   * Handing a unit to an agent keeps the index in step exactly when the agent has a name, the unit is free or already
   * its own, and the agent has no other unit.
   */
  lemma AssignInStep(c: Config, h: Host, id: string, agent: string, now: int)
    requires InStep(c, h) && id in h.units
    ensures var u := h.units[id];
      InStep(c, h.(units := h.units[id := u.(agent := Some(agent), status := Assigned, lastUsed := now)],
                   agents := h.agents[agent := id]))
      <==> MayAssign(h.units, h.agents, id, agent)
  {
    var u := h.units[id];
    var v := u.(agent := Some(agent), status := Assigned, lastUsed := now);
    var units, agents := h.units[id := v], h.agents[agent := id];
    hide Rebuilt, Count, PortsInStep, AgentsInStep;
    AssignIndex(h.units, h.agents, id, agent, v);
    CountUpdated(h.units, v, Headless);
    CountUpdated(h.units, v, Desktop);
    PortsUpdated(h.units, h.used, id, v);
  }
}
