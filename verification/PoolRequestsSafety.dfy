/** When the requests a sandbox host serves at the same time keep its records in balance. */
module PoolRequestsSafety {
  import opened Prelude
  import opened BudgetSpec
  import opened BudgetSafety
  import opened Pool
  import opened PoolInvariant
  import opened PoolRequests
  import opened PoolAccounts

  // ----- Index and ports -----

  lemma Indexed(units: map<string, Unit>, agents: map<string, string>, agent: string)
    requires AgentsInStep(units, agents)
    ensures agent in agents ==> agents[agent] in units && units[agents[agent]].agent == Some(agent)
    ensures forall id :: id in units && units[id].agent == Some(agent) ==> agent in agents && agents[agent] == id
  {
  }

  lemma PortsStored(units: map<string, Unit>, pending: map<string, Work>, used: set<int>, id: string, u: Unit)
    requires PortsInStep(All(units, pending), used) && id in units && id !in pending && u.port == units[id].port
    ensures PortsInStep(All(units[id := u], pending), used)
  {
    hide PortsInStep, All;
    AllStored(units, pending, id, u);
    PortsUpdated(All(units, pending), used, id, u);
  }

  lemma PortsLanded(units: map<string, Unit>, pending: map<string, Work>, used: set<int>, n: string, u: Unit)
    requires PortsInStep(All(units, pending), used) && n !in units && n in pending && u.port == pending[n].port
    ensures PortsInStep(All(units[n := u], pending - {n}), used)
  {
    hide PortsInStep, All;
    AllLanded(units, pending, n, u);
    AllFreed(units, pending, n);
    PortsUpdated(All(units, pending), used, n, u);
  }

  lemma PortsFreed(units: map<string, Unit>, pending: map<string, Work>, used: set<int>, n: string)
    requires PortsInStep(All(units, pending), used) && n !in units && n in pending
    ensures PortsInStep(All(units, pending - {n}), used - {pending[n].port})
    ensures !PortsInStep(All(units, pending - {n}), used)
  {
    hide PortsInStep, All;
    AllFreed(units, pending, n);
    DroppedPorts(All(units, pending), used, n);
    PortLost(All(units, pending), used, n);
  }

  lemma PortLost(all: map<string, Unit>, used: set<int>, id: string)
    requires PortsInStep(all, used) && id in all
    ensures !PortsInStep(all - {id}, used)
  {
    assert all[id].port in used;
  }

  lemma PortsTaken(units: map<string, Unit>, pending: map<string, Work>, used: set<int>, n: string, w: Work)
    requires PortsInStep(All(units, pending), used) && n !in units && n !in pending && w.port !in used
    ensures PortsInStep(All(units, pending[n := w]), used + {w.port})
  {
    hide PortsInStep, All;
    AllTaken(units, pending, n, w);
    PortsAdded(All(units, pending), used, n, Future(n, w));
  }

  lemma PortsDropped(units: map<string, Unit>, pending: map<string, Work>, used: set<int>, id: string)
    requires PortsInStep(All(units, pending), used) && id in units && id !in pending
    ensures PortsInStep(All(units - {id}, pending), used - {units[id].port})
  {
    hide PortsInStep, All;
    AllDropped(units, pending, id);
    DroppedPorts(All(units, pending), used, id);
  }

  /** A port that is given back while a unit has it leaves that unit without one. */
  lemma PortTakenAway(all: map<string, Unit>, used: set<int>, port: int)
    requires PortsInStep(all, used)
    ensures PortsInStep(all, used - {port}) <==> port !in used
  {
    if port in used {
      var id :| id in all && all[id].port == port;
      assert port !in used - {port};
    } else {
      assert used - {port} == used;
    }
  }

  // ----- Single steps -----

  ghost predicate BalancedIn(c: Config, units: map<string, Unit>, agents: map<string, string>, used: set<int>, b: Budget,
                             pending: map<string, Work>) {
    AgentsInStep(units, agents) && PortsInStep(All(units, pending), used)
    && Holds(c, b, OwedOf(units, pending, Headless), OwedOf(units, pending, Desktop))
  }

  lemma BalancedIs(c: Config, s: System)
    ensures Balanced(c, s) <==> BalancedIn(c, s.host.units, s.host.agents, s.host.used, s.host.budget, s.pending)
  {
    hide AgentsInStep, PortsInStep;
    AccountsHold(c, s);
  }

  lemma HandOutExact(c: Config, h: Host, pending: map<string, Work>, id: string, agent: string, now: int)
    requires BalancedIn(c, h.units, h.agents, h.used, h.budget, pending) && id in h.units && id !in pending && h.units[id].id == id
    ensures var t := HandedOut(h, id, agent, now);
      (BalancedIn(c, t.units, t.agents, t.used, t.budget, pending) <==> MayAssign(h.units, h.agents, id, agent))
      && forall k :: OwedOf(t.units, pending, k) == OwedOf(h.units, pending, k)
  {
    hide AgentsInStep, PortsInStep, OwedOf, Holds;
    var v := h.units[id].(agent := Some(agent), status := Assigned, lastUsed := now);
    AssignIndex(h.units, h.agents, id, agent, v);
    PortsStored(h.units, pending, h.used, id, v);
    forall k ensures OwedOf(h.units[id := v], pending, k) == OwedOf(h.units, pending, k) {
      OwedStored(h.units, pending, id, v, k);
    }
  }

  lemma DetachingKeeps(c: Config, h: Host, pending: map<string, Work>, id: string, status: Status, now: int)
    requires BalancedIn(c, h.units, h.agents, h.used, h.budget, pending) && id in h.units && id !in pending && h.units[id].id == id
    ensures var t := Detaching(h, id, status, now); BalancedIn(c, t.units, t.agents, t.used, t.budget, pending)
  {
    hide AgentsInStep, PortsInStep, OwedOf, Holds;
    var v := Detached(h.units[id], status, now);
    AgentsDetached(h.units, h.agents, id, v);
    PortsStored(h.units, pending, h.used, id, v);
    OwedStored(h.units, pending, id, v, Headless);
    OwedStored(h.units, pending, id, v, Desktop);
  }

  lemma StatusKeeps(c: Config, h: Host, pending: map<string, Work>, id: string, status: Status)
    requires BalancedIn(c, h.units, h.agents, h.used, h.budget, pending) && id in h.units && id !in pending && h.units[id].id == id
    ensures BalancedIn(c, h.units[id := h.units[id].(status := status)], h.agents, h.used, h.budget, pending)
  {
    hide AgentsInStep, PortsInStep, OwedOf, Holds;
    var v := h.units[id].(status := status);
    AgentsUpdated(h.units, h.agents, id, v);
    PortsStored(h.units, pending, h.used, id, v);
    OwedStored(h.units, pending, id, v, Headless);
    OwedStored(h.units, pending, id, v, Desktop);
  }

  /** Changing only a status changes nothing else that has to balance. */
  lemma StatusOwed(units: map<string, Unit>, pending: map<string, Work>, id: string, status: Status)
    requires id in units && id !in pending && units[id].id == id
    ensures forall k :: OwedOf(units[id := units[id].(status := status)], pending, k) == OwedOf(units, pending, k)
  {
    hide OwedOf;
    forall k ensures OwedOf(units[id := units[id].(status := status)], pending, k) == OwedOf(units, pending, k) {
      OwedStored(units, pending, id, units[id].(status := status), k);
    }
  }

  // ----- Finishing -----

  /** A unit that lands where the balance is right is one its agent may be given if that agent is not indexed. */
  lemma RegisterExact(c: Config, s: System, n: string, w: Work, now: int)
    requires Traced(s) && Fresh(s, n)
    requires BalancedIn(c, s.host.units[n := NewUnit(n, w.kind, w.port, w.persistent, now)], s.host.agents, s.host.used, s.host.budget, s.pending)
    requires AgentsInStep(s.host.units, s.host.agents)
    ensures Balanced(c, Registered(s, n, w, now)) <==> (Truthy(w.agent) ==> w.agent.value !in s.host.agents)
  {
    hide BalancedIn, Traced, AgentsInStep, Balanced;
    var u := NewUnit(n, w.kind, w.port, w.persistent, now);
    var h := s.host.(units := s.host.units[n := u]);
    BalancedIs(c, Registered(s, n, w, now));
    if Truthy(w.agent) {
      Indexed(s.host.units, s.host.agents, w.agent.value);
      HandOutExact(c, h, s.pending, n, w.agent.value, now);
    }
  }

  lemma CreationDone(c: Config, s: System, n: string, now: int)
    requires Traced(s) && Balanced(c, s) && n in s.pending && s.pending[n].replacing.None?
    ensures Balanced(c, Finished(c, s, n, true, now)) <==> FinishGuard(c, s, n, true)
  {
    hide AgentsInStep, PortsInStep, OwedOf, Holds, Traced, Balanced;
    var h, w := s.host, s.pending[n];
    BalancedIs(c, s);
    TracedFreed(s, n);
    var u := NewUnit(n, w.kind, w.port, w.persistent, now);
    AgentsAdded(h.units, h.agents, n, u);
    PortsLanded(h.units, s.pending, h.used, n, u);
    OwedLanded(h.units, s.pending, n, u, Headless);
    OwedLanded(h.units, s.pending, n, u, Desktop);
    RegisterExact(c, s.(pending := s.pending - {n}), n, w, now);
  }

  lemma CreationFailed(c: Config, s: System, n: string, now: int)
    requires SaneCosts(c) && Traced(s) && Balanced(c, s) && n in s.pending && s.pending[n].replacing.None?
    ensures Balanced(c, Finished(c, s, n, false, now)) <==> FinishGuard(c, s, n, false)
  {
    hide AgentsInStep, PortsInStep, OwedOf, Holds, Released, SaneCosts, Balanced;
    var h, w := s.host, s.pending[n];
    BalancedIs(c, s);
    BalancedIs(c, Finished(c, s, n, false, now));
    PortsFreed(h.units, s.pending, h.used, n);
    OwedFreed(h.units, s.pending, n, Headless);
    OwedFreed(h.units, s.pending, n, Desktop);
    HoldsReleased(c, h.budget, OwedOf(h.units, s.pending, Headless), OwedOf(h.units, s.pending, Desktop), w.kind);
  }

  lemma ConversionDone(c: Config, s: System, n: string, id: string, now: int)
    requires Traced(s) && Balanced(c, s) && n in s.pending && s.pending[n].replacing == Some(id)
    ensures Balanced(c, Finished(c, s, n, true, now)) <==> FinishGuard(c, s, n, true)
  {
    hide AgentsInStep, PortsInStep, OwedOf, Holds, Traced, Balanced, Removed;
    var rest := s.(pending := s.pending - {n});
    WaitsFor(s, n, id);
    TracedFreed(s, n);
    TracedRemoved(rest, id);
    if id in s.host.units {
      ConversionLands(c, s, n, id, now);
    } else {
      ConversionStray(c, s, n, id, now);
    }
  }

  lemma WaitsFor(s: System, n: string, id: string)
    requires Traced(s) && n in s.pending && s.pending[n].replacing == Some(id)
    ensures Known(s, id) && Record(s, id).kind != s.pending[n].kind && id !in s.pending && n !in s.host.units && !Known(s, n)
    ensures Record(s, id).id == id && n != ""
  {
  }

  lemma ConversionLands(c: Config, s: System, n: string, id: string, now: int)
    requires Traced(s) && Balanced(c, s) && n in s.pending && s.pending[n].replacing == Some(id) && id in s.host.units
    requires var rest := s.(pending := s.pending - {n}); Traced(Removed(rest, id)) && Known(rest, id)
    ensures Balanced(c, Finished(c, s, n, true, now)) <==> FinishGuard(c, s, n, true)
  {
    hide AgentsInStep, PortsInStep, OwedOf, Holds, Traced, Balanced;
    var h, w := s.host, s.pending[n];
    var u, v := h.units[id], NewUnit(n, w.kind, w.port, w.persistent, now);
    WaitsFor(s, n, id);
    BalancedIs(c, s);
    DroppedAgents(h.units, h.agents, id);
    AgentsAdded(h.units - {id}, Unindexed(h.agents, u), n, v);
    PortsDropped(h.units, s.pending, h.used, id);
    PortsLanded(h.units - {id}, s.pending, h.used - {u.port}, n, v);
    forall k ensures OwedOf((h.units - {id})[n := v], s.pending - {n}, k) == OwedOf(h.units, s.pending, k) {
      OwedDropped(h.units, s.pending, id, k);
      OwedLanded(h.units - {id}, s.pending, n, v, k);
    }
    RegisterExact(c, Removed(s.(pending := s.pending - {n}), id), n, w, now);
    if Truthy(w.agent) { Indexed(h.units, h.agents, w.agent.value); }
  }

  /** The unit to be replaced is gone: nothing matches the slot it gave up. */
  lemma ConversionStray(c: Config, s: System, n: string, id: string, now: int)
    requires Traced(s) && Balanced(c, s) && n in s.pending && s.pending[n].replacing == Some(id) && id !in s.host.units
    ensures !Balanced(c, Finished(c, s, n, true, now))
  {
    hide AgentsInStep, PortsInStep, OwedOf, Traced, Balanced, Accurate;
    var h, w := s.host, s.pending[n];
    var v := NewUnit(n, w.kind, w.port, w.persistent, now);
    var rest := s.(pending := s.pending - {n});
    WaitsFor(s, n, id);
    BalancedIs(c, s);
    BalancedIs(c, Finished(c, s, n, true, now));
    var k := Record(s, id).kind;
    OwedLanded(h.units, s.pending, n, v, k);
    var last := if Truthy(w.agent) then v.(agent := w.agent, status := Assigned, lastUsed := now) else v;
    OwedStored(h.units[n := v], s.pending - {n}, n, last, k);
    assert Finished(c, s, n, true, now).host.units == h.units[n := v][n := last];
  }

  lemma ConversionFailed(c: Config, s: System, n: string, id: string, now: int)
    requires Traced(s) && Balanced(c, s) && n in s.pending && s.pending[n].replacing == Some(id)
    ensures Balanced(c, Finished(c, s, n, false, now)) <==> FinishGuard(c, s, n, false)
  {
    hide AgentsInStep, PortsInStep, OwedOf, Holds, Traced, Balanced, Converted, PromoteError;
    var h, w := s.host, s.pending[n];
    WaitsFor(s, n, id);
    if Undone(c, h.budget, w.kind).None? {
      FailedStuck(c, s, n, id, now);
    } else if id in h.units {
      FailedBack(c, s, n, id, now);
    } else {
      FailedStray(c, s, n, id, now);
    }
  }

  /** The budget does not take the demoted unit back, although nothing replaces it. */
  lemma FailedStuck(c: Config, s: System, n: string, id: string, now: int)
    requires Traced(s) && Balanced(c, s) && n in s.pending && s.pending[n].replacing == Some(id)
    requires Undone(c, s.host.budget, s.pending[n].kind).None?
    ensures !Balanced(c, Finished(c, s, n, false, now))
  {
    hide AgentsInStep, PortsInStep, OwedOf, Traced, Balanced, Accurate, Converted, PromoteError;
    WaitsFor(s, n, id);
    BalancedIs(c, s);
    BalancedIs(c, Finished(c, s, n, false, now));
    OwedFreed(s.host.units, s.pending, n, s.pending[n].kind);
  }

  lemma FailedBack(c: Config, s: System, n: string, id: string, now: int)
    requires Traced(s) && Balanced(c, s) && n in s.pending && s.pending[n].replacing == Some(id)
    requires Undone(c, s.host.budget, s.pending[n].kind).Some? && id in s.host.units
    ensures Balanced(c, Finished(c, s, n, false, now)) <==> CountOf(s.host.budget, s.pending[n].kind) >= 1
  {
    hide AgentsInStep, PortsInStep, OwedOf, Holds, Traced, Balanced, Converted, PromoteError;
    var h, w := s.host, s.pending[n];
    WaitsFor(s, n, id);
    BalancedIs(c, s);
    BalancedIs(c, Finished(c, s, n, false, now));
    var v := h.units[id].(status := StatusFor(w.agent));
    AgentsUpdated(h.units, h.agents, id, v);
    PortsFreed(h.units, s.pending, h.used, n);
    PortsStored(h.units, s.pending - {n}, h.used - {w.port}, id, v);
    forall k ensures OwedOf(h.units[id := v], s.pending - {n}, k) == OwedOf(h.units, s.pending, k) - Weight(w, k) {
      OwedFreed(h.units, s.pending, n, k);
      OwedStored(h.units, s.pending - {n}, id, v, k);
    }
    HoldsConverted(c, h.budget, OwedOf(h.units, s.pending, Headless), OwedOf(h.units, s.pending, Desktop), Other(w.kind));
  }

  /** Putting back a unit that was removed meanwhile brings back a unit that nobody accounts for. */
  lemma FailedStray(c: Config, s: System, n: string, id: string, now: int)
    requires Traced(s) && Balanced(c, s) && n in s.pending && s.pending[n].replacing == Some(id)
    requires Undone(c, s.host.budget, s.pending[n].kind).Some? && id !in s.host.units
    ensures !Balanced(c, Finished(c, s, n, false, now))
  {
    hide AgentsInStep, PortsInStep, OwedOf, Traced, Balanced, Accurate, PromoteError;
    var h, w := s.host, s.pending[n];
    WaitsFor(s, n, id);
    BalancedIs(c, s);
    BalancedIs(c, Finished(c, s, n, false, now));
    var v := Record(s, id).(status := StatusFor(w.agent));
    OwedFreed(h.units, s.pending, n, v.kind);
    OwedStored(h.units, s.pending - {n}, id, v, v.kind);
  }

  // ----- Beginning -----

  lemma ConvertExact(c: Config, vm: bool, s: System, id: string, newId: string, to: Kind, port: Option<int>)
    requires Traced(s) && Balanced(c, s) && Fresh(s, newId) && FreePort(s, port) && !Refused(c, vm, s.host, id, to)
    ensures Balanced(c, ConvertBegun(c, vm, s, id, newId, to, port))
      <==> if port.Some? then CountOf(s.host.budget, s.host.units[id].kind) >= 1
           else Undone(c, Converted(c, s.host.budget, Up(to)), to).Some?
  {
    hide AgentsInStep, PortsInStep, OwedOf, Traced, Balanced, Converted, PromoteError, Holds;
    var h := s.host;
    TracedNamed(s, id);
    BalancedIs(c, s);
    var t := ConvertBegun(c, vm, s, id, newId, to, port);
    BalancedIs(c, t);
    if port.Some? {
      ConvertWaits(c, s, id, newId, to, port.value);
    } else if Undone(c, Converted(c, h.budget, Up(to)), to).Some? {
      StatusKeeps(c, h, s.pending, id, StatusFor(h.units[id].agent));
      UndoneIs(c, h.budget, to);
    } else {
      StatusOwed(h.units, s.pending, id, Converting(to));
      CountsDiffer(c, h.budget, OwedOf(h.units, s.pending, Headless), OwedOf(h.units, s.pending, Desktop), to);
    }
  }

  lemma UndoneIs(c: Config, b: Budget, to: Kind)
    requires Undone(c, Converted(c, b, Up(to)), to).Some?
    ensures Undone(c, Converted(c, b, Up(to)), to).value == b
  {
  }

  lemma CountsDiffer(c: Config, b: Budget, h: int, d: int, to: Kind)
    requires Holds(c, b, h, d)
    ensures !Holds(c, Converted(c, b, Up(to)), h, d)
  {
  }

  lemma ConvertWaits(c: Config, s: System, id: string, newId: string, to: Kind, port: int)
    requires Traced(s) && BalancedIn(c, s.host.units, s.host.agents, s.host.used, s.host.budget, s.pending)
    requires Fresh(s, newId) && port !in s.host.used && id in s.host.units && s.host.units[id].kind != to
    ensures var h := s.host;
      var w := Work(to, port, false, h.units[id].agent, Some(id));
      BalancedIn(c, h.units[id := h.units[id].(status := Converting(to))], h.agents, h.used + {port},
                 Converted(c, h.budget, Up(to)), s.pending[newId := w])
      <==> CountOf(h.budget, h.units[id].kind) >= 1
  {
    hide AgentsInStep, PortsInStep, OwedOf, Traced, Converted, Holds;
    var h := s.host;
    var w := Work(to, port, false, h.units[id].agent, Some(id));
    var v := h.units[id].(status := Converting(to));
    TracedNamed(s, id);
    AgentsUpdated(h.units, h.agents, id, v);
    PortsTaken(h.units, s.pending, h.used, newId, w);
    PortsStored(h.units, s.pending[newId := w], h.used + {port}, id, v);
    forall k ensures OwedOf(h.units[id := v], s.pending[newId := w], k) == OwedOf(h.units, s.pending, k) + Weight(w, k) {
      OwedTaken(h.units, s.pending, newId, w, k);
      OwedStored(h.units, s.pending[newId := w], id, v, k);
    }
    HoldsConverted(c, h.budget, OwedOf(h.units, s.pending, Headless), OwedOf(h.units, s.pending, Desktop), to);
  }

  lemma StartExact(c: Config, vm: bool, s: System, ev: Event)
    requires SaneCosts(c) && Traced(s) && Balanced(c, s) && ev.SessionStart? && Possible(s, ev)
    ensures Balanced(c, SessionStarted(c, vm, s, ev)) <==> Guard(c, vm, s, ev)
  {
    hide AgentsInStep, PortsInStep, OwedOf, Traced, Balanced, ReserveError, Holds, Released, Charged, HasIdle, SaneCosts;
    var h := s.host;
    BalancedIs(c, s);
    BalancedIs(c, SessionStarted(c, vm, s, ev));
    Indexed(h.units, h.agents, ev.agent);
    if Served(h, ev.agent) {
      TracedNamed(s, h.agents[ev.agent]);
      HandOutExact(c, h, s.pending, h.agents[ev.agent], ev.agent, ev.now);
    } else if ev.pick.Some? {
      TracedNamed(s, ev.pick.value);
      HandOutExact(c, h, s.pending, ev.pick.value, ev.agent, ev.now);
    } else {
      CreateWaits(c, s, ev.kind, ev.newId, ev.port, Work(ev.kind, if ev.port.Some? then ev.port.value else 0,
                  ev.kind.Desktop? || ev.persistent, Some(ev.agent), None));
    }
  }

  lemma CreateWaits(c: Config, s: System, k: Kind, newId: string, port: Option<int>, w: Work)
    requires SaneCosts(c) && Traced(s) && BalancedIn(c, s.host.units, s.host.agents, s.host.used, s.host.budget, s.pending)
    requires Fresh(s, newId) && FreePort(s, port) && w.kind == k && w.replacing.None? && (port.Some? ==> w.port == port.value)
    ensures Released(c, Charged(c, s.host.budget, k), k) == s.host.budget
    ensures port.Some? ==>
      BalancedIn(c, s.host.units, s.host.agents, s.host.used + {port.value}, Charged(c, s.host.budget, k), s.pending[newId := w])
  {
    hide AgentsInStep, PortsInStep, OwedOf, Traced, Released, Charged, Accurate;
    var h := s.host;
    ReleaseUndoesReserve(c, h.budget, k);
    if port.Some? {
      PortsTaken(h.units, s.pending, h.used, newId, w);
      OwedTaken(h.units, s.pending, newId, w, Headless);
      OwedTaken(h.units, s.pending, newId, w, Desktop);
      HoldsCharged(c, h.budget, OwedOf(h.units, s.pending, Headless), OwedOf(h.units, s.pending, Desktop), k);
    }
  }

  // ----- Destroying -----

  lemma DestroyExact(c: Config, vm: bool, s: System, id: string)
    requires SaneCosts(c) && Traced(s) && Balanced(c, s) && id in s.doomed
    ensures Balanced(c, Next(c, vm, s, DestroyEnd(id))) <==> Guard(c, vm, s, DestroyEnd(id))
  {
    hide AgentsInStep, PortsInStep, OwedOf, Holds, Traced, Balanced, Released, SaneCosts;
    DoomedKnown(s, id);
    var h, u := s.host, Record(s, id);
    TracedNamed(s, id);
    BalancedIs(c, s);
    BalancedIs(c, Next(c, vm, s, DestroyEnd(id)));
    if id in h.units {
      DroppedAgents(h.units, h.agents, id);
      PortsDropped(h.units, s.pending, h.used, id);
      OwedDropped(h.units, s.pending, id, Headless);
      OwedDropped(h.units, s.pending, id, Desktop);
      HoldsReleased(c, h.budget, OwedOf(h.units, s.pending, Headless), OwedOf(h.units, s.pending, Desktop), u.kind);
    } else {
      PortTakenAway(All(h.units, s.pending), h.used, u.port);
      HoldsSame(c, h.budget, Released(c, h.budget, u.kind), OwedOf(h.units, s.pending, Headless), OwedOf(h.units, s.pending, Desktop));
    }
  }

  lemma DoomedKnown(s: System, id: string)
    requires Traced(s) && id in s.doomed
    ensures Known(s, id)
  {
  }

  lemma HoldsSame(c: Config, b: Budget, other: Budget, h: int, d: int)
    requires Holds(c, b, h, d)
    ensures Holds(c, other, h, d) <==> other == b
  {
    hide Rebuilt;
  }

  // ----- Every step and every run -----

  lemma StoreExact(c: Config, s: System, id: string, status: Status)
    requires Traced(s) && Balanced(c, s) && Known(s, id)
    ensures Balanced(c, Stored(s, id, status)) <==> id in s.host.units
  {
    hide AgentsInStep, PortsInStep, OwedOf, Traced, Balanced, Accurate;
    TracedNamed(s, id);
    BalancedIs(c, s);
    BalancedIs(c, Stored(s, id, status));
    if id in s.host.units {
      StatusKeeps(c, s.host, s.pending, id, status);
    } else {
      var v := Record(s, id).(status := status);
      OwedStored(s.host.units, s.pending, id, v, v.kind);
    }
  }

  lemma FinishExact(c: Config, s: System, n: string, ok: bool, now: int)
    requires SaneCosts(c) && Traced(s) && Balanced(c, s) && n in s.pending
    ensures Balanced(c, Finished(c, s, n, ok, now)) <==> FinishGuard(c, s, n, ok)
  {
    hide Traced, Balanced, Finished, FinishGuard;
    match s.pending[n].replacing
    case None => if ok { CreationDone(c, s, n, now); } else { CreationFailed(c, s, n, now); }
    case Some(id) => if ok { ConversionDone(c, s, n, id, now); } else { ConversionFailed(c, s, n, id, now); }
  }

  lemma LoseBreaks(c: Config, s: System, n: string)
    requires Traced(s) && Balanced(c, s) && n in s.pending
    ensures !Balanced(c, s.(pending := s.pending - {n}))
  {
    hide AgentsInStep, PortsInStep, OwedOf, Traced, Balanced, Accurate;
    BalancedIs(c, s);
    BalancedIs(c, s.(pending := s.pending - {n}));
    TracedFreed(s, n);
    PortsFreed(s.host.units, s.pending, s.host.used, n);
  }

  lemma DetachKeeps(c: Config, s: System, id: string, status: Status, now: int)
    requires Traced(s) && Balanced(c, s) && id in s.host.units
    ensures Balanced(c, s.(host := Detaching(s.host, id, status, now)))
  {
    hide BalancedIn, Balanced, Traced;
    TracedNamed(s, id);
    BalancedIs(c, s);
    BalancedIs(c, s.(host := Detaching(s.host, id, status, now)));
    DetachingKeeps(c, s.host, s.pending, id, status, now);
  }

  lemma AssignExact(c: Config, s: System, id: string, agent: string, now: int)
    requires Traced(s) && Balanced(c, s) && id in s.host.units
    ensures Balanced(c, s.(host := HandedOut(s.host, id, agent, now))) <==> MayAssign(s.host.units, s.host.agents, id, agent)
  {
    hide BalancedIn, Balanced, Traced;
    TracedNamed(s, id);
    BalancedIs(c, s);
    BalancedIs(c, s.(host := HandedOut(s.host, id, agent, now)));
    HandOutExact(c, s.host, s.pending, id, agent, now);
  }

  lemma DoomingKeeps(c: Config, s: System, id: string)
    ensures Balanced(c, s.(doomed := s.doomed + multiset{id})) <==> Balanced(c, s)
  {
  }

  /** From balance, a step stays in balance if and only if the request found what its guard says. */
  lemma StepExact(c: Config, vm: bool, s: System, ev: Event)
    requires SaneCosts(c) && Traced(s) && Balanced(c, s) && Possible(s, ev)
    ensures Balanced(c, Next(c, vm, s, ev)) <==> Guard(c, vm, s, ev)
  {
    hide Balanced, Traced, SaneCosts, SessionStarted, ConvertBegun, Finished, FinishGuard, Stored, MayAssign, Refused, HasIdle, Detached;
    match ev
    case SessionStart(_, _, _, _, _, _, _) => StartExact(c, vm, s, ev);
    case SessionEnd(agent, now) =>
      if agent in s.host.agents && s.host.agents[agent] in s.host.units {
        var id := s.host.agents[agent];
        DetachKeeps(c, s, id, Idle, now);
        DetachKeeps(c, s, id, Resetting, now);
        DoomingKeeps(c, s, id);
      }
    case Convert(id, newId, to, port) =>
      if Refused(c, vm, s.host, id, to) {
        RefusedStays(c, vm, s, id, newId, to, port);
      } else {
        ConvertExact(c, vm, s, id, newId, to, port);
      }
    case Finish(n, ok, now) => FinishExact(c, s, n, ok, now);
    case Lose(n) => LoseBreaks(c, s, n);
    case DestroyBegin(id) => DoomingKeeps(c, s, id);
    case DestroyEnd(id) => DestroyExact(c, vm, s, id);
    case Assign(id, agent, now) => if id in s.host.units { AssignExact(c, s, id, agent, now); }
    case Detach(id, status, now) => if id in s.host.units { DetachKeeps(c, s, id, status, now); }
    case Store(id, status) => StoreExact(c, s, id, status);
  }

  lemma RefusedStays(c: Config, vm: bool, s: System, id: string, newId: string, to: Kind, port: Option<int>)
    requires Refused(c, vm, s.host, id, to)
    ensures ConvertBegun(c, vm, s, id, newId, to, port) == s
  {
  }

  lemma {:induction false} RunTraced(c: Config, vm: bool, s: System, run: seq<Event>)
    requires Traced(s) && PossibleRun(c, vm, s, run)
    ensures Traced(Reached(c, vm, s, run))
  {
    if run != [] {
      hide Traced, Possible, Next;
      RunTraced(c, vm, s, run[..|run| - 1]);
      StepTraced(c, vm, Reached(c, vm, s, run[..|run| - 1]), run[|run| - 1]);
    }
  }

  /** Over every run that can happen, however the requests overlap: in balance throughout if and only if every guard holds. */
  lemma {:induction false} RunExact(c: Config, vm: bool, s: System, run: seq<Event>)
    requires SaneCosts(c) && Traced(s) && Balanced(c, s) && PossibleRun(c, vm, s, run)
    ensures AlwaysBalanced(c, vm, s, run) <==> GuardedRun(c, vm, s, run)
  {
    if run != [] {
      hide Traced, Balanced, Possible, Guard, Next, SaneCosts;
      var init := run[..|run| - 1];
      RunExact(c, vm, s, init);
      RunTraced(c, vm, s, init);
      AlwaysEnds(c, vm, s, init);
      if Balanced(c, Reached(c, vm, s, init)) {
        StepExact(c, vm, Reached(c, vm, s, init), run[|run| - 1]);
      }
    }
  }

  lemma AlwaysEnds(c: Config, vm: bool, s: System, run: seq<Event>)
    ensures AlwaysBalanced(c, vm, s, run) ==> Balanced(c, Reached(c, vm, s, run))
  {
  }

  /** With nothing in flight, being in balance is being in step: index, ports and budget agree with the units there are. */
  lemma QuietInStep(c: Config, s: System)
    requires s.pending == map[]
    ensures Balanced(c, s) <==>
      AgentsInStep(s.host.units, s.host.agents) && PortsInStep(s.host.units, s.host.used) && BudgetInStep(c, s.host.units, s.host.budget)
  {
    hide AgentsInStep, PortsInStep, Rebuilt;
    assert All(s.host.units, s.pending) == s.host.units;
    NoneLeaving(s.pending, Headless);
    NoneLeaving(s.pending, Desktop);
  }

  lemma NoneLeaving(pending: map<string, Work>, k: Kind)
    requires pending == map[]
    ensures Leaving(pending, k) == 0
  {
    assert LeavingIds(pending, k) == {};
  }
}
