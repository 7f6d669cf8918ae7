/** What callers of a sandbox host must not overlap, and what happens when they do. */
module PoolDiscipline {
  import opened Prelude
  import opened BudgetSpec
  import opened BudgetSafety
  import opened Pool
  import opened PoolRequests
  import opened PoolAccounts
  import opened PoolRequestsSafety

  /** A conversion of the unit waits. */
  predicate BeingConverted(s: System, id: string) {
    exists n :: n in s.pending && s.pending[n].replacing == Some(id)
  }

  /** A conversion or the destruction of the unit waits. */
  predicate Busy(s: System, id: string) {
    id in s.doomed || BeingConverted(s, id)
  }

  /** A unit is being created for the agent. */
  predicate BeingCreated(s: System, agent: string) {
    exists n :: n in s.pending && s.pending[n].replacing.None? && s.pending[n].agent == Some(agent)
  }

  /** With that many demotions taken back, the budget is within the limits that promote checks. */
  predicate Spare(c: Config, b: Budget, demotions: nat) {
    var back := Converted(c, b, demotions);
    back.desktop <= c.maxDesktop && WithinCompute(c, back)
  }

  /** Demotions that wait, and may still fail. */
  function Demotions(s: System): nat {
    Leaving(s.pending, Desktop)
  }

  /**
   * Whether a caller may make a request now: nothing else is being created for the agent, the agent's unit is one it is
   * given back, nothing else waits for the unit, and a slot that a demotion gave up is left free until it is over. What the
   * backend makes of a request that waits is not up to the caller, but a conversion must not be lost.
   */
  predicate Disciplined(c: Config, s: System, ev: Event) {
    var h := s.host;
    match ev
    case SessionStart(agent, k, _, pick, _, _, _) =>
      (agent != "" ==> !BeingCreated(s, agent) && (agent in h.agents ==> Served(h, agent)))
      && (!Served(h, agent) && pick.None? && ReserveError(c, h.budget, k).None? ==> Spare(c, Charged(c, h.budget, k), Demotions(s)))
    case SessionEnd(agent, _) => agent in h.agents ==> !Busy(s, h.agents[agent])
    case Convert(id, _, to, _) =>
      !Busy(s, id) && (to.Desktop? && PromoteError(c, h.budget).None? ==> Spare(c, Converted(c, h.budget, 1), Demotions(s)))
    case Finish(_, _, _) => true
    case Lose(_) => false
    case DestroyBegin(id) => Known(s, id) ==> id in h.units && !Busy(s, id)
    case DestroyEnd(_) => true
    case Assign(id, agent, _) =>
      id in h.units ==> MayAssign(h.units, h.agents, id, agent) && !BeingCreated(s, agent) && !BeingConverted(s, id)
    case Detach(id, _, _) => !BeingConverted(s, id)
    case Store(id, status) => id in h.units && !BeingConverted(s, id) && (status.Idle? ==> h.units[id].agent.None?)
  }

  // ----- What disciplined callers keep -----

  /** A unit that is being converted is there, still its agent's, not being destroyed, and not one that is handed out. */
  ghost predicate ConversionsHeld(s: System) {
    forall n :: n in s.pending && s.pending[n].replacing.Some? ==>
      var id := s.pending[n].replacing.value;
      id in s.host.units && id !in s.doomed && s.host.units[id].agent == s.pending[n].agent
      && !s.host.units[id].status.Idle? && !s.host.units[id].status.Assigned?
  }

  ghost predicate OnePerUnit(pending: map<string, Work>) {
    forall n, m :: n in pending && m in pending && pending[n].replacing.Some? && pending[n].replacing == pending[m].replacing ==> n == m
  }

  predicate Creates(w: Work) {
    w.replacing.None? && Truthy(w.agent)
  }

  ghost predicate OnePerAgent(pending: map<string, Work>) {
    forall n, m :: n in pending && m in pending && Creates(pending[n]) && Creates(pending[m]) && pending[n].agent == pending[m].agent ==> n == m
  }

  ghost predicate DoomedOnce(s: System) {
    forall id :: id in s.doomed ==> s.doomed[id] == 1 && id in s.host.units
  }

  ghost predicate CreatorsFree(pending: map<string, Work>, agents: map<string, string>) {
    forall n :: n in pending && Creates(pending[n]) ==> pending[n].agent.value !in agents
  }

  ghost predicate Orderly(s: System) {
    IdleFree(s.host.units) && ConversionsHeld(s) && OnePerUnit(s.pending) && OnePerAgent(s.pending) && DoomedOnce(s)
    && CreatorsFree(s.pending, s.host.agents)
  }

  ghost predicate Calm(c: Config, s: System) {
    Orderly(s) && Spare(c, s.host.budget, Demotions(s))
  }

  // ----- A unit that no conversion gives up is paid for -----

  function Taken(pending: map<string, Work>, ns: set<string>): set<string>
    requires forall n :: n in ns ==> n in pending && pending[n].replacing.Some?
  {
    set n | n in ns :: pending[n].replacing.value
  }

  lemma {:induction false} TakenSize(pending: map<string, Work>, ns: set<string>)
    requires forall n :: n in ns ==> n in pending && pending[n].replacing.Some?
    requires OnePerUnit(pending)
    ensures |Taken(pending, ns)| == |ns|
  {
    if n :| n in ns {
      var rest := ns - {n};
      TakenSize(pending, rest);
      var id := pending[n].replacing.value;
      forall x ensures x in Taken(pending, ns) <==> x in Taken(pending, rest) + {id} {
        if m :| m in ns && pending[m].replacing.value == x { assert m == n || m in rest; }
      }
      assert forall m :: m in rest ==> m != n && pending[m].replacing.value != id;
      assert Taken(pending, ns) == Taken(pending, rest) + {id} && id !in Taken(pending, rest);
    } else {
      assert Taken(pending, ns) == {};
    }
  }

  lemma NotGivenUp(s: System, x: string, k: Kind)
    requires Traced(s) && ConversionsHeld(s) && OnePerUnit(s.pending)
    requires x in All(s.host.units, s.pending) && All(s.host.units, s.pending)[x].kind == k && !BeingConverted(s, x)
    ensures Owed(s, k) >= 1
  {
    hide Traced, ConversionsHeld, OnePerUnit, All, BeingConverted;
    var all, leaving := All(s.host.units, s.pending), LeavingIds(s.pending, k);
    var others := (set id | id in all && all[id].kind == k) - {x};
    TakenSize(s.pending, leaving);
    forall id | id in Taken(s.pending, leaving) ensures id in others {
      var n :| n in leaving && s.pending[n].replacing.value == id;
      GivenUpIs(s, n, id);
    }
    SubsetSize(Taken(s.pending, leaving), others);
  }

  lemma GivenUpIs(s: System, n: string, id: string)
    requires Traced(s) && ConversionsHeld(s) && n in s.pending && s.pending[n].replacing == Some(id)
    ensures id in s.host.units && s.host.units[id].kind == Other(s.pending[n].kind)
    ensures id in All(s.host.units, s.pending) && All(s.host.units, s.pending)[id] == s.host.units[id]
    ensures BeingConverted(s, id)
  {
    assert Record(s, id).kind != s.pending[n].kind;
  }

  // ----- Spare slots -----

  lemma SpareFewer(c: Config, b: Budget, n: nat, m: nat)
    requires SaneCosts(c) && Spare(c, b, n) && m <= n
    ensures Spare(c, b, m)
  {
    var d := (n - m) as real;
    assert n as real == m as real + d;
    Distributes(m as real, d, Net(c).cpu);
    Distributes(m as real, d, Net(c).ram);
  }

  lemma Distributes(m: real, d: real, x: real)
    requires d >= 0.0 && x >= 0.0
    ensures (m + d) * x == m * x + d * x && d * x >= 0.0
  {
  }

  lemma SpareBack(c: Config, b: Budget, n: nat)
    requires n >= 1
    ensures Spare(c, Converted(c, b, 1), n - 1) <==> Spare(c, b, n)
    ensures Spare(c, b, n) <==> Spare(c, Converted(c, Converted(c, b, 1), -1), n)
  {
    var d := (n - 1) as real;
    assert n as real == d + 1.0;
    assert (d + 1.0) * Net(c).cpu == d * Net(c).cpu + Net(c).cpu;
    assert (d + 1.0) * Net(c).ram == d * Net(c).ram + Net(c).ram;
  }

  lemma SpareDemoted(c: Config, b: Budget, n: nat)
    ensures Spare(c, Converted(c, b, -1), n + 1) <==> Spare(c, b, n)
  {
    SpareBack(c, Converted(c, b, -1), n + 1);
    assert Converted(c, Converted(c, b, -1), 1) == b;
  }

  lemma SpareLower(c: Config, b: Budget, lower: Budget, n: nat)
    requires Spare(c, b, n) && lower.cpu <= b.cpu && lower.ram <= b.ram && lower.desktop <= b.desktop
    ensures Spare(c, lower, n)
  {
  }

  /** A demotion that fails can be taken back. */
  lemma SpareAllows(c: Config, b: Budget, n: nat)
    requires SaneCosts(c) && Spare(c, b, n)
    ensures n >= 1 ==> PromoteError(c, b).None?
    ensures PromoteError(c, Converted(c, b, -1)).None?
  {
    SpareFewer(c, b, n, 0);
    if n >= 1 { SpareFewer(c, b, n, 1); }
  }

  // ----- Disciplined requests find what they must -----

  lemma FinishFinds(c: Config, s: System, n: string, ok: bool)
    requires SaneCosts(c) && Traced(s) && Balanced(c, s) && Calm(c, s) && n in s.pending
    ensures FinishGuard(c, s, n, ok)
  {
    hide AgentsInStep, PortsInStep, Rebuilt, Count, Spare, PromoteError, OnePerAgent, DoomedOnce, SaneCosts, Leaving, All;
    var w := s.pending[n];
    OnItsWay(s, n);
    NotGivenUp(s, n, w.kind);
    if w.replacing.Some? {
      GivenUpIs(s, n, w.replacing.value);
      if Truthy(w.agent) { Indexed(s.host.units, s.host.agents, w.agent.value); }
      if w.kind.Headless? {
        LeavingFreed(s.pending, n, Desktop);
        SpareAllows(c, s.host.budget, Demotions(s));
      }
    }
  }

  lemma OnItsWay(s: System, n: string)
    requires Traced(s) && ConversionsHeld(s) && n in s.pending
    ensures n in All(s.host.units, s.pending) && All(s.host.units, s.pending)[n].kind == s.pending[n].kind && !BeingConverted(s, n)
  {
  }

  lemma DisciplinedFinds(c: Config, vm: bool, s: System, ev: Event)
    requires SaneCosts(c) && Traced(s) && Balanced(c, s) && Calm(c, s) && Possible(s, ev) && Disciplined(c, s, ev)
    ensures Guard(c, vm, s, ev)
  {
    hide AgentsInStep, PortsInStep, Rebuilt, Count, Spare, PromoteError, ReserveError, OnePerAgent, SaneCosts, Leaving, All, Charged,
      Converted, Released, FinishGuard, HasIdle;
    match ev
    case Finish(n, ok, _) => FinishFinds(c, s, n, ok);
    case Convert(id, newId, to, port) =>
      if !Refused(c, vm, s.host, id, to) {
        if port.Some? {
          Standing(s, id);
          NotGivenUp(s, id, s.host.units[id].kind);
        } else {
          SpareAllows(c, s.host.budget, Demotions(s));
        }
      }
    case DestroyEnd(id) =>
      Standing(s, id);
      assert !BeingConverted(s, id);
      NotGivenUp(s, id, s.host.units[id].kind);
    case _ =>
  }

  lemma Standing(s: System, id: string)
    requires Traced(s) && id in s.host.units
    ensures id in All(s.host.units, s.pending) && All(s.host.units, s.pending)[id] == s.host.units[id]
  {
    AllStored(s.host.units, s.pending, id, s.host.units[id]);
  }

  // ----- Disciplined requests keep order -----

  lemma OrderlyFrame(s: System, t: System)
    requires Orderly(s)
    requires t.host.units == s.host.units && t.host.agents == s.host.agents && t.pending == s.pending && t.doomed == s.doomed
    ensures Orderly(t)
  {
  }

  lemma OrderlyHandedOut(s: System, id: string, agent: string, now: int)
    requires Orderly(s) && id in s.host.units && !BeingConverted(s, id) && agent != "" && !BeingCreated(s, agent)
    ensures Orderly(s.(host := HandedOut(s.host, id, agent, now)))
  {
    hide OnePerUnit, OnePerAgent;
    assert forall n :: n in s.pending ==> s.pending[n].replacing != Some(id);
    assert forall n :: n in s.pending && Creates(s.pending[n]) ==> s.pending[n].agent != Some(agent);
  }

  lemma OrderlyDetaching(s: System, id: string, status: Status, now: int)
    requires Orderly(s) && id in s.host.units && !BeingConverted(s, id)
    ensures Orderly(s.(host := Detaching(s.host, id, status, now)))
  {
    hide OnePerUnit, OnePerAgent;
    assert forall n :: n in s.pending ==> s.pending[n].replacing != Some(id);
  }

  lemma OrderlyStored(s: System, id: string, status: Status)
    requires Orderly(s) && id in s.host.units && !BeingConverted(s, id) && (status.Idle? ==> s.host.units[id].agent.None?)
    ensures Orderly(Stored(s, id, status))
  {
    hide OnePerUnit, OnePerAgent;
    assert forall n :: n in s.pending ==> s.pending[n].replacing != Some(id);
  }

  lemma OrderlyDoomed(s: System, id: string)
    requires Orderly(s) && id in s.host.units && !Busy(s, id)
    ensures Orderly(s.(doomed := s.doomed + multiset{id}))
  {
    hide OnePerUnit, OnePerAgent, IdleFree;
    assert forall n :: n in s.pending ==> s.pending[n].replacing != Some(id);
  }

  lemma OrderlyRemoved(s: System, id: string)
    requires Orderly(s) && id in s.host.units && !BeingConverted(s, id)
    ensures Orderly(Removed(s, id).(doomed := s.doomed[id := 0]))
  {
    hide OnePerUnit, OnePerAgent;
    assert forall n :: n in s.pending ==> s.pending[n].replacing != Some(id);
  }

  lemma OrderlyTaken(s: System, n: string, w: Work)
    requires Orderly(s) && n !in s.pending
    requires w.replacing.Some? ==> var id := w.replacing.value;
      id in s.host.units && !Busy(s, id) && s.host.units[id].agent == w.agent && !s.host.units[id].status.Idle? && !s.host.units[id].status.Assigned?
    requires Creates(w) ==> w.agent.value !in s.host.agents && !BeingCreated(s, w.agent.value)
    ensures Orderly(s.(pending := s.pending[n := w]))
  {
    hide IdleFree;
    if w.replacing.Some? {
      assert forall m :: m in s.pending ==> s.pending[m].replacing != w.replacing;
    }
    if Creates(w) {
      assert forall m :: m in s.pending && Creates(s.pending[m]) ==> s.pending[m].agent != w.agent;
    }
  }

  lemma OrderlyFreed(s: System, n: string)
    requires Orderly(s) && n in s.pending
    ensures var t := s.(pending := s.pending - {n});
      Orderly(t)
      && (s.pending[n].replacing.Some? ==> !Busy(t, s.pending[n].replacing.value))
      && (Creates(s.pending[n]) ==> !BeingCreated(t, s.pending[n].agent.value))
  {
    hide IdleFree;
  }

  lemma OrderlyRegistered(s: System, n: string, w: Work, now: int)
    requires Orderly(s) && Traced(s) && Fresh(s, n)
    requires Truthy(w.agent) ==> !BeingCreated(s, w.agent.value)
    ensures Orderly(Registered(s, n, w, now))
  {
    hide Orderly;
    var v := NewUnit(n, w.kind, w.port, w.persistent, now);
    var t := s.(host := s.host.(units := s.host.units[n := v]));
    OrderlyLanded(s, n, v);
    if Truthy(w.agent) {
      var agent := w.agent.value;
      assert !BeingConverted(t, n);
      assert !BeingCreated(t, agent);
      OrderlyHandedOut(t, n, agent, now);
    }
  }

  lemma OrderlyLanded(s: System, n: string, v: Unit)
    requires Orderly(s) && n !in s.host.units && v.agent.None?
    ensures Orderly(s.(host := s.host.(units := s.host.units[n := v])))
  {
    hide OnePerUnit, OnePerAgent, CreatorsFree;
  }

  lemma OrderlyFinished(c: Config, s: System, n: string, ok: bool, now: int)
    requires Traced(s) && Orderly(s) && AgentsInStep(s.host.units, s.host.agents) && n in s.pending
    requires s.pending[n].replacing.Some? && !ok ==> Undone(c, s.host.budget, s.pending[n].kind).Some?
    ensures Orderly(Finished(c, s, n, ok, now))
  {
    hide Orderly, Traced, Undone, Released, BeingCreated, AgentsInStep;
    var w, rest := s.pending[n], s.(pending := s.pending - {n});
    OrderlyFreed(s, n);
    TracedFreed(s, n);
    if w.replacing.None? {
      if ok {
        OrderlyRegistered(rest, n, w, now);
      } else {
        OrderlyFrame(rest, Finished(c, s, n, ok, now));
      }
    } else {
      var id := w.replacing.value;
      WaitsFor(s, n, id);
      ConvertedIs(s, n, id);
      if ok {
        OrderlyRemoved(rest, id);
        assert s.doomed[id := 0] == s.doomed;
        TracedRemoved(rest, id);
        if Truthy(w.agent) { NotCreated(s, n, id); }
        OrderlyRegistered(Removed(rest, id), n, w, now);
      } else {
        var t := rest.(host := s.host.(used := s.host.used - {w.port}, budget := Undone(c, s.host.budget, w.kind).value));
        OrderlyFrame(rest, t);
        OrderlyStored(t, id, StatusFor(w.agent));
      }
    }
  }

  lemma ConvertedIs(s: System, n: string, id: string)
    requires Orderly(s) && AgentsInStep(s.host.units, s.host.agents) && n in s.pending && s.pending[n].replacing == Some(id)
    ensures id in s.host.units && id !in s.doomed && s.host.units[id].agent == s.pending[n].agent
    ensures s.host.units[id].agent.Some? ==> Truthy(s.host.units[id].agent)
  {
  }

  /** The agent of a unit that is being converted has no unit on its way. */
  lemma NotCreated(s: System, n: string, id: string)
    requires Orderly(s) && AgentsInStep(s.host.units, s.host.agents) && n in s.pending && s.pending[n].replacing == Some(id)
    requires Truthy(s.pending[n].agent)
    ensures !BeingCreated(Removed(s.(pending := s.pending - {n}), id), s.pending[n].agent.value)
  {
    ConvertedIs(s, n, id);
    Indexed(s.host.units, s.host.agents, s.pending[n].agent.value);
  }

  lemma OrderlyStarted(c: Config, vm: bool, s: System, ev: Event)
    requires Traced(s) && Orderly(s) && AgentsInStep(s.host.units, s.host.agents) && ev.SessionStart? && Possible(s, ev)
    requires Disciplined(c, s, ev)
    ensures Orderly(SessionStarted(c, vm, s, ev))
  {
    hide Traced, HasIdle, Charged, Released, ReserveError, Spare, AgentsInStep, Leaving, BeingConverted, BeingCreated;
    var h := s.host;
    Indexed(h.units, h.agents, ev.agent);
    if Served(h, ev.agent) {
      assert !h.units[h.agents[ev.agent]].status.Idle?;
    } else if ev.pick.Some? {
      var id := ev.pick.value;
      assert !BeingConverted(s, id) by { IdleNotConverted(s, id); }
      if ev.agent != "" { OrderlyHandedOut(s, id, ev.agent, ev.now); }
    } else if (ev.kind.Desktop? && !vm) || ReserveError(c, h.budget, ev.kind).Some? {
    } else if ev.port.None? {
      OrderlyFrame(s, SessionStarted(c, vm, s, ev));
    } else {
      var p, k := ev.port.value, ev.kind;
      var t := s.(host := h.(used := h.used + {p}, budget := Charged(c, h.budget, k)));
      OrderlyFrame(s, t);
      SamePending(s, t, ev.agent);
      OrderlyTaken(t, ev.newId, Work(k, p, k.Desktop? || ev.persistent, Some(ev.agent), None));
    }
  }

  lemma IdleNotConverted(s: System, id: string)
    requires ConversionsHeld(s) && id in s.host.units && s.host.units[id].status.Idle?
    ensures !BeingConverted(s, id)
  {
  }

  lemma SamePending(s: System, t: System, agent: string)
    requires t.pending == s.pending
    ensures BeingCreated(t, agent) <==> BeingCreated(s, agent)
  {
  }

  lemma OrderlyConvert(c: Config, vm: bool, s: System, id: string, newId: string, to: Kind, port: Option<int>)
    requires Traced(s) && Orderly(s) && AgentsInStep(s.host.units, s.host.agents) && Fresh(s, newId) && !Busy(s, id)
    requires !Refused(c, vm, s.host, id, to) && (port.None? ==> Undone(c, Converted(c, s.host.budget, Up(to)), to).Some?)
    ensures Orderly(ConvertBegun(c, vm, s, id, newId, to, port))
  {
    hide Traced, Orderly, Undone, Converted, PromoteError, AgentsInStep;
    var h, b := s.host, Converted(c, s.host.budget, Up(to));
    var u := h.units[id];
    TracedNamed(s, id);
    NamedAgent(h.units, h.agents, id);
    assert s.gone - {id} == s.gone;
    if port.Some? {
      var t := s.(host := h.(used := h.used + {port.value}, budget := b));
      OrderlyFrame(s, t);
      OrderlyStored(t, id, Converting(to));
      OrderlyTaken(Stored(t, id, Converting(to)), newId, Work(to, port.value, false, u.agent, Some(id)));
    } else {
      var t := s.(host := h.(budget := Undone(c, b, to).value));
      OrderlyFrame(s, t);
      OrderlyStored(t, id, StatusFor(u.agent));
    }
  }

  lemma NamedAgent(units: map<string, Unit>, agents: map<string, string>, id: string)
    requires AgentsInStep(units, agents) && id in units
    ensures units[id].agent.Some? ==> Truthy(units[id].agent)
  {
  }

  // ----- Disciplined requests leave the slots -----

  lemma FinishSpares(c: Config, s: System, n: string, ok: bool, now: int)
    requires SaneCosts(c) && Traced(s) && Balanced(c, s) && Calm(c, s) && n in s.pending && FinishGuard(c, s, n, ok)
    ensures var t := Finished(c, s, n, ok, now); Spare(c, t.host.budget, Demotions(t))
  {
    hide Spare, Leaving, AgentsInStep, PortsInStep, SaneCosts, Converted, PromoteError, Orderly, Released, NewUnit, Accurate, All;
    var b, w := s.host.budget, s.pending[n];
    AccountsHold(c, s);
    LeavingFreed(s.pending, n, Desktop);
    FinishedPending(c, s, n, ok, now);
    if w.replacing.None? {
      if !ok {
        ReleasedLower(c, b, w.kind);
        SpareLower(c, b, Released(c, b, w.kind), Demotions(s));
      }
    } else if ok {
      SpareFewer(c, b, Demotions(s), Leaving(s.pending - {n}, Desktop));
    } else if w.kind.Headless? {
      SpareBack(c, b, Demotions(s));
    } else {
      DemotedLower(c, b);
      SpareLower(c, b, Converted(c, b, -1), Demotions(s));
    }
  }

  lemma FinishedPending(c: Config, s: System, n: string, ok: bool, now: int)
    requires n in s.pending && FinishGuard(c, s, n, ok)
    ensures var t, w := Finished(c, s, n, ok, now), s.pending[n];
      t.pending == s.pending - {n}
      && t.host.budget == if ok then s.host.budget
                          else if w.replacing.None? then Released(c, s.host.budget, w.kind)
                          else Converted(c, s.host.budget, if w.kind.Desktop? then -1 else 1)
  {
    hide Converted, PromoteError, Released, NewUnit;
  }

  lemma ReleasedLower(c: Config, b: Budget, k: Kind)
    requires SaneCosts(c) && Accurate(c, b) && CountOf(b, k) >= 1
    ensures var r := Released(c, b, k); r.cpu <= b.cpu && r.ram <= b.ram && r.desktop <= b.desktop
  {
    hide Rebuilt;
    NoNegativeUse(c, b.headless, b.desktop);
  }

  lemma DemotedLower(c: Config, b: Budget)
    requires SaneCosts(c)
    ensures var r := Converted(c, b, -1); r.cpu <= b.cpu && r.ram <= b.ram && r.desktop <= b.desktop
  {
  }

  lemma ConvertSpares(c: Config, vm: bool, s: System, id: string, newId: string, to: Kind, port: Option<int>)
    requires Traced(s) && Fresh(s, newId) && Spare(c, s.host.budget, Demotions(s)) && !Refused(c, vm, s.host, id, to)
    requires to.Desktop? ==> Spare(c, Converted(c, s.host.budget, 1), Demotions(s))
    requires port.None? ==> Undone(c, Converted(c, s.host.budget, Up(to)), to).Some?
    ensures var t := ConvertBegun(c, vm, s, id, newId, to, port); Spare(c, t.host.budget, Demotions(t))
  {
    hide Spare, Leaving, Traced, Converted, PromoteError;
    var h := s.host;
    if port.Some? {
      LeavingTaken(s.pending, newId, Work(to, port.value, false, h.units[id].agent, Some(id)), Desktop);
      SpareDemoted(c, h.budget, Demotions(s));
    } else {
      UndoneIs(c, h.budget, to);
    }
  }

  lemma StartSpares(c: Config, vm: bool, s: System, ev: Event)
    requires SaneCosts(c) && Balanced(c, s) && Spare(c, s.host.budget, Demotions(s)) && ev.SessionStart? && Possible(s, ev) && Disciplined(c, s, ev)
    ensures var t := SessionStarted(c, vm, s, ev); Spare(c, t.host.budget, Demotions(t))
  {
    hide Spare, Leaving, ReserveError, Charged, Released, AgentsInStep, PortsInStep, Accurate, HasIdle;
    AccountsHold(c, s);
    ReleaseUndoesReserve(c, s.host.budget, ev.kind);
    if ev.port.Some? {
      LeavingTaken(s.pending, ev.newId, Work(ev.kind, ev.port.value, ev.kind.Desktop? || ev.persistent, Some(ev.agent), None), Desktop);
    }
  }

  lemma DestroySpares(c: Config, vm: bool, s: System, id: string)
    requires SaneCosts(c) && Traced(s) && Balanced(c, s) && Calm(c, s) && id in s.doomed && CountOf(s.host.budget, Record(s, id).kind) >= 1
    ensures var t := Next(c, vm, s, DestroyEnd(id)); Spare(c, t.host.budget, Demotions(t))
  {
    hide Spare, Leaving, Released, AgentsInStep, PortsInStep, Accurate;
    AccountsHold(c, s);
    ReleasedLower(c, s.host.budget, Record(s, id).kind);
    SpareLower(c, s.host.budget, Released(c, s.host.budget, Record(s, id).kind), Demotions(s));
  }

  // ----- Disciplined runs -----

  lemma DisciplinedKeeps(c: Config, vm: bool, s: System, ev: Event)
    requires SaneCosts(c) && Traced(s) && Balanced(c, s) && Calm(c, s) && Possible(s, ev) && Disciplined(c, s, ev)
    ensures Calm(c, Next(c, vm, s, ev))
  {
    hide Traced, Balanced, Orderly, SessionStarted, ConvertBegun, Finished, FinishGuard, Spare, Leaving, Undone, PromoteError, Converted,
      Released, SaneCosts, HasIdle, Detached, BeingCreated, Refused, Guard, ReserveError, Charged;
    DisciplinedGuarded(c, vm, s, ev);
    match ev
    case SessionStart(_, _, _, _, _, _, _) =>
      OrderlyStarted(c, vm, s, ev);
      StartSpares(c, vm, s, ev);
    case SessionEnd(agent, now) =>
      if agent in s.host.agents && s.host.agents[agent] in s.host.units {
        var id := s.host.agents[agent];
        OrderlyDetaching(s, id, Idle, now);
        OrderlyDetaching(s, id, Resetting, now);
        OrderlyDoomed(s, id);
      }
    case Convert(id, newId, to, port) =>
      if Refused(c, vm, s.host, id, to) {
        RefusedStays(c, vm, s, id, newId, to, port);
      } else {
        ConvertGuarded(c, vm, s, ev);
        OrderlyConvert(c, vm, s, id, newId, to, port);
        ConvertSpares(c, vm, s, id, newId, to, port);
      }
    case Finish(n, ok, now) =>
      FinishFinds(c, s, n, ok);
      FinishUndone(c, s, n, ok);
      OrderlyFinished(c, s, n, ok, now);
      FinishSpares(c, s, n, ok, now);
    case DestroyBegin(id) => if Known(s, id) { OrderlyDoomed(s, id); }
    case DestroyEnd(id) => DestroyKeeps(c, vm, s, id);
    case Assign(id, agent, now) =>
      if id in s.host.units { OrderlyHandedOut(s, id, agent, now); }
    case Detach(id, status, now) => if id in s.host.units { OrderlyDetaching(s, id, status, now); }
    case Store(id, status) => OrderlyStored(s, id, status);
  }

  lemma DisciplinedGuarded(c: Config, vm: bool, s: System, ev: Event)
    requires SaneCosts(c) && Traced(s) && Balanced(c, s) && Calm(c, s) && Possible(s, ev) && Disciplined(c, s, ev)
    ensures Guard(c, vm, s, ev) && AgentsInStep(s.host.units, s.host.agents)
  {
    hide Guard, Calm, Disciplined, Possible, Traced, Accounts, PortsInStep, AgentsInStep;
    DisciplinedFinds(c, vm, s, ev);
  }

  lemma ConvertGuarded(c: Config, vm: bool, s: System, ev: Event)
    requires ev.Convert? && Guard(c, vm, s, ev) && !Refused(c, vm, s.host, ev.id, ev.to) && Disciplined(c, s, ev)
    ensures ev.port.None? ==> Undone(c, Converted(c, s.host.budget, Up(ev.to)), ev.to).Some?
    ensures ev.to.Desktop? ==> Spare(c, Converted(c, s.host.budget, 1), Demotions(s))
  {
    hide Undone, Converted, PromoteError, Spare;
  }

  lemma FinishUndone(c: Config, s: System, n: string, ok: bool)
    requires n in s.pending && FinishGuard(c, s, n, ok)
    ensures s.pending[n].replacing.Some? && !ok ==> Undone(c, s.host.budget, s.pending[n].kind).Some?
  {
    hide Converted, PromoteError;
  }

  lemma DestroyKeeps(c: Config, vm: bool, s: System, id: string)
    requires SaneCosts(c) && Traced(s) && Balanced(c, s) && Calm(c, s) && id in s.doomed && Guard(c, vm, s, DestroyEnd(id))
    ensures Calm(c, Next(c, vm, s, DestroyEnd(id)))
  {
    hide Traced, Balanced, Spare, Leaving, Released, OnePerUnit, OnePerAgent, CreatorsFree;
    DoomedKnown(s, id);
    assert id in s.host.units && s.doomed[id] == 1 && !BeingConverted(s, id);
    DestroySpares(c, vm, s, id);
    OrderlyRemoved(s, id);
    assert s.doomed - multiset{id} == s.doomed[id := 0];
    OrderlyFrame(Removed(s, id).(doomed := s.doomed[id := 0]), Next(c, vm, s, DestroyEnd(id)));
  }

  predicate DisciplinedRun(c: Config, vm: bool, s: System, run: seq<Event>) {
    run == []
    || (DisciplinedRun(c, vm, s, run[..|run| - 1]) && Disciplined(c, Reached(c, vm, s, run[..|run| - 1]), run[|run| - 1]))
  }

  /** However the requests of disciplined callers overlap and end, everything is in balance at every moment. */
  lemma {:induction false} DisciplinedBalanced(c: Config, vm: bool, s: System, run: seq<Event>)
    requires SaneCosts(c) && Traced(s) && Balanced(c, s) && Calm(c, s) && PossibleRun(c, vm, s, run) && DisciplinedRun(c, vm, s, run)
    ensures AlwaysBalanced(c, vm, s, run) && Calm(c, Reached(c, vm, s, run))
  {
    if run != [] {
      hide Traced, Balanced, Calm, Possible, Disciplined, Next, SaneCosts, Guard;
      var init := run[..|run| - 1];
      DisciplinedBalanced(c, vm, s, init);
      RunTraced(c, vm, s, init);
      AlwaysEnds(c, vm, s, init);
      DisciplinedKeeps(c, vm, Reached(c, vm, s, init), run[|run| - 1]);
      DisciplinedFinds(c, vm, Reached(c, vm, s, init), run[|run| - 1]);
      StepExact(c, vm, Reached(c, vm, s, init), run[|run| - 1]);
    }
  }
}
