/** The requests a sandbox host serves, one method per stretch between two awaits, and its start. */
module PoolManagerModule {
  import opened Prelude
  import opened BudgetSpec
  import opened BudgetModule
  import opened BudgetSafety
  import opened Pool
  import opened PoolInvariant
  import opened PoolRequests
  import opened PoolAccounts
  import opened PoolRequestsSafety
  import opened PoolDiscipline
  import opened HealthMonitorModule
  import PoolAnswers

  /** NotUndone is a demotion that failed and whose rollback the budget refused. */
  datatype Reply =
    | Ok(id: string) | Waiting | NotFound | AlreadyAssigned | WrongKind | NoVm | OutOfBudget(error: Exhausted) | NoPorts
    | BackendError | NotUndone(error: Exhausted)

  /** How the backend work of a conversion ends: the new unit could not be created, or copying its files raised, or neither. */
  datatype ConversionEnd = Done | CreateFailed | CopyRaised

  /** The agent has a unit, but one that session_start does not take for it. */
  predicate Stranded(h: Host, agent: string) {
    agent in h.agents && h.agents[agent] in h.units
    && !h.units[h.agents[agent]].status.Assigned? && !h.units[h.agents[agent]].status.Idle?
  }

  /**
   * The step that ev names, which changes what it says and nothing else: from balance it stays in balance if and only if the
   * guard holds, and a disciplined one keeps balance and calm.
   */
  ghost predicate Moves(c: Config, vm: bool, s: System, ev: Event, t: System) {
    Possible(s, ev) && t == Next(c, vm, s, ev) && Traced(t) && PoolAnswers.StepSays(c, vm, s, ev, t)
    && (Balanced(c, s) ==> (Balanced(c, t) <==> Guard(c, vm, s, ev)))
    && (Balanced(c, s) && Calm(c, s) && Disciplined(c, s, ev) ==> Balanced(c, t) && Calm(c, t))
  }

  /** What the caller of a session start is answered, and what it can rely on. */
  ghost predicate StartAnswers(c: Config, vm: bool, ranges: Ranges, s: System, ev: Event, r: Reply, t: System) {
    ev.SessionStart? && Moves(c, vm, s, ev, t)
    && (Served(s.host, ev.agent) ==> r == Ok(s.host.agents[ev.agent]))
    && (!Served(s.host, ev.agent) && HasIdle(s.host.units, ev.kind) ==>
          r.Ok? && r.id in s.host.units && s.host.units[r.id].status.Idle? && s.host.units[r.id].kind == ev.kind)
    && (r.Ok? && ev.agent != "" ==> ev.agent in t.host.agents && t.host.agents[ev.agent] == r.id)
    && (r.Waiting? <==> !Served(s.host, ev.agent) && !HasIdle(s.host.units, ev.kind) && (ev.kind.Desktop? ==> vm)
                        && ReserveError(c, s.host.budget, ev.kind).None? && !RangeFull(ranges, s.host.used, ev.kind))
    && (r.NoVm? <==> !Served(s.host, ev.agent) && !HasIdle(s.host.units, ev.kind) && ev.kind.Desktop? && !vm)
    && (r.OutOfBudget? <==> !Served(s.host, ev.agent) && !HasIdle(s.host.units, ev.kind) && (ev.kind.Desktop? ==> vm)
                            && ReserveError(c, s.host.budget, ev.kind).Some?)
    && (r.OutOfBudget? ==> ReserveError(c, s.host.budget, ev.kind) == Some(r.error))
    && (r.Ok? || r.Waiting? || r.NoVm? || r.OutOfBudget? || r.NoPorts?)
    && (r.Waiting? ==> ev.newId in t.pending && t.pending[ev.newId].kind == ev.kind && t.pending[ev.newId].port !in s.host.used)
    && (Balanced(c, s) && !r.Ok? && !r.Waiting? ==> t == s)
  }

  /** What the caller of a promotion or demotion is answered when it begins. */
  ghost predicate ConvertAnswers(c: Config, vm: bool, ranges: Ranges, s: System, ev: Event, r: Reply, t: System) {
    ev.Convert? && Moves(c, vm, s, ev, t)
    && var h, refused, full := s.host, Refused(c, vm, s.host, ev.id, ev.to), RangeFull(ranges, s.host.used, ev.to);
    var stuck := ev.to.Headless? && PromoteError(c, Converted(c, h.budget, -1)).Some?;
    (r.Waiting? <==> !refused && !full) && (r.NoPorts? <==> !refused && full && !stuck) && (r.NotUndone? <==> !refused && full && stuck)
    && (refused ==> t == s)
    && (r.Waiting? ==> ev.newId in t.pending && t.pending[ev.newId].kind == ev.to && t.pending[ev.newId].replacing == Some(ev.id)
                       && t.pending[ev.newId].agent == h.units[ev.id].agent && t.pending[ev.newId].port !in h.used)
    && (r.NoPorts? ==> t == s.(host := h.(units := h.units[ev.id := h.units[ev.id].(status := StatusFor(h.units[ev.id].agent))])))
    && (r.NotUndone? ==> t == s.(host := h.(units := h.units[ev.id := h.units[ev.id].(status := Demoting)],
                                            budget := Converted(c, h.budget, -1))))
  }

  function EndEvent(newId: string, end: ConversionEnd, now: int): Event {
    if end.CopyRaised? then Lose(newId) else Finish(newId, end.Done?, now)
  }

  function EndReply(c: Config, b: Budget, newId: string, w: Work, end: ConversionEnd): Reply {
    match end
    case CopyRaised => BackendError
    case CreateFailed => if Undone(c, b, w.kind).None? then NotUndone(PromoteError(c, b).value) else BackendError
    case Done => Ok(newId)
  }

  /** What the caller of a promotion or demotion is answered when it ends. */
  ghost predicate EndAnswers(c: Config, vm: bool, s: System, n: string, end: ConversionEnd, now: int, r: Reply, t: System)
    requires n in s.pending && s.pending[n].replacing.Some?
  {
    var w, id := s.pending[n], s.pending[n].replacing.value;
    Moves(c, vm, s, EndEvent(n, end, now), t) && t.pending == s.pending - {n}
    && (end.Done? ==> r == Ok(n) && Arrived(s, n, w, t) && id !in t.host.units && id in t.gone)
    && (end.CreateFailed? ==> t.host.used == s.host.used - {w.port} && !r.Ok?
                              && (r.NotUndone? <==> w.kind.Headless? && PromoteError(c, s.host.budget).Some?))
    && (end.CreateFailed? && !r.NotUndone? ==>
          t.host.agents == s.host.agents && id in t.host.units && t.host.units[id].status == StatusFor(w.agent)
          && t.host.budget == Converted(c, s.host.budget, -Up(w.kind)))
    && (r.NotUndone? ==> t.host == s.host.(used := s.host.used - {w.port}))
    && (end.CopyRaised? ==> r == BackendError && t.host == s.host)
  }

  /** After the end of a session its agent has no unit, unless that is a temporary desktop, which only begins to be destroyed. */
  ghost predicate EndedAnswers(c: Config, vm: bool, s: System, agent: string, now: int, t: System) {
    var h := s.host;
    Moves(c, vm, s, SessionEnd(agent, now), t) && t == s.(host := t.host, doomed := t.doomed) && t.host.units.Keys == h.units.Keys
    && (AgentsInStep(h.units, h.agents) ==>
          if agent in h.agents && h.units[h.agents[agent]].kind.Desktop? && !h.units[h.agents[agent]].persistent
          then t == s.(doomed := s.doomed + multiset{h.agents[agent]})
          else t.doomed == s.doomed && agent !in t.host.agents && forall id :: id in h.units ==> t.host.units[id].agent != Some(agent))
  }

  /** The unit that was on its way is there, and its agent, if any, has it. */
  ghost predicate Arrived(s: System, n: string, w: Work, t: System) {
    n in t.host.units && t.host.units[n].kind == w.kind && t.host.units[n].port == w.port && t.host.units[n].persistent == w.persistent
    && if Truthy(w.agent) then
         t.host.units[n].agent == w.agent && t.host.units[n].status.Assigned? && w.agent.value in t.host.agents && t.host.agents[w.agent.value] == n
       else t.host.units[n].agent.None? && t.host.units[n].status.Idle?
  }

  lemma MovesBy(c: Config, vm: bool, s: System, ev: Event)
    requires SaneCosts(c) && Traced(s) && Possible(s, ev)
    ensures Moves(c, vm, s, ev, Next(c, vm, s, ev)) && Traced(Next(c, vm, s, ev))
  {
    hide Balanced, Calm, Disciplined, Guard, Next, Traced, Possible, SaneCosts, PoolAnswers.StepSays;
    StepTraced(c, vm, s, ev);
    PoolAnswers.NextSays(c, vm, s, ev);
    if Balanced(c, s) {
      StepExact(c, vm, s, ev);
      if Calm(c, s) && Disciplined(c, s, ev) {
        DisciplinedFinds(c, vm, s, ev);
        DisciplinedKeeps(c, vm, s, ev);
      }
    }
  }

  class PoolManager {
    const m: HealthMonitor
    var gone: map<string, Unit>
    var pending: map<string, Work>
    var doomed: multiset<string>

    function S(): System
      reads this, m.pool, m.ports, m.budget
    {
      System(m.State(), gone, pending, doomed)
    }

    ghost predicate Valid()
      reads this, m.pool, m.ports, m.budget
    {
      SaneCosts(m.budget.config) && Traced(S())
    }

    /** A host in step, with nothing in flight. */
    constructor (m: HealthMonitor)
      requires m.Valid() && "" !in m.pool.units
      ensures this.m == m && Valid() && Balanced(m.budget.config, S())
      ensures S() == System(m.State(), map[], map[], multiset{})
    {
      this.m, gone, pending, doomed := m, map[], map[], multiset{};
      new;
      QuietInStep(m.budget.config, S());
    }

    /** Gives the agent ("" when none is named) its unit back, or an idle one of the kind, or begins to create one. */
    method StartSession(agent: string, k: Kind, persistent: bool, newId: string, now: int) returns (r: Reply, ghost ev: Event)
      requires Valid() && Fresh(S(), newId)
      modifies this, m.pool, m.ports, m.budget
      ensures Valid() && ev.SessionStart? && ev.agent == agent && ev.kind == k && ev.newId == newId
      ensures StartAnswers(m.budget.config, m.settings.hasVm, m.ports.ranges, old(S()), ev, r, S())
    {
      hide Traced, StartAnswers, Next, Possible, HasIdle, HandedOut, SaneCosts, AgentsInStep, Named, Fresh, Served;
      ghost var s, c, vm, ranges := S(), m.budget.config, m.settings.hasVm, m.ports.ranges;
      var existing := m.pool.GetByAgent(agent);
      ServedIs(s, agent);
      if agent != "" && existing.Some? && (existing.value.status.Assigned? || existing.value.status.Idle?) {
        ev := SessionStart(agent, k, persistent, AnyIdle(m.pool.units, k), newId, None, now);
        PossibleStart(s, ev);
        ServedStart(c, vm, ranges, s, ev);
        GiveOut(existing.value.id, agent, existing.value.status.Idle?, now);
        return Ok(existing.value.id), ev;
      }
      var pick := FirstIdle(k);
      if pick.Some? {
        ev := SessionStart(agent, k, persistent, pick, newId, None, now);
        PossibleStart(s, ev);
        IdleStart(c, vm, ranges, s, ev);
        GiveOut(pick.value, agent, agent != "", now);
        return Ok(pick.value), ev;
      }
      r, ev := BeginCreate(agent, k, persistent, newId, now);
    }

    method FirstIdle(k: Kind) returns (pick: Option<string>)
      ensures pick.Some? ==> pick.value in m.pool.units && m.pool.units[pick.value].status.Idle? && m.pool.units[pick.value].kind == k
      ensures pick.None? <==> !HasIdle(m.pool.units, k)
    {
      var idle := set id | id in m.pool.units && m.pool.units[id].status.Idle? && m.pool.units[id].kind == k;
      NoIdle(m.pool.units, k, idle);
      if idle == {} { return None; }
      var id :| id in idle;
      return Some(id);
    }

    method GiveOut(id: string, agent: string, give: bool, now: int)
      requires id in m.pool.units
      modifies m.pool
      ensures m.State() == GivenOut(old(m.State()), id, agent, give, now)
    {
      if give { m.pool.Assign(id, agent, now); }
    }

    /** Reserves the cost and a port, and leaves the rest to the backend. */
    method BeginCreate(agent: string, k: Kind, persistent: bool, newId: string, now: int) returns (r: Reply, ghost ev: Event)
      requires Valid() && Fresh(S(), newId) && !Served(m.State(), agent) && !HasIdle(m.pool.units, k)
      modifies this, m.pool, m.ports, m.budget
      ensures Valid() && ev.SessionStart? && ev.agent == agent && ev.kind == k && ev.newId == newId
      ensures StartAnswers(m.budget.config, m.settings.hasVm, m.ports.ranges, old(S()), ev, r, S())
    {
      hide Traced, StartAnswers, Next, ReserveError, Charged, Released, Possible, HasIdle, Served, SaneCosts, AgentsInStep, Named, Fresh;
      ghost var s, c, vm, ranges := S(), m.budget.config, m.settings.hasVm, m.ports.ranges;
      ev := SessionStart(agent, k, persistent, None, newId, None, now);
      PossibleStart(s, ev);
      if k.Desktop? && !m.settings.hasVm {
        CreateStart(c, vm, ranges, s, ev, NoVm);
        return NoVm, ev;
      }
      var error := m.budget.Reserve(k);
      if error.Some? {
        CreateStart(c, vm, ranges, s, ev, OutOfBudget(error.value));
        return OutOfBudget(error.value), ev;
      }
      var port := m.ports.Allocate(k);
      if port.None? {
        CreateStart(c, vm, ranges, s, ev, NoPorts);
        m.budget.Release(k);
        return NoPorts, ev;
      }
      ev := SessionStart(agent, k, persistent, None, newId, port, now);
      PossibleStart(s, ev);
      CreateStart(c, vm, ranges, s, ev, Waiting);
      pending := pending[newId := Work(k, port.value, k.Desktop? || persistent, Some(agent), None)];
      return Waiting, ev;
    }

    /** What follows when the backend has made the unit, or failed to. */
    method FinishCreate(newId: string, created: bool, now: int) returns (r: Reply)
      requires Valid() && newId in pending && pending[newId].replacing.None?
      modifies this, m.pool, m.ports, m.budget
      ensures Valid() && Moves(m.budget.config, m.settings.hasVm, old(S()), Finish(newId, created, now), S())
      ensures pending == old(pending) - {newId}
      ensures created ==> r == Ok(newId) && Arrived(old(S()), newId, old(pending)[newId], S())
      ensures !created ==> r == BackendError && m.pool.units == old(m.pool.units) && m.pool.agents == old(m.pool.agents)
    {
      hide Traced, Moves, Next, Possible, SaneCosts, Released, AgentsInStep, Named;
      FinishIs(m.budget.config, m.settings.hasVm, S(), newId, created, now);
      var w := pending[newId];
      pending := pending - {newId};
      if !created {
        m.ports.Release(w.port);
        m.budget.Release(w.kind);
        return BackendError;
      }
      Register(newId, w, now);
      return Ok(newId);
    }

    method Register(id: string, w: Work, now: int)
      modifies m.pool
      ensures S() == Registered(old(S()), id, w, now)
    {
      m.pool.Update(NewUnit(id, w.kind, w.port, w.persistent, now));
      if Truthy(w.agent) { m.pool.Assign(id, w.agent.value, now); }
    }

    /** Gives back the port of a unit and takes it out of the pool, if it is still there. */
    method TakeOut(id: string)
      requires Known(S(), id)
      modifies this, m.pool, m.ports
      ensures S() == Removed(old(S()), id)
    {
      if id in m.pool.units {
        m.ports.Release(m.pool.units[id].port);
        gone := gone[id := m.pool.units[id]];
        m.pool.Remove(id);
      } else {
        m.ports.Release(gone[id].port);
      }
    }

    /** pool.update of a record that was held across an await. */
    method PutBack(id: string, status: Status)
      requires Known(S(), id) && Record(S(), id).id == id
      modifies this, m.pool
      ensures S() == Stored(old(S()), id, status)
    {
      var u := if id in m.pool.units then m.pool.units[id] else gone[id];
      m.pool.Update(u.(status := status));
      gone := gone - {id};
    }

    /** Begins to turn a headless unit into a desktop. */
    method BeginPromote(id: string, newId: string) returns (r: Reply, ghost ev: Event)
      requires Valid() && Fresh(S(), newId)
      modifies this, m.pool, m.ports, m.budget
      ensures Valid() && ev.Convert? && ev.id == id && ev.newId == newId && ev.to == Desktop
      ensures ConvertAnswers(m.budget.config, m.settings.hasVm, m.ports.ranges, old(S()), ev, r, S())
      ensures r.NotFound? <==> id !in old(m.pool.units)
      ensures r.OutOfBudget? ==> PromoteError(m.budget.config, old(m.budget.State())) == Some(r.error)
    {
      hide Traced, ConvertAnswers, Next, Possible, SaneCosts, PromoteError, Converted, AgentsInStep, Named, Fresh;
      ghost var s, c, vm, ranges := S(), m.budget.config, m.settings.hasVm, m.ports.ranges;
      ev := Convert(id, newId, Desktop, None);
      if id !in m.pool.units {
        ConvertRefused(c, vm, ranges, s, ev, NotFound);
        return NotFound, ev;
      }
      var u := m.pool.units[id];
      if !u.kind.Headless? {
        ConvertRefused(c, vm, ranges, s, ev, WrongKind);
        return WrongKind, ev;
      }
      if !m.settings.hasVm {
        ConvertRefused(c, vm, ranges, s, ev, NoVm);
        return NoVm, ev;
      }
      var error := m.budget.Promote();
      if error.Some? {
        ConvertRefused(c, vm, ranges, s, ev, OutOfBudget(error.value));
        return OutOfBudget(error.value), ev;
      }
      NamedAs(s, id);
      m.pool.Update(u.(status := Promoting));
      var port := m.ports.Allocate(Desktop);
      if port.None? {
        m.budget.Demote();
        m.pool.Update(u.(status := StatusFor(u.agent)));
        UndoneIs(c, s.host.budget, ev.to);
        assert m.pool.units == s.host.units[id := u.(status := StatusFor(u.agent))];
        ConvertUnported(c, vm, ranges, s, ev, NoPorts);
        return NoPorts, ev;
      }
      ev := Convert(id, newId, Desktop, port);
      pending := pending[newId := Work(Desktop, port.value, false, u.agent, Some(id))];
      ConvertWaiting(c, vm, ranges, s, ev);
      return Waiting, ev;
    }

    /** Begins to turn a desktop back into a headless unit. */
    method BeginDemote(id: string, newId: string) returns (r: Reply, ghost ev: Event)
      requires Valid() && Fresh(S(), newId)
      modifies this, m.pool, m.ports, m.budget
      ensures Valid() && ev.Convert? && ev.id == id && ev.newId == newId && ev.to == Headless
      ensures ConvertAnswers(m.budget.config, m.settings.hasVm, m.ports.ranges, old(S()), ev, r, S())
      ensures r.NotFound? <==> id !in old(m.pool.units)
      ensures r.WrongKind? <==> id in old(m.pool.units) && old(m.pool.units)[id].kind.Headless?
    {
      hide Traced, ConvertAnswers, Next, Possible, SaneCosts, PromoteError, Converted, AgentsInStep, Named, Fresh;
      ghost var s, c, vm, ranges := S(), m.budget.config, m.settings.hasVm, m.ports.ranges;
      ev := Convert(id, newId, Headless, None);
      if id !in m.pool.units {
        ConvertRefused(c, vm, ranges, s, ev, NotFound);
        return NotFound, ev;
      }
      var u := m.pool.units[id];
      if !u.kind.Desktop? {
        ConvertRefused(c, vm, ranges, s, ev, WrongKind);
        return WrongKind, ev;
      }
      NamedAs(s, id);
      m.pool.Update(u.(status := Demoting));
      m.budget.Demote();
      var port := m.ports.Allocate(Headless);
      if port.None? {
        var error := m.budget.Promote();
        if error.Some? {
          ConvertUnported(c, vm, ranges, s, ev, NotUndone(error.value));
          return NotUndone(error.value), ev;
        }
        m.pool.Update(u.(status := StatusFor(u.agent)));
        UndoneIs(c, s.host.budget, ev.to);
        assert m.pool.units == s.host.units[id := u.(status := StatusFor(u.agent))];
        ConvertUnported(c, vm, ranges, s, ev, NoPorts);
        return NoPorts, ev;
      }
      ev := Convert(id, newId, Headless, port);
      pending := pending[newId := Work(Headless, port.value, false, u.agent, Some(id))];
      ConvertWaiting(c, vm, ranges, s, ev);
      return Waiting, ev;
    }

    /** What follows the backend work of a promotion. */
    method FinishPromote(newId: string, end: ConversionEnd, now: int) returns (r: Reply)
      requires Valid() && newId in pending && pending[newId].replacing.Some? && pending[newId].kind.Desktop?
      modifies this, m.pool, m.ports, m.budget
      ensures Valid() && EndAnswers(m.budget.config, m.settings.hasVm, old(S()), newId, end, now, r, S()) && !r.NotUndone?
    {
      hide Traced, EndAnswers, Next, Possible, SaneCosts, PromoteError, Converted, AgentsInStep, Named, Stored, Removed, Registered;
      ghost var s, c, vm := S(), m.budget.config, m.settings.hasVm;
      var w := pending[newId];
      var id := w.replacing.value;
      EndIs(c, vm, s, newId, end, now);
      pending := pending - {newId};
      match end
      case CopyRaised =>
        return BackendError;
      case CreateFailed =>
        m.ports.Release(w.port);
        m.budget.Demote();
        PutBack(id, StatusFor(w.agent));
        return BackendError;
      case Done =>
        TakeOut(id);
        Register(newId, w, now);
        return Ok(newId);
    }

    /** What follows the backend work of a demotion; when it failed, the budget may refuse to take the desktop back. */
    method FinishDemote(newId: string, end: ConversionEnd, now: int) returns (r: Reply)
      requires Valid() && newId in pending && pending[newId].replacing.Some? && pending[newId].kind.Headless?
      modifies this, m.pool, m.ports, m.budget
      ensures Valid() && EndAnswers(m.budget.config, m.settings.hasVm, old(S()), newId, end, now, r, S())
    {
      hide Traced, EndAnswers, Next, Possible, SaneCosts, PromoteError, Converted, AgentsInStep, Named, Stored, Removed, Registered;
      ghost var s, c, vm := S(), m.budget.config, m.settings.hasVm;
      var w := pending[newId];
      var id := w.replacing.value;
      EndIs(c, vm, s, newId, end, now);
      pending := pending - {newId};
      match end
      case CopyRaised =>
        return BackendError;
      case CreateFailed =>
        m.ports.Release(w.port);
        var error := m.budget.Promote();
        if error.Some? { return NotUndone(error.value); }
        PutBack(id, StatusFor(w.agent));
        return BackendError;
      case Done =>
        TakeOut(id);
        Register(newId, w, now);
        return Ok(newId);
    }

    /** Takes the unit from its agent: kept for reuse if persistent, else reset, or destroyed if it is a desktop. */
    method EndSession(agent: string, now: int)
      requires Valid()
      modifies this, m.pool
      ensures Valid() && EndedAnswers(m.budget.config, m.settings.hasVm, old(S()), agent, now, S())
    {
      hide Traced, EndedAnswers, SaneCosts, AgentsInStep, Next;
      EndSessionIs(m.budget.config, m.settings.hasVm, S(), agent, now);
      var u := m.pool.GetByAgent(agent);
      if u.None? { return; }
      var id := u.value.id;
      if u.value.persistent {
        m.pool.Detach(id, Idle, now);
      } else if u.value.kind.Headless? {
        m.pool.Detach(id, Resetting, now);
      } else {
        doomed := doomed + multiset{id};
      }
    }

    /** Destruction begins with the backend; the records follow when it is done, whether it raised or not. */
    method BeginDestroy(id: string) returns (r: Reply)
      requires Valid()
      modifies `doomed
      ensures Valid() && m.State() == old(m.State()) && pending == old(pending)
      ensures id in m.pool.units ==>
        r == Waiting && id in doomed && Moves(m.budget.config, m.settings.hasVm, old(S()), DestroyBegin(id), S())
      ensures id !in m.pool.units ==> r == NotFound && S() == old(S())
    {
      hide Traced, Moves, SaneCosts;
      if id !in m.pool.units { return NotFound; }
      MovesBy(m.budget.config, m.settings.hasVm, S(), DestroyBegin(id));
      doomed := doomed + multiset{id};
      return Waiting;
    }

    method FinishDestroy(id: string)
      requires Valid() && id in doomed
      modifies this, m.pool, m.ports, m.budget
      ensures Valid() && Moves(m.budget.config, m.settings.hasVm, old(S()), DestroyEnd(id), S())
      ensures id !in m.pool.units && pending == old(pending)
      ensures AgentsInStep(old(m.pool.units), old(m.pool.agents)) ==> AgentsInStep(m.pool.units, m.pool.agents)
    {
      hide Traced, Moves, SaneCosts, Released, Next, AgentsInStep, Removed;
      DestroyIs(m.budget.config, m.settings.hasVm, S(), id);
      var k := if id in m.pool.units then m.pool.units[id].kind else gone[id].kind;
      TakeOut(id);
      m.budget.Release(k);
      doomed := doomed - multiset{id};
    }

    /** Assigning by hand checks only that the unit is not assigned. */
    method AssignUnit(id: string, agent: string, now: int) returns (r: Reply)
      requires Valid()
      modifies m.pool
      ensures Valid() && Moves(m.budget.config, m.settings.hasVm, old(S()), Assign(id, agent, now), S())
      ensures r.NotFound? <==> id !in old(m.pool.units)
      ensures r.AlreadyAssigned? <==> id in old(m.pool.units) && old(m.pool.units)[id].status.Assigned?
      ensures r.Ok? <==> id in old(m.pool.units) && !old(m.pool.units)[id].status.Assigned?
      ensures !r.Ok? ==> S() == old(S())
      ensures r.Ok? ==> m.pool.agents == old(m.pool.agents)[agent := id]
      ensures r.Ok? && Balanced(m.budget.config, old(S())) ==>
        (Balanced(m.budget.config, S()) <==> MayAssign(old(m.pool.units), old(m.pool.agents), id, agent))
    {
      hide Traced, SaneCosts, Balanced, Calm, Disciplined;
      MovesBy(m.budget.config, m.settings.hasVm, S(), Assign(id, agent, now));
      if id !in m.pool.units { return NotFound; }
      if m.pool.units[id].status.Assigned? { return AlreadyAssigned; }
      m.pool.Assign(id, agent, now);
      return Ok(id);
    }

    /** The reset of a container, started by the end of a session or by a release, is over. */
    method FinishReset(id: string, ready: bool, now: int)
      requires Valid()
      modifies this, m.pool
      ensures Valid()
      ensures id in old(m.pool.units) ==>
        Moves(m.budget.config, m.settings.hasVm, old(S()), if ready then Event.Detach(id, Idle, now) else Store(id, Unhealthy), S())
      ensures id !in old(m.pool.units) ==> S() == old(S())
    {
      hide Traced, Moves, SaneCosts, Stored;
      if id !in m.pool.units { return; }
      NamedAs(S(), id);
      MovesBy(m.budget.config, m.settings.hasVm, S(), if ready then Event.Detach(id, Idle, now) else Store(id, Unhealthy));
      if ready {
        m.pool.Detach(id, Idle, now);
      } else {
        PutBack(id, Unhealthy);
      }
    }
  }

  lemma NamedAs(s: System, id: string)
    requires Traced(s) && id in s.host.units
    ensures s.host.units[id].id == id
  {
  }

  // ----- Ends and conversions, case by case -----

  lemma EndSessionIs(c: Config, vm: bool, s: System, agent: string, now: int)
    requires SaneCosts(c) && Traced(s)
    ensures var t, h := Next(c, vm, s, SessionEnd(agent, now)), s.host;
      EndedAnswers(c, vm, s, agent, now, t) && Traced(t)
      && if agent !in h.agents || h.agents[agent] == "" || h.agents[agent] !in h.units then t == s else
         var id, u := h.agents[agent], h.units[h.agents[agent]];
         u.id == id
         && t == if u.persistent then s.(host := Detaching(h, id, Idle, now))
                 else if u.kind.Headless? then s.(host := Detaching(h, id, Resetting, now))
                 else s.(doomed := s.doomed + multiset{id})
  {
    hide Traced, Moves, SaneCosts, AgentsInStep;
    var h, t := s.host, Next(c, vm, s, SessionEnd(agent, now));
    Identified(s);
    MovesBy(c, vm, s, SessionEnd(agent, now));
    if AgentsInStep(h.units, h.agents) {
      Indexed(h.units, h.agents, agent);
      forall id | id in h.units ensures t.host.units[id].agent == h.units[id].agent || t.host.units[id].agent.None? {}
      assert agent in h.agents ==> Truthy(h.units[h.agents[agent]].agent) by { NamedAgents(h.units, h.agents); }
    }
  }

  lemma NamedAgents(units: map<string, Unit>, agents: map<string, string>)
    requires AgentsInStep(units, agents)
    ensures forall id :: id in units && units[id].agent.Some? ==> Truthy(units[id].agent)
  {
  }

  lemma DestroyIs(c: Config, vm: bool, s: System, id: string)
    requires SaneCosts(c) && Traced(s) && id in s.doomed
    ensures var t := Next(c, vm, s, DestroyEnd(id));
      Moves(c, vm, s, DestroyEnd(id), t) && Traced(t) && Known(s, id)
      && t == Removed(s, id).(host := Removed(s, id).host.(budget := Released(c, s.host.budget, Record(s, id).kind)),
                              doomed := s.doomed - multiset{id})
      && id !in t.host.units && t.pending == s.pending && Removed(s, id).host.budget == s.host.budget && Removed(s, id).doomed == s.doomed
      && (AgentsInStep(s.host.units, s.host.agents) ==> AgentsInStep(t.host.units, t.host.agents))
  {
    hide Traced, Moves, SaneCosts, Released, AgentsInStep;
    DoomedKnown(s, id);
    MovesBy(c, vm, s, DestroyEnd(id));
    if AgentsInStep(s.host.units, s.host.agents) && id in s.host.units { DroppedAgents(s.host.units, s.host.agents, id); }
  }

  lemma Identified(s: System)
    requires Traced(s)
    ensures "" !in s.host.units && forall id :: id in s.host.units ==> s.host.units[id].id == id
  {
  }

  lemma FinishIs(c: Config, vm: bool, s: System, n: string, ok: bool, now: int)
    requires SaneCosts(c) && Traced(s) && n in s.pending && s.pending[n].replacing.None?
    ensures var w, t := s.pending[n], Next(c, vm, s, Finish(n, ok, now));
      Moves(c, vm, s, Finish(n, ok, now), t) && Traced(t)
      && t == (if ok then Registered(s.(pending := s.pending - {n}), n, w, now)
               else s.(host := s.host.(used := s.host.used - {w.port}, budget := Released(c, s.host.budget, w.kind)), pending := s.pending - {n}))
      && (ok ==> Arrived(s, n, w, t))
  {
    hide Traced, Moves, SaneCosts, Released;
    MovesBy(c, vm, s, Finish(n, ok, now));
  }

  lemma EndIs(c: Config, vm: bool, s: System, n: string, end: ConversionEnd, now: int)
    requires SaneCosts(c) && Traced(s) && n in s.pending && s.pending[n].replacing.Some?
    ensures var w, rest, id := s.pending[n], s.(pending := s.pending - {n}), s.pending[n].replacing.value;
      var t, freed := Next(c, vm, s, EndEvent(n, end, now)), s.host.(used := s.host.used - {w.port});
      Known(s, id) && Record(s, id).id == id && Traced(t)
      && t == (match end
               case CopyRaised => rest
               case CreateFailed =>
                 if Undone(c, s.host.budget, w.kind).None? then rest.(host := freed)
                 else Stored(rest.(host := freed.(budget := Undone(c, s.host.budget, w.kind).value)), id, StatusFor(w.agent))
               case Done => Registered(Removed(rest, id), n, w, now))
      && EndAnswers(c, vm, s, n, end, now, EndReply(c, s.host.budget, n, w, end), t)
  {
    hide Traced, Moves, SaneCosts, PromoteError, Converted;
    WaitsFor(s, n, s.pending[n].replacing.value);
    MovesBy(c, vm, s, EndEvent(n, end, now));
  }

  lemma ConvertRefused(c: Config, vm: bool, ranges: Ranges, s: System, ev: Event, r: Reply)
    requires SaneCosts(c) && Traced(s) && ev.Convert? && ev.port.None? && Fresh(s, ev.newId) && Refused(c, vm, s.host, ev.id, ev.to)
    requires !r.Waiting? && !r.NoPorts? && !r.NotUndone?
    ensures ConvertAnswers(c, vm, ranges, s, ev, r, s) && Next(c, vm, s, ev) == s
  {
    hide Traced, Moves, SaneCosts, PromoteError, Converted, RangeFull, Fresh;
    MovesBy(c, vm, s, ev);
  }

  lemma ConvertWaiting(c: Config, vm: bool, ranges: Ranges, s: System, ev: Event)
    requires SaneCosts(c) && Traced(s) && ev.Convert? && Fresh(s, ev.newId) && !Refused(c, vm, s.host, ev.id, ev.to)
    requires ev.port.Some? && ev.port.value !in s.host.used && !RangeFull(ranges, s.host.used, ev.to)
    ensures var t, h, u := Next(c, vm, s, ev), s.host, s.host.units[ev.id];
      ConvertAnswers(c, vm, ranges, s, ev, Waiting, t) && Traced(t)
      && t == s.(host := Host(h.units[ev.id := u.(status := Converting(ev.to))], h.agents, h.used + {ev.port.value},
                              Converted(c, h.budget, Up(ev.to))),
                 pending := s.pending[ev.newId := Work(ev.to, ev.port.value, false, u.agent, Some(ev.id))])
  {
    hide Traced, Moves, SaneCosts, PromoteError, Converted, RangeFull, Fresh;
    MovesBy(c, vm, s, ev);
  }

  lemma ConvertUnported(c: Config, vm: bool, ranges: Ranges, s: System, ev: Event, r: Reply)
    requires SaneCosts(c) && Traced(s) && ev.Convert? && Fresh(s, ev.newId) && !Refused(c, vm, s.host, ev.id, ev.to)
    requires ev.port.None? && RangeFull(ranges, s.host.used, ev.to)
    requires if Undone(c, Converted(c, s.host.budget, Up(ev.to)), ev.to).Some? then r.NoPorts? else r.NotUndone?
    ensures var t, h, u := Next(c, vm, s, ev), s.host, s.host.units[ev.id];
      ConvertAnswers(c, vm, ranges, s, ev, r, t) && Traced(t)
      && t == if r.NoPorts? then s.(host := h.(units := h.units[ev.id := u.(status := StatusFor(u.agent))]))
              else s.(host := h.(units := h.units[ev.id := u.(status := Converting(ev.to))], budget := Converted(c, h.budget, Up(ev.to))))
  {
    hide Traced, Moves, SaneCosts, PromoteError, Converted, RangeFull, Fresh;
    if r.NoPorts? { UndoneIs(c, s.host.budget, ev.to); }
    MovesBy(c, vm, s, ev);
  }

  lemma PossibleStart(s: System, ev: Event)
    requires ev.SessionStart? && Fresh(s, ev.newId) && (ev.port.Some? ==> ev.port.value !in s.host.used)
    requires ev.pick.Some? ==> ev.pick.value in s.host.units && s.host.units[ev.pick.value].status.Idle? && s.host.units[ev.pick.value].kind == ev.kind
    requires ev.pick.None? ==> !HasIdle(s.host.units, ev.kind)
    ensures Possible(s, ev)
  {
    hide HasIdle, Fresh;
  }

  /** Whether an agent is given its unit back, as the pool answers it. */
  lemma ServedIs(s: System, agent: string)
    requires Traced(s)
    ensures var h := s.host;
      (Served(h, agent) <==>
         agent != "" && agent in h.agents && h.agents[agent] != "" && h.agents[agent] in h.units
         && (h.units[h.agents[agent]].status.Assigned? || h.units[h.agents[agent]].status.Idle?))
      && (agent in h.agents && h.agents[agent] in h.units ==> h.units[h.agents[agent]].id == h.agents[agent])
  {
  }

  /** What a session start that gives out a unit makes of the host. */
  function GivenOut(h: Host, id: string, agent: string, give: bool, now: int): Host
    requires id in h.units
  {
    if give then HandedOut(h, id, agent, now) else h
  }

  // ----- A session start, case by case -----

  lemma ServedStart(c: Config, vm: bool, ranges: Ranges, s: System, ev: Event)
    requires SaneCosts(c) && Traced(s) && ev.SessionStart? && Possible(s, ev) && Served(s.host, ev.agent)
    ensures var t, id := Next(c, vm, s, ev), s.host.agents[ev.agent];
      StartAnswers(c, vm, ranges, s, ev, Ok(id), t) && Traced(t)
      && t == s.(host := GivenOut(s.host, id, ev.agent, s.host.units[id].status.Idle?, ev.now))
  {
    hide Traced, Possible, SaneCosts, Moves, HasIdle, RangeFull, ReserveError, Balanced;
    MovesBy(c, vm, s, ev);
  }

  lemma IdleStart(c: Config, vm: bool, ranges: Ranges, s: System, ev: Event)
    requires SaneCosts(c) && Traced(s) && ev.SessionStart? && Possible(s, ev) && !Served(s.host, ev.agent) && ev.pick.Some?
    ensures ev.pick.value in s.host.units
    ensures var t := Next(c, vm, s, ev);
      StartAnswers(c, vm, ranges, s, ev, Ok(ev.pick.value), t) && Traced(t)
      && t == s.(host := GivenOut(s.host, ev.pick.value, ev.agent, ev.agent != "", ev.now))
  {
    hide Traced, SaneCosts, Served, Moves, RangeFull, ReserveError, Balanced;
    MovesBy(c, vm, s, ev);
    assert HasIdle(s.host.units, ev.kind);
  }

  lemma CreateStart(c: Config, vm: bool, ranges: Ranges, s: System, ev: Event, r: Reply)
    requires SaneCosts(c) && Traced(s) && ev.SessionStart? && Possible(s, ev) && !Served(s.host, ev.agent) && ev.pick.None?
    requires (ev.kind.Desktop? ==> vm) && ReserveError(c, s.host.budget, ev.kind).None? ==>
      (RangeFull(ranges, s.host.used, ev.kind) <==> ev.port.None?)
    requires r == if ev.kind.Desktop? && !vm then NoVm
                  else if ReserveError(c, s.host.budget, ev.kind).Some? then OutOfBudget(ReserveError(c, s.host.budget, ev.kind).value)
                  else if ev.port.None? then NoPorts else Waiting
    ensures var t, h, b, k := Next(c, vm, s, ev), s.host, s.host.budget, ev.kind;
      StartAnswers(c, vm, ranges, s, ev, r, t) && Traced(t)
      && t == if (k.Desktop? && !vm) || ReserveError(c, b, k).Some? then s
              else if ev.port.None? then s.(host := h.(budget := Released(c, Charged(c, b, k), k)))
              else s.(host := h.(used := h.used + {ev.port.value}, budget := Charged(c, b, k)),
                      pending := s.pending[ev.newId := Work(k, ev.port.value, k.Desktop? || ev.persistent, Some(ev.agent), None)])
  {
    hide Traced, ReserveError, Charged, Released, HasIdle, Served, SaneCosts, Balanced, Moves, RangeFull;
    MovesBy(c, vm, s, ev);
    ReservedBack(c, s, ev.kind);
  }

  lemma ReservedBack(c: Config, s: System, k: Kind)
    requires SaneCosts(c)
    ensures Balanced(c, s) ==> Released(c, Charged(c, s.host.budget, k), k) == s.host.budget
  {
    if Balanced(c, s) {
      hide AgentsInStep, PortsInStep, Owed, Charged, Released, SaneCosts;
      ReleaseUndoesReserve(c, s.host.budget, k);
    }
  }

  ghost function AnyIdle(units: map<string, Unit>, k: Kind): (pick: Option<string>)
    ensures pick.Some? ==> pick.value in units && units[pick.value].status.Idle? && units[pick.value].kind == k
    ensures pick.None? ==> !HasIdle(units, k)
  {
    if HasIdle(units, k) then
      var id :| id in units && units[id].status.Idle? && units[id].kind == k;
      Some(id)
    else None
  }

  lemma NoIdle(units: map<string, Unit>, k: Kind, idle: set<string>)
    requires idle == set id | id in units && units[id].status.Idle? && units[id].kind == k
    ensures HasIdle(units, k) <==> idle != {}
  {
    if id :| id in units && units[id].status.Idle? && units[id].kind == k { assert id in idle; }
  }

  /** After a stranded agent was given a second unit, evicting the first one takes the second out of the index. */
  lemma StrandedLosesAgent(h: Host, agent: string, id: string, now: int)
    requires AgentsInStep(h.units, h.agents) && Named(h.units) && Stranded(h, agent) && id in h.units && id != h.agents[agent]
    ensures var u := h.units[id];
      var handed := h.(units := h.units[id := u.(agent := Some(agent), status := Assigned, lastUsed := now)],
                       agents := h.agents[agent := id]);
      var after := Dropped(handed, h.units[h.agents[agent]]);
      id in after.units && after.units[id].agent == Some(agent) && agent !in after.agents
  {
    var first := h.agents[agent];
    assert h.units[first].agent == Some(agent);
  }

  predicate RangeFull(r: Ranges, used: set<int>, k: Kind) {
    if k.Desktop? then forall p :: r.desktopStart <= p <= r.desktopEnd ==> p in used
    else forall p :: r.headlessStart <= p <= r.headlessEnd ==> p in used
  }

  // ----- Startup -----

  ghost predicate PortsDistinct(units: map<string, Unit>) {
    forall a, b :: a in units && b in units && units[a].port == units[b].port ==> a == b
  }

  /** Records that were in step when they were saved. */
  ghost predicate Saved(units: map<string, Unit>, agents: map<string, string>) {
    Named(units) && IdleFree(units) && PortsDistinct(units) && AgentsInStep(units, agents)
  }

  lemma ActiveCounts(units: map<string, Unit>)
    ensures (ActiveCount(units, Headless) == Count(units, Headless) && ActiveCount(units, Desktop) == Count(units, Desktop))
      <==> forall id :: id in units ==> !units[id].status.Unhealthy?
  {
    ActiveAtMost(units, Headless);
    ActiveAtMost(units, Desktop);
  }

  lemma ActiveAtMost(units: map<string, Unit>, k: Kind)
    ensures ActiveCount(units, k) == Count(units, k) <==> forall id :: id in units && units[id].kind == k ==> !units[id].status.Unhealthy?
  {
    var all := set id | id in units && units[id].kind == k;
    var active := set id | id in units && units[id].kind == k && !units[id].status.Unhealthy?;
    if x :| x in units && units[x].kind == k && units[x].status.Unhealthy? {
      assert x in all && active <= all - {x};
      SubsetSize(active, all - {x});
    } else {
      assert active == all;
    }
  }

  /** What a restart leaves of records that were in step: in step again exactly when no unit that survives is unhealthy. */
  lemma StartInStep(c: Config, units: map<string, Unit>, agents: map<string, string>, used: set<int>)
    requires Saved(units, agents) && used == set id | id in units :: units[id].port
    ensures InStep(c, Host(units, agents, used, Rebuilt(c, ActiveCount(units, Headless), ActiveCount(units, Desktop))))
      <==> forall id :: id in units ==> !units[id].status.Unhealthy?
  {
    hide Count, ActiveCount, AgentsInStep;
    ActiveCounts(units);
    assert PortsInStep(units, used) by {
      hide Named, IdleFree;
      assert forall id :: id in units ==> units[id].port in used;
    }
  }

  method RemoveStale(pool: PoolState, ports: PortAllocator, alive: set<string>)
    requires Saved(pool.units, pool.agents)
    modifies pool, ports
    ensures Saved(pool.units, pool.agents)
    ensures pool.units == map id | id in old(pool.units) && id in alive :: old(pool.units)[id]
  {
    hide *;
    ghost var units := pool.units;
    var stale := pool.units.Keys - alive;
    while stale != {}
      invariant stale <= units.Keys - alive
      invariant pool.units == map id | id in units && (id in alive || id in stale) :: units[id]
      invariant Saved(pool.units, pool.agents)
    {
      var id :| id in stale;
      stale := stale - {id};
      DroppedSaved(pool.units, pool.agents, id);
      ports.Release(pool.units[id].port);
      pool.Remove(id);
    }
  }

  /** Reconciles saved records with the units that are still running; the budget counts only those not unhealthy. */
  method Start(settings: Settings, ranges: Ranges, config: Config, units: map<string, Unit>, agents: map<string, string>,
               alive: set<string>) returns (m: HealthMonitor)
    requires Saved(units, agents)
    ensures fresh(m) && fresh(m.pool) && fresh(m.ports) && fresh(m.budget) && m.settings == settings && m.budget.config == config
    ensures m.pool.units == map id | id in units && id in alive :: units[id]
    ensures InStep(config, m.State()) <==> forall id :: id in m.pool.units ==> !m.pool.units[id].status.Unhealthy?
  {
    var pool := new PoolState(units, agents);
    var ports := new PortAllocator(ranges);
    var budget := new CapacityBudget(config);
    RemoveStale(pool, ports, alive);
    var left := set id | id in pool.units :: pool.units[id].port;
    ports.ReclaimFromPool(left);
    var headless := pool.ActiveUnits(Headless);
    var desktop := pool.ActiveUnits(Desktop);
    budget.RebuildFromUnits(headless, desktop);
    StartInStep(config, pool.units, pool.agents, left);
    m := new HealthMonitor(settings, pool, ports, budget);
  }

  lemma DroppedSaved(units: map<string, Unit>, agents: map<string, string>, id: string)
    requires Saved(units, agents) && id in units
    ensures Saved(units - {id}, if Truthy(units[id].agent) then agents - {units[id].agent.value} else agents)
  {
    hide AgentsInStep;
    DroppedAgents(units, agents, id);
  }

  /** After such a start, evicting an unhealthy unit takes its cost off a budget that never had it: the total falls short of what runs. */
  lemma UnhealthyStartUndercounts(c: Config, units: map<string, Unit>, agents: map<string, string>, used: set<int>, u: Unit)
    requires Saved(units, agents) && u.id in units && units[u.id] == u && u.status.Unhealthy?
    requires ActiveCount(units, u.kind) >= 1
    ensures var h := Host(units, agents, used, Rebuilt(c, ActiveCount(units, Headless), ActiveCount(units, Desktop)));
      CountOf(Evicted(c, h, u).budget, u.kind) < ActiveCount(Evicted(c, h, u).units, u.kind)
  {
    var rest := units - {u.id};
    assert (set id | id in rest && rest[id].kind == u.kind && !rest[id].status.Unhealthy?)
        == set id | id in units && units[id].kind == u.kind && !units[id].status.Unhealthy?;
  }
}
