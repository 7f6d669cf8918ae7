/** What each stretch of a request changes on a sandbox host, told field by field. */
module PoolAnswers {
  import opened Prelude
  import opened BudgetSpec
  import opened Pool
  import opened PoolRequests

  /** No record is touched, in the pool or out of it, and the index is the same. */
  ghost predicate RecordsKept(s: System, t: System) {
    t.host.units == s.host.units && t.host.agents == s.host.agents && t.gone == s.gone
  }

  /** Nothing new waits, and nothing that waited is over. */
  ghost predicate WaitingKept(s: System, t: System) {
    t.pending == s.pending && t.doomed == s.doomed
  }

  ghost predicate ResourcesKept(s: System, t: System) {
    t.host.used == s.host.used && t.host.budget == s.host.budget
  }

  predicate NamedAgent(agent: Option<string>) {
    agent != None && agent != Some("")
  }

  /** The agent has the unit, in record and index, and nothing else changes. */
  ghost predicate Given(s: System, t: System, id: string, agent: string, now: int)
    requires id in s.host.units
  {
    WaitingKept(s, t) && ResourcesKept(s, t) && t.gone == s.gone && t.host.agents == s.host.agents[agent := id]
    && t.host.units == s.host.units[id := s.host.units[id].(agent := Some(agent), status := Assigned, lastUsed := now)]
  }

  /** The unit has lost its agent, in record and index, and has the status; nothing else changes. */
  ghost predicate Taken(s: System, t: System, id: string, status: Status, now: int)
    requires id in s.host.units
  {
    var u := s.host.units[id];
    WaitingKept(s, t) && ResourcesKept(s, t) && t.gone == s.gone
    && t.host.agents == (if NamedAgent(u.agent) then s.host.agents - {u.agent.value} else s.host.agents)
    && t.host.units == s.host.units[id := u.(agent := None, status := status, failures := 0, lastUsed := now)]
  }

  /** The unit is out of the pool, with its port and its agent's entry; a request may still hold its record. */
  ghost predicate Out(s: System, t: System, id: string)
    requires Known(s, id)
  {
    if id in s.host.units then
      var u := s.host.units[id];
      t.host.units == s.host.units - {id} && t.gone == s.gone[id := u] && t.host.used == s.host.used - {u.port}
      && t.host.agents == if NamedAgent(u.agent) then s.host.agents - {u.agent.value} else s.host.agents
    else RecordsKept(s, t) && t.host.used == s.host.used - {s.gone[id].port}
  }

  /** The unit that was on its way is in the pool, new, and its agent, if it has one, has it. */
  ghost predicate ArrivedNew(s: System, t: System, id: string, w: Work, now: int) {
    var agent := if NamedAgent(w.agent) then w.agent else None;
    t.host.units == s.host.units[id := Unit(id, w.kind, w.port, if agent.Some? then Assigned else Idle, w.persistent, agent, now, now, None, 0)]
    && t.host.agents == (if agent.Some? then s.host.agents[agent.value := id] else s.host.agents)
    && t.host.used == s.host.used && t.gone == s.gone
  }

  /** A session start gives the agent its own unit, or an idle one, or leaves a new one waiting with its port and cost taken. */
  ghost predicate StartSays(c: Config, vm: bool, s: System, ev: Event, t: System)
    requires ev.SessionStart?
  {
    var SessionStart(agent, k, persistent, pick, newId, port, now) := ev;
    var h := s.host;
    if agent != "" && agent in h.agents && h.agents[agent] in h.units && h.units[h.agents[agent]].status in {Assigned, Idle} then
      if h.units[h.agents[agent]].status == Idle then Given(s, t, h.agents[agent], agent, now) else t == s
    else if pick.Some? && pick.value in h.units then
      if agent != "" then Given(s, t, pick.value, agent, now) else t == s
    else if (k == Desktop && !vm) || ReserveError(c, h.budget, k).Some? then t == s
    else match port
      case None => RecordsKept(s, t) && WaitingKept(s, t) && t.host.used == h.used
      case Some(p) =>
        RecordsKept(s, t) && t.doomed == s.doomed && t.host.used == h.used + {p} && t.host.budget == Charged(c, h.budget, k)
        && t.pending == s.pending[newId := Work(k, p, persistent || k == Desktop, Some(agent), None)]
  }

  /** The end of a session leaves a persistent unit idle, begins to reset a container, and begins to destroy a desktop. */
  ghost predicate EndSays(s: System, agent: string, now: int, t: System) {
    var h := s.host;
    if agent !in h.agents || h.agents[agent] !in h.units then t == s
    else
      var id := h.agents[agent];
      if h.units[id].persistent then Taken(s, t, id, Idle, now)
      else if h.units[id].kind == Headless then Taken(s, t, id, Resetting, now)
      else t == s.(doomed := s.doomed + multiset{id})
  }

  /** Only the unit's status, the budget and what is given on the right differ. */
  ghost predicate Marked(s: System, t: System, id: string, status: Status, b: Budget)
    requires id in s.host.units
  {
    t.host.units == s.host.units[id := s.host.units[id].(status := status)] && t.host.budget == b
    && t.host.agents == s.host.agents && t.gone == s.gone && t.doomed == s.doomed
  }

  /** A conversion marks its unit, takes a port and swaps the cost; without a port it undoes that, unless the budget refuses. */
  ghost predicate ConvertSays(c: Config, vm: bool, s: System, id: string, newId: string, to: Kind, port: Option<int>, t: System) {
    var h := s.host;
    if id !in h.units || h.units[id].kind == to || (to == Desktop && (!vm || PromoteError(c, h.budget).Some?)) then t == s
    else
      var agent, marked, swapped := h.units[id].agent, if to == Desktop then Promoting else Demoting, Converted(c, h.budget, if to == Desktop then 1 else -1);
      if port.Some? then
        Marked(s, t, id, marked, swapped) && t.host.used == h.used + {port.value}
        && t.pending == s.pending[newId := Work(to, port.value, false, agent, Some(id))]
      else if to == Headless && PromoteError(c, swapped).Some? then
        Marked(s, t, id, Demoting, swapped) && t.host.used == h.used && t.pending == s.pending
      else
        Marked(s, t, id, if NamedAgent(agent) then Assigned else Idle, Converted(c, swapped, if to == Desktop then -1 else 1))
        && t.host.used == h.used && t.pending == s.pending
  }

  /** A creation that ends leaves the new unit, or gives back its port and cost. */
  ghost predicate CreationSays(c: Config, s: System, n: string, ok: bool, now: int, t: System)
    requires n in s.pending
  {
    var w := s.pending[n];
    t.pending == s.pending - {n} && t.doomed == s.doomed
    && if ok then ArrivedNew(s, t, n, w, now) && t.host.budget == s.host.budget
       else RecordsKept(s, t) && t.host.used == s.host.used - {w.port} && t.host.budget == Released(c, s.host.budget, w.kind)
  }

  /**
   * A conversion that ends puts the new unit in the place of the old one; one that failed gives its port back and, unless the
   * budget refuses, the old unit its status and the budget its cost.
   */
  ghost predicate ConversionSays(c: Config, s: System, n: string, id: string, ok: bool, now: int, t: System)
    requires n in s.pending && Known(s, id)
  {
    var w := s.pending[n];
    var back := Converted(c, s.host.budget, if w.kind == Desktop then -1 else 1);
    t.pending == s.pending - {n} && t.doomed == s.doomed
    && if ok then t.host.budget == s.host.budget && exists mid: System :: Out(s, mid, id) && ArrivedNew(mid, t, n, w, now)
       else if w.kind == Headless && PromoteError(c, s.host.budget).Some? then
         RecordsKept(s, t) && t.host.used == s.host.used - {w.port} && t.host.budget == s.host.budget
       else
         PutBackSays(s, t, id, if NamedAgent(w.agent) then Assigned else Idle)
         && t.host.used == s.host.used - {w.port} && t.host.budget == back
  }

  /** The record is in the pool with the status, whether or not it had been taken out; the index does not follow. */
  ghost predicate PutBackSays(s: System, t: System, id: string, status: Status)
    requires Known(s, id)
  {
    var u := if id in s.host.units then s.host.units[id] else s.gone[id];
    t.host.units == s.host.units[id := u.(status := status)] && t.gone == s.gone - {id} && t.host.agents == s.host.agents
  }

  /** A destruction that ends takes the unit out and gives back its cost, once for each time it is done. */
  ghost predicate DestroySays(c: Config, s: System, id: string, t: System) {
    if id !in s.doomed || !Known(s, id) then t == s
    else
      var u := if id in s.host.units then s.host.units[id] else s.gone[id];
      Out(s, t, id) && t.doomed == s.doomed - multiset{id} && t.pending == s.pending && t.host.budget == Released(c, s.host.budget, u.kind)
  }

  ghost predicate FinishSays(c: Config, s: System, n: string, ok: bool, now: int, t: System)
    requires n in s.pending
  {
    match s.pending[n].replacing
    case None => CreationSays(c, s, n, ok, now, t)
    case Some(id) => if Known(s, id) then ConversionSays(c, s, n, id, ok, now, t) else t == s.(pending := s.pending - {n})
  }

  ghost predicate StepSays(c: Config, vm: bool, s: System, ev: Event, t: System) {
    match ev
    case SessionStart(_, _, _, _, _, _, _) => StartSays(c, vm, s, ev, t)
    case SessionEnd(agent, now) => EndSays(s, agent, now, t)
    case Convert(id, newId, to, port) => ConvertSays(c, vm, s, id, newId, to, port, t)
    case Finish(n, ok, now) => if n in s.pending then FinishSays(c, s, n, ok, now, t) else t == s
    case Lose(n) => t == s.(pending := s.pending - {n})
    case DestroyBegin(id) => t == if Known(s, id) then s.(doomed := s.doomed + multiset{id}) else s
    case DestroyEnd(id) => DestroySays(c, s, id, t)
    case Assign(id, agent, now) => if id in s.host.units && s.host.units[id].status != Assigned then Given(s, t, id, agent, now) else t == s
    case Detach(id, status, now) => if id in s.host.units then Taken(s, t, id, status, now) else t == s
    case Store(id, status) => if Known(s, id) then PutBackSays(s, t, id, status) && ResourcesKept(s, t) && WaitingKept(s, t) else t == s
  }

  lemma StartIs(c: Config, vm: bool, s: System, ev: Event)
    requires ev.SessionStart?
    ensures StartSays(c, vm, s, ev, SessionStarted(c, vm, s, ev))
  {
    hide ReserveError, Charged, Released;
  }

  lemma ConvertIs(c: Config, vm: bool, s: System, id: string, newId: string, to: Kind, port: Option<int>)
    ensures ConvertSays(c, vm, s, id, newId, to, port, ConvertBegun(c, vm, s, id, newId, to, port))
  {
    hide PromoteError, Converted;
  }

  lemma FinishIs(c: Config, s: System, n: string, ok: bool, now: int)
    requires n in s.pending
    ensures FinishSays(c, s, n, ok, now, Finished(c, s, n, ok, now))
  {
    hide PromoteError, Converted, Released;
    var rest := s.(pending := s.pending - {n});
    if ok && s.pending[n].replacing.Some? && Known(s, s.pending[n].replacing.value) {
      var id := s.pending[n].replacing.value;
      assert Out(s, Removed(rest, id), id);
      assert ArrivedNew(Removed(rest, id), Finished(c, s, n, ok, now), n, s.pending[n], now);
    }
  }

  lemma DestroyedIs(c: Config, vm: bool, s: System, id: string)
    ensures DestroySays(c, s, id, Next(c, vm, s, DestroyEnd(id)))
  {
    hide Released;
  }

  lemma EndIs(c: Config, vm: bool, s: System, agent: string, now: int)
    ensures EndSays(s, agent, now, Next(c, vm, s, SessionEnd(agent, now)))
  {
  }

  lemma OthersAre(c: Config, vm: bool, s: System, ev: Event)
    requires ev.Assign? || ev.Detach? || ev.Store?
    ensures StepSays(c, vm, s, ev, Next(c, vm, s, ev))
  {
  }

  /** Every stretch of every request does to the records, the index, the ports and the budget what it says, and nothing else. */
  lemma NextSays(c: Config, vm: bool, s: System, ev: Event)
    ensures StepSays(c, vm, s, ev, Next(c, vm, s, ev))
  {
    hide StartSays, EndSays, ConvertSays, FinishSays, DestroySays, SessionStarted, ConvertBegun, Finished, Given, Taken, PutBackSays;
    match ev
    case SessionStart(_, _, _, _, _, _, _) => StartIs(c, vm, s, ev);
    case SessionEnd(agent, now) => EndIs(c, vm, s, agent, now);
    case Convert(id, newId, to, port) => ConvertIs(c, vm, s, id, newId, to, port);
    case Finish(n, ok, now) => if n in s.pending { FinishIs(c, s, n, ok, now); }
    case Lose(n) => assert n !in s.pending ==> s.pending - {n} == s.pending;
    case DestroyBegin(_) =>
    case DestroyEnd(id) => DestroyedIs(c, vm, s, id);
    case Assign(_, _, _) => OthersAre(c, vm, s, ev);
    case Detach(_, _, _) => OthersAre(c, vm, s, ev);
    case Store(_, _) => OthersAre(c, vm, s, ev);
  }
}
