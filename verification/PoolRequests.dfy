/**
 * A sandbox host as its requests see it. Creating, converting and destroying a unit wait for the backend in the middle, and
 * other requests run meanwhile: a step is one stretch between two awaits, and the state holds the requests that wait.
 */
module PoolRequests {
  import opened Prelude
  import opened BudgetSpec
  import opened Pool
  import opened PoolInvariant

  /** A unit on its way: its port and cost are taken, and a conversion will take the unit it replaces out. */
  datatype Work = Work(kind: Kind, port: int, persistent: bool, agent: Option<string>, replacing: Option<string>)

  /**
   * pending holds the units on their way by their new id, doomed the units whose destruction is waiting, and gone the
   * records taken out of the pool, which a request that waits may still hold.
   */
  datatype System = System(host: Host, gone: map<string, Unit>, pending: map<string, Work>, doomed: multiset<string>)

  /** pick, newId and port are what the pool, the id generator and the port allocator answer. */
  datatype Event =
    | SessionStart(agent: string, kind: Kind, persistent: bool, pick: Option<string>, newId: string, port: Option<int>, now: int)
    | SessionEnd(agent: string, now: int)
    | Convert(id: string, newId: string, to: Kind, port: Option<int>)
    | Finish(newId: string, ok: bool, now: int)
    | Lose(newId: string)
    | DestroyBegin(id: string)
    | DestroyEnd(id: string)
    | Assign(id: string, agent: string, now: int)
    | Detach(id: string, status: Status, now: int)
    | Store(id: string, status: Status)

  function NewUnit(id: string, k: Kind, port: int, persistent: bool, now: int): Unit {
    Unit(id, k, port, Idle, persistent, None, now, now, None, 0)
  }

  /** The agent has a unit that session_start gives it back. */
  predicate Served(h: Host, agent: string) {
    agent != "" && agent in h.agents && h.agents[agent] in h.units
    && (h.units[h.agents[agent]].status.Assigned? || h.units[h.agents[agent]].status.Idle?)
  }

  predicate HasIdle(units: map<string, Unit>, k: Kind) {
    exists id :: id in units && units[id].status.Idle? && units[id].kind == k
  }

  function HandedOut(h: Host, id: string, agent: string, now: int): Host
    requires id in h.units
  {
    h.(units := h.units[id := h.units[id].(agent := Some(agent), status := Assigned, lastUsed := now)], agents := h.agents[agent := id])
  }

  predicate Known(s: System, id: string) {
    id in s.host.units || id in s.gone
  }

  /** The record a request holds is the same object whether or not the pool still has it. */
  function Record(s: System, id: string): Unit
    requires Known(s, id)
  {
    if id in s.host.units then s.host.units[id] else s.gone[id]
  }

  /** Giving back a unit's port and taking the unit out, if it is still there. */
  function Removed(s: System, id: string): System
    requires Known(s, id)
  {
    var u := Record(s, id);
    var used := s.host.used - {u.port};
    if id in s.host.units then
      s.(host := Host(s.host.units - {id}, Unindexed(s.host.agents, u), used, s.host.budget), gone := s.gone[id := u])
    else s.(host := s.host.(used := used))
  }

  /** pool.update puts a record back even if the pool no longer had it. */
  function Stored(s: System, id: string, status: Status): System
    requires Known(s, id)
  {
    s.(host := s.host.(units := s.host.units[id := Record(s, id).(status := status)]), gone := s.gone - {id})
  }

  function Registered(s: System, id: string, w: Work, now: int): System {
    var h := s.host.(units := s.host.units[id := NewUnit(id, w.kind, w.port, w.persistent, now)]);
    s.(host := if Truthy(w.agent) then HandedOut(h, id, w.agent.value, now) else h)
  }

  function Converting(to: Kind): Status {
    if to.Desktop? then Promoting else Demoting
  }

  function StatusFor(agent: Option<string>): Status {
    if Truthy(agent) then Assigned else Idle
  }

  function Up(to: Kind): int {
    if to.Desktop? then 1 else -1
  }

  /** Undoing a promotion always works; undoing a demotion is a promotion, which the budget may refuse. */
  function Undone(c: Config, b: Budget, to: Kind): Option<Budget> {
    if to.Desktop? then Some(Converted(c, b, -1))
    else if PromoteError(c, b).Some? then None else Some(Converted(c, b, 1))
  }

  /** The conversion is turned down before anything changes. */
  predicate Refused(c: Config, vm: bool, h: Host, id: string, to: Kind) {
    id !in h.units || h.units[id].kind == to || (to.Desktop? && (!vm || PromoteError(c, h.budget).Some?))
  }

  function SessionStarted(c: Config, vm: bool, s: System, ev: Event): System
    requires ev.SessionStart?
  {
    var SessionStart(agent, k, persistent, pick, newId, port, now) := ev;
    var h := s.host;
    if Served(h, agent) then
      if h.units[h.agents[agent]].status.Idle? then s.(host := HandedOut(h, h.agents[agent], agent, now)) else s
    else if pick.Some? && pick.value in h.units then
      if agent != "" then s.(host := HandedOut(h, pick.value, agent, now)) else s
    else if (k.Desktop? && !vm) || ReserveError(c, h.budget, k).Some? then s
    else match port
      case None => s.(host := h.(budget := Released(c, Charged(c, h.budget, k), k)))
      case Some(p) =>
        s.(host := h.(used := h.used + {p}, budget := Charged(c, h.budget, k)),
           pending := s.pending[newId := Work(k, p, k.Desktop? || persistent, Some(agent), None)])
  }

  function ConvertBegun(c: Config, vm: bool, s: System, id: string, newId: string, to: Kind, port: Option<int>): System {
    var h := s.host;
    if Refused(c, vm, h, id, to) then s else
      var u, b := h.units[id], Converted(c, h.budget, Up(to));
      var marked := s.(host := h.(units := h.units[id := u.(status := Converting(to))], budget := b));
      match port
      case Some(p) =>
        marked.(host := marked.host.(used := h.used + {p}),
                pending := s.pending[newId := Work(to, p, false, u.agent, Some(id))])
      case None =>
        match Undone(c, b, to)
        case None => marked
        case Some(back) => s.(host := h.(units := h.units[id := u.(status := StatusFor(u.agent))], budget := back))
  }

  function Finished(c: Config, s: System, newId: string, ok: bool, now: int): System
    requires newId in s.pending
  {
    var w, rest := s.pending[newId], s.(pending := s.pending - {newId});
    var freed := s.host.(used := s.host.used - {w.port});
    match w.replacing
    case None =>
      if ok then Registered(rest, newId, w, now) else rest.(host := freed.(budget := Released(c, s.host.budget, w.kind)))
    case Some(id) =>
      if !Known(s, id) then rest
      else if ok then Registered(Removed(rest, id), newId, w, now)
      else match Undone(c, s.host.budget, w.kind)
        case None => rest.(host := freed)
        case Some(back) => Stored(rest.(host := freed.(budget := back)), id, StatusFor(w.agent))
  }

  function Detaching(h: Host, id: string, status: Status, now: int): Host
    requires id in h.units
  {
    h.(units := h.units[id := Detached(h.units[id], status, now)], agents := Unindexed(h.agents, h.units[id]))
  }

  function Next(c: Config, vm: bool, s: System, ev: Event): System {
    var h := s.host;
    match ev
    case SessionStart(_, _, _, _, _, _, _) => SessionStarted(c, vm, s, ev)
    case SessionEnd(agent, now) =>
      if agent !in h.agents || h.agents[agent] !in h.units then s else
        var id := h.agents[agent];
        var u := h.units[id];
        if u.persistent then s.(host := Detaching(h, id, Idle, now))
        else if u.kind.Headless? then s.(host := Detaching(h, id, Resetting, now))
        else s.(doomed := s.doomed + multiset{id})
    case Convert(id, newId, to, port) => ConvertBegun(c, vm, s, id, newId, to, port)
    case Finish(newId, ok, now) => if newId in s.pending then Finished(c, s, newId, ok, now) else s
    case Lose(newId) => s.(pending := s.pending - {newId})
    case DestroyBegin(id) => if Known(s, id) then s.(doomed := s.doomed + multiset{id}) else s
    case DestroyEnd(id) =>
      if id !in s.doomed || !Known(s, id) then s else
        var t := Removed(s, id);
        t.(host := t.host.(budget := Released(c, h.budget, Record(s, id).kind)), doomed := s.doomed - multiset{id})
    case Assign(id, agent, now) =>
      if id in h.units && !h.units[id].status.Assigned? then s.(host := HandedOut(h, id, agent, now)) else s
    case Detach(id, status, now) => if id in h.units then s.(host := Detaching(h, id, status, now)) else s
    case Store(id, status) => if Known(s, id) then Stored(s, id, status) else s
  }

  // ----- What can happen -----

  predicate Fresh(s: System, id: string) {
    id != "" && !Known(s, id) && id !in s.pending
  }

  predicate FreePort(s: System, port: Option<int>) {
    port.Some? ==> port.value !in s.host.used
  }

  /** New ids are new, allocated ports are free, an idle unit is taken if there is one, and only what waits can finish. */
  ghost predicate Possible(s: System, ev: Event) {
    match ev
    case SessionStart(_, k, _, pick, newId, port, _) =>
      Fresh(s, newId) && FreePort(s, port)
      && (pick.Some? ==> pick.value in s.host.units && s.host.units[pick.value].status.Idle? && s.host.units[pick.value].kind == k)
      && (pick.None? ==> !HasIdle(s.host.units, k))
    case Convert(_, newId, _, port) => Fresh(s, newId) && FreePort(s, port)
    case Finish(newId, _, _) => newId in s.pending
    case Lose(newId) => newId in s.pending && s.pending[newId].replacing.Some?
    case DestroyEnd(id) => id in s.doomed
    case Store(id, _) => Known(s, id)
    case _ => true
  }

  /** Ids say what they name, and what waits refers to records that exist or existed. */
  ghost predicate Traced(s: System) {
    Named(s.host.units) && Named(s.gone) && "" !in s.host.units
    && (forall id :: id in s.host.units ==> id !in s.gone && id !in s.pending)
    && (forall id :: id in s.gone ==> id !in s.pending && id != "")
    && (forall n :: n in s.pending ==> n != "")
    && (forall id :: id in s.doomed ==> Known(s, id))
    && forall n :: n in s.pending && s.pending[n].replacing.Some? ==>
         Known(s, s.pending[n].replacing.value) && Record(s, s.pending[n].replacing.value).kind != s.pending[n].kind
  }

  // ----- In balance -----

  function Future(id: string, w: Work): Unit {
    NewUnit(id, w.kind, w.port, w.persistent, 0)
  }

  /** The units there are and those on their way. */
  function All(units: map<string, Unit>, pending: map<string, Work>): map<string, Unit> {
    units + map n | n in pending :: Future(n, pending[n])
  }

  /** The conversions that wait and give up a unit of a kind. */
  function LeavingIds(pending: map<string, Work>, k: Kind): set<string> {
    set n | n in pending && pending[n].replacing.Some? && pending[n].kind != k
  }

  function Leaving(pending: map<string, Work>, k: Kind): nat {
    |LeavingIds(pending, k)|
  }

  function Owed(s: System, k: Kind): int {
    Count(All(s.host.units, s.pending), k) - Leaving(s.pending, k)
  }

  predicate Accounts(c: Config, s: System) {
    s.host.budget.headless == Owed(s, Headless) >= 0 && s.host.budget.desktop == Owed(s, Desktop) >= 0
    && s.host.budget == Rebuilt(c, s.host.budget.headless, s.host.budget.desktop)
  }

  /**
   * The index agrees with the units, every used port belongs to exactly one unit that is there or on its way, and the budget
   * is the cost of those, less what conversions that wait have given up.
   */
  ghost predicate Balanced(c: Config, s: System) {
    AgentsInStep(s.host.units, s.host.agents)
    && PortsInStep(All(s.host.units, s.pending), s.host.used)
    && Accounts(c, s)
  }

  // ----- What each step must find -----

  predicate FinishGuard(c: Config, s: System, newId: string, ok: bool)
    requires newId in s.pending
  {
    var h, w := s.host, s.pending[newId];
    match w.replacing
    case None => if ok then Truthy(w.agent) ==> w.agent.value !in h.agents else CountOf(h.budget, w.kind) >= 1
    case Some(id) =>
      id in h.units
      && if ok then Truthy(w.agent) && w.agent.value in h.agents ==> h.agents[w.agent.value] == id
         else CountOf(h.budget, w.kind) >= 1 && (w.kind.Headless? ==> PromoteError(c, h.budget).None?)
  }

  /**
   * What a request finds when it may go on: the agent has no other unit, the unit a request that waited holds is still
   * there, there is something to give back, and the budget takes a demotion that failed back.
   */
  predicate Guard(c: Config, vm: bool, s: System, ev: Event) {
    var h, b := s.host, s.host.budget;
    match ev
    case SessionStart(agent, _, _, pick, _, _, _) =>
      !Served(h, agent) && agent != "" && pick.Some? && pick.value in h.units ==> MayAssign(h.units, h.agents, pick.value, agent)
    case Convert(id, _, to, port) =>
      !Refused(c, vm, h, id, to) ==>
        if port.Some? then CountOf(b, h.units[id].kind) >= 1 else Undone(c, Converted(c, b, Up(to)), to).Some?
    case Finish(newId, ok, _) => newId in s.pending ==> FinishGuard(c, s, newId, ok)
    case Lose(_) => false
    case DestroyEnd(id) =>
      id in s.doomed && Known(s, id) ==>
        var u := Record(s, id);
        if id in h.units then CountOf(b, u.kind) >= 1 else u.port !in h.used && Released(c, b, u.kind) == b
    case Assign(id, agent, _) => id in h.units && !h.units[id].status.Assigned? ==> MayAssign(h.units, h.agents, id, agent)
    case Store(id, _) => id in h.units
    case SessionEnd(_, _) => true
    case DestroyBegin(_) => true
    case Detach(_, _, _) => true
  }

  // ----- Runs -----

  function Reached(c: Config, vm: bool, s: System, run: seq<Event>): System {
    if run == [] then s else Next(c, vm, Reached(c, vm, s, run[..|run| - 1]), run[|run| - 1])
  }

  ghost predicate PossibleRun(c: Config, vm: bool, s: System, run: seq<Event>) {
    run == [] || (PossibleRun(c, vm, s, run[..|run| - 1]) && Possible(Reached(c, vm, s, run[..|run| - 1]), run[|run| - 1]))
  }

  predicate GuardedRun(c: Config, vm: bool, s: System, run: seq<Event>) {
    run == [] || (GuardedRun(c, vm, s, run[..|run| - 1]) && Guard(c, vm, Reached(c, vm, s, run[..|run| - 1]), run[|run| - 1]))
  }

  /** In balance at every moment of a run. */
  ghost predicate AlwaysBalanced(c: Config, vm: bool, s: System, run: seq<Event>) {
    Balanced(c, Reached(c, vm, s, run)) && (run != [] ==> AlwaysBalanced(c, vm, s, run[..|run| - 1]))
  }
}
