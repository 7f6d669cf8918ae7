/** The sandbox orchestrator's cache and agent index as a state machine; a handler that awaits is two steps. */
module OrchestratorSpec {
  import opened Prelude

  type Sid = nat

  datatype Status = Idle | Assigned | Running | Starting | Stopped | Unhealthy | NotFound | Unknown | Restoring

  datatype Entry = Entry(agent: Option<string>, os: string, persistent: bool, status: Status)

  /** A pod in the cluster, as far as its labels tell. */
  datatype Pod = Pod(agent: Option<string>, os: string, persistent: bool)

  /** The cache entry a handler holds on to while it awaits: a rebuild replaces every entry object. */
  datatype Handle = Handle(sid: Sid, generation: nat)

  /** releasing holds one handle for every release request that has not resumed yet. */
  datatype State = State(cache: map<Sid, Entry>, agents: map<string, Sid>, pods: map<Sid, Pod>, generation: nat,
                         releasing: multiset<Handle>)

  datatype Event =
    | Create(sid: Sid, os: string, status: Status)
    | SessionStart(agent: Option<string>, os: string, persistent: bool, pick: Option<Sid>, newSid: Sid, created: bool)
    | SessionEnd(name: string)
    | Claim(sid: Sid, name: string)
    | ReleaseBegin(sid: Sid)
    | ReleaseResume(handle: Handle)
    | Destroy(sid: Sid)
    | SetStatus(handle: Handle, status: Status)
    | SetPersistent(sid: Sid, persistent: bool)
    | Rebuild(order: seq<Sid>, statuses: map<Sid, Status>)

  /** A sandbox that session_start may hand out and claim accepts. */
  predicate Free(e: Entry) {
    e.status == Idle && e.agent == None
  }

  predicate Serving(status: Status) {
    status == Assigned || status == Idle || status == Running || status == Starting
  }

  /** Patching a label of a pod that is gone is ignored. */
  function Labelled(pods: map<Sid, Pod>, sid: Sid, agent: string): map<Sid, Pod> {
    if sid in pods then pods[sid := pods[sid].(agent := Some(agent))] else pods
  }

  function Handed(s: State, sid: Sid, e: Entry, agent: Option<string>): State {
    var entry := e.(agent := agent, status := if Truthy(agent) then Assigned else e.status);
    if Truthy(agent) then
      s.(cache := s.cache[sid := entry], agents := s.agents[agent.value := sid], pods := Labelled(s.pods, sid, agent.value))
    else s.(cache := s.cache[sid := entry])
  }

  predicate HasServing(s: State, agent: Option<string>) {
    Truthy(agent) && agent.value in s.agents && s.agents[agent.value] in s.cache
    && Serving(s.cache[s.agents[agent.value]].status)
  }

  function Unassigned(s: State, sid: Sid): State
    requires sid in s.cache
  {
    s.(cache := s.cache[sid := s.cache[sid].(agent := None, status := Idle)], pods := Labelled(s.pods, sid, ""))
  }

  /** _agent_map.pop(agent, None), when the agent is truthy. */
  function Popped(agents: map<string, Sid>, agent: Option<string>): map<string, Sid> {
    if Truthy(agent) then agents - {agent.value} else agents
  }

  function RebuiltEntry(p: Pod, status: Status): Entry {
    Entry(p.agent, p.os, p.persistent, if Truthy(p.agent) then Assigned else if status == Running then Idle else status)
  }

  function RebuiltAgents(pods: map<Sid, Pod>, order: seq<Sid>): map<string, Sid>
    requires forall i :: 0 <= i < |order| ==> order[i] in pods
  {
    if order == [] then map[] else
      var n := |order| - 1;
      var rest := RebuiltAgents(pods, order[..n]);
      if Truthy(pods[order[n]].agent) then rest[pods[order[n]].agent.value := order[n]] else rest
  }

  /** What the event's own data must satisfy: fresh ids, a sandbox that session_start could really find, a pending resume. */
  ghost predicate Possible(s: State, ev: Event) {
    match ev
    case Create(sid, _, _) => sid !in s.cache && sid !in s.pods && forall h :: h in s.releasing ==> h.sid != sid
    case SessionStart(agent, os, _, pick, newSid, _) =>
      newSid !in s.cache && newSid !in s.pods && (forall h :: h in s.releasing ==> h.sid != newSid)
      && (match pick
          case Some(sid) => sid in s.cache && Free(s.cache[sid]) && s.cache[sid].os == os
          case None => forall sid :: sid in s.cache ==> !(Free(s.cache[sid]) && s.cache[sid].os == os))
    case ReleaseResume(h) => h in s.releasing
    case Rebuild(order, statuses) =>
      (forall i :: 0 <= i < |order| ==> order[i] in s.pods) && (forall sid :: sid in s.pods ==> sid in order && sid in statuses)
    case _ => true
  }

  function Step(max: nat, s: State, ev: Event): State
    requires Possible(s, ev)
  {
    match ev
    case Create(sid, os, status) =>
      if |s.cache| >= max then s else
        s.(cache := s.cache[sid := Entry(None, os, false, status)], pods := s.pods[sid := Pod(None, os, false)])
    case SessionStart(agent, os, persistent, pick, newSid, created) =>
      if HasServing(s, agent) then s
      else if pick.Some? then Handed(s, pick.value, s.cache[pick.value], agent)
      else if |s.cache| >= max || !created then s
      else Handed(s.(pods := s.pods[newSid := Pod(None, os, persistent)]), newSid, Entry(agent, os, persistent, Starting), agent)
    case SessionEnd(name) =>
      var rest := s.(agents := s.agents - {name});
      if name !in s.agents || s.agents[name] !in s.cache then rest
      else if s.cache[s.agents[name]].persistent then Unassigned(rest, s.agents[name])
      else rest.(cache := s.cache - {s.agents[name]}, pods := s.pods - {s.agents[name]})
    case Claim(sid, name) =>
      if sid !in s.cache || !Free(s.cache[sid]) then s else
        s.(cache := s.cache[sid := s.cache[sid].(agent := Some(name), status := Assigned)],
           agents := s.agents[name := sid], pods := Labelled(s.pods, sid, name))
    case ReleaseBegin(sid) =>
      if sid !in s.cache then s else
        var rest := s.(agents := Popped(s.agents, s.cache[sid].agent));
        if s.cache[sid].persistent then Unassigned(rest, sid)
        else rest.(releasing := s.releasing + multiset{Handle(sid, s.generation)})
    case ReleaseResume(h) =>
      var rest := s.(releasing := s.releasing - multiset{h});
      if h.generation == s.generation && h.sid in s.cache then Unassigned(rest, h.sid)
      else rest.(pods := Labelled(s.pods, h.sid, ""))
    case Destroy(sid) =>
      if sid !in s.cache then s else
        s.(agents := Popped(s.agents, s.cache[sid].agent), cache := s.cache - {sid}, pods := s.pods - {sid})
    case SetStatus(h, status) =>
      if h.generation == s.generation && h.sid in s.cache then s.(cache := s.cache[h.sid := s.cache[h.sid].(status := status)]) else s
    case SetPersistent(sid, persistent) =>
      if sid !in s.cache then s else
        s.(cache := s.cache[sid := s.cache[sid].(persistent := persistent)],
           pods := if sid in s.pods then s.pods[sid := s.pods[sid].(persistent := persistent)] else s.pods)
    case Rebuild(order, statuses) =>
      s.(cache := map sid | sid in s.pods :: RebuiltEntry(s.pods[sid], statuses[sid]),
         agents := RebuiltAgents(s.pods, order), generation := s.generation + 1)
  }

  // ----- The index -----

  /** Every indexed agent's sandbox is cached, with that agent. */
  ghost predicate Indexed(s: State) {
    forall a :: a in s.agents ==> s.agents[a] in s.cache && s.cache[s.agents[a]].agent == Some(a)
  }

  /** The index is right, and holds no nameless agent, whose entry release would not find. */
  ghost predicate IndexOk(s: State) {
    Indexed(s) && "" !in s.agents
  }

  ghost predicate Nobody(s: State, sid: Sid) {
    forall a :: a in s.agents ==> s.agents[a] != sid
  }

  /** The entry a handler holds is still the cached one. */
  predicate Live(s: State, h: Handle) {
    h.generation == s.generation && h.sid in s.cache
  }

  predicate NamedClaim(ev: Event) {
    ev.Claim? ==> ev.name != ""
  }

  /** A release that resumes on a live entry finds nobody indexed for its sandbox. */
  ghost predicate MeetsNobody(s: State, ev: Event) {
    ev.ReleaseResume? && Live(s, ev.handle) ==> Nobody(s, ev.handle.sid)
  }

  /** What a caller of release can check: no other release of the sandbox waits, and it is persistent or has an agent. */
  predicate SafeRelease(s: State, sid: Sid) {
    sid in s.cache ==> Handle(sid, s.generation) !in s.releasing && (s.cache[sid].persistent || s.cache[sid].agent.Some?)
  }

  predicate Disciplined(s: State, ev: Event) {
    match ev
    case ReleaseBegin(sid) => SafeRelease(s, sid)
    case Claim(_, name) => name != ""
    case _ => true
  }

  /** A waiting release whose entry is live: the sandbox has an agent, is in nobody's index, and no other release waits. */
  ghost predicate HandleSafe(s: State, h: Handle) {
    h.generation <= s.generation
    && (h in s.releasing && Live(s, h) ==> s.cache[h.sid].agent.Some? && s.releasing[h] == 1 && Nobody(s, h.sid))
  }

  /** What disciplined runs keep. */
  ghost predicate Good(s: State) {
    IndexOk(s) && forall h :: h in s.releasing ==> HandleSafe(s, h)
  }

  // ----- Runs -----

  /** The state after a run that starts from s0; events that cannot happen in their state are skipped. */
  ghost function After(max: nat, s0: State, events: seq<Event>): State {
    if events == [] then s0 else
      var s := After(max, s0, events[..|events| - 1]);
      if Possible(s, events[|events| - 1]) then Step(max, s, events[|events| - 1]) else s
  }

  ghost predicate DisciplinedRun(max: nat, s0: State, events: seq<Event>) {
    events == [] || (DisciplinedRun(max, s0, events[..|events| - 1])
                     && Disciplined(After(max, s0, events[..|events| - 1]), events[|events| - 1]))
  }

  /** The index is right at every moment of a run. */
  ghost predicate AlwaysIndexed(max: nat, s0: State, events: seq<Event>) {
    IndexOk(After(max, s0, events)) && (events != [] ==> AlwaysIndexed(max, s0, events[..|events| - 1]))
  }

  /** Every release that resumes in a run meets nobody. */
  ghost predicate ResumesMeetNobody(max: nat, s0: State, events: seq<Event>) {
    events == [] || (var s, ev := After(max, s0, events[..|events| - 1]), events[|events| - 1];
      ResumesMeetNobody(max, s0, events[..|events| - 1]) && (Possible(s, ev) ==> MeetsNobody(s, ev)))
  }

  /** The same of one release alone. */
  ghost predicate HandleMeetsNobody(max: nat, s0: State, events: seq<Event>, h: Handle) {
    events == [] || (var s, ev := After(max, s0, events[..|events| - 1]), events[|events| - 1];
      HandleMeetsNobody(max, s0, events[..|events| - 1], h)
      && (Possible(s, ev) && ev == ReleaseResume(h) ==> MeetsNobody(s, ev)))
  }

  /** No other release of the sandbox is requested, and agents have names. */
  predicate Quiet(events: seq<Event>, sid: Sid) {
    forall ev :: ev in events ==> NamedClaim(ev) && ev != ReleaseBegin(sid)
  }

  /** However the run goes on without another release of its sandbox, the waiting release does no harm. */
  ghost predicate SafeForever(max: nat, s: State, h: Handle) {
    forall events: seq<Event> :: Quiet(events, h.sid) ==> HandleMeetsNobody(max, s, events, h)
  }

  // ----- Labels -----

  /** Every cached sandbox has its pod, and the pod of one that an agent holds carries that agent's label. */
  ghost predicate LabelsAgree(s: State) {
    forall sid :: sid in s.cache ==> sid in s.pods && (Truthy(s.cache[sid].agent) ==> s.pods[sid].agent == s.cache[sid].agent)
  }

  /** A release that resumes after a rebuild clears the label of a sandbox that is held again. */
  predicate ClearsHeldLabel(s: State, ev: Event) {
    ev.ReleaseResume? && ev.handle.generation != s.generation && ev.handle.sid in s.cache && Truthy(s.cache[ev.handle.sid].agent)
  }
}
